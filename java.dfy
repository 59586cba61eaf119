/** The few Java semantics the orchestrator relies on: nullable strings, String.trim,
    and exceptions thrown by a handler. */
module Java {
  import opened Basics

  /** A Java exception, as far as the orchestrator can raise one. */
  datatype Exception =
    | ClassCastException(key: string)   // `(String) map.get(key)` on a non-string value
    | NullPointerException(what: string)

  /** A computation that either returns a value or throws. Failure-compatible, so `:-` propagates the throw. */
  datatype Result<+T> = Ok(value: T) | Thrown(exception: Exception) {
    predicate IsFailure() { Thrown? }
    function PropagateFailure<U>(): Result<U>
      requires Thrown?
    {
      Thrown(exception)
    }
    function Extract(): T
      requires Ok?
    {
      value
    }
  }

  /** How a nullable String prints in `"..." + s` and in String.format("%s", s). */
  function Str(s: Option<string>): (r: string)
    ensures s.Some? ==> r == s.value
    ensures s.None? ==> r == "null"
  {
    if s.Some? then s.value else "null"
  }

  /** String.trim treats every character up to U+0020 as removable. */
  predicate Trimmable(c: char)
  {
    c <= ' '
  }

  function TrimStart(s: string): (r: string)
    ensures |r| <= |s|
  {
    if s != [] && Trimmable(s[0]) then TrimStart(s[1..]) else s
  }

  function TrimEnd(s: string): (r: string)
    ensures |r| <= |s|
  {
    if s != [] && Trimmable(s[|s| - 1]) then TrimEnd(s[..|s| - 1]) else s
  }

  /** String.trim: drop removable characters from both ends. */
  function Trim(s: string): string
  {
    TrimEnd(TrimStart(s))
  }

  /** `s.trim().isEmpty()`. */
  predicate IsBlank(s: string)
  {
    Trim(s) == ""
  }

  lemma {:induction false} TrimEndEmpty(s: string)
    ensures TrimEnd(s) == "" <==> forall i :: 0 <= i < |s| ==> Trimmable(s[i])
  {
    if s != [] && Trimmable(s[|s| - 1]) {
      TrimEndEmpty(s[..|s| - 1]);
      assert forall i :: 0 <= i < |s| - 1 ==> s[i] == s[..|s| - 1][i];
    }
  }

  /** TrimStart drops a prefix of removable characters. */
  lemma {:induction false} TrimStartDropsPrefix(s: string) returns (k: nat)
    ensures k <= |s| && TrimStart(s) == s[k..]
    ensures forall i :: 0 <= i < k ==> Trimmable(s[i])
  {
    if s != [] && Trimmable(s[0]) {
      var k' := TrimStartDropsPrefix(s[1..]);
      k := k' + 1;
      assert s[1..][k'..] == s[k..];
      forall i | 0 <= i < k ensures Trimmable(s[i]) {
        if i > 0 {
          assert s[i] == s[1..][i - 1];
        }
      }
    } else {
      k := 0;
    }
  }

  /** A string is blank after trimming exactly when every character in it is removable. */
  lemma BlankIffAllTrimmable(s: string)
    ensures IsBlank(s) <==> forall i :: 0 <= i < |s| ==> Trimmable(s[i])
  {
    var k := TrimStartDropsPrefix(s);
    var t := s[k..];
    TrimEndEmpty(t);
    if forall i :: 0 <= i < |t| ==> Trimmable(t[i]) {
      forall i | 0 <= i < |s| ensures Trimmable(s[i]) {
        if i >= k {
          assert s[i] == t[i - k];
        }
      }
    } else {
      var j :| 0 <= j < |t| && !Trimmable(t[j]);
      assert s[j + k] == t[j];
    }
  }
}
