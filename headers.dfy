/** Go's http.Header as the gateway uses it: a map from canonical key to its list of values,
    extended one value at a time with Header.Add. */
module Headers {

  type Headers = map<string, seq<string>>

  /** Header.Values: the list under `key`, empty when the key is absent. */
  function Values(h: Headers, key: string): seq<string>
  {
    if key in h then h[key] else []
  }

  /** The keys of `h` that carry at least one value. */
  function NonEmptyKeys(h: Headers): set<string>
  {
    set k | k in h && h[k] != []
  }

  /** The entries of `src` whose key is in `keys`. */
  function Only(src: Headers, keys: set<string>): Headers
  {
    map k | k in src && k in keys :: src[k]
  }

  /** Adding every value of `src` to `dst`, key by key: each list of `src` is appended after
      what `dst` already holds, and a key of `src` without values adds nothing. */
  function AddHeaders(dst: Headers, src: Headers): Headers
  {
    map k | k in dst.Keys + NonEmptyKeys(src) :: Values(dst, k) + Values(src, k)
  }

  /** The headers of an outgoing request built by copying `src` into a fresh header map. */
  function Forwarded(src: Headers): Headers
  {
    AddHeaders(map[], src)
  }

  /** Header.Add for each value of one list, in order. */
  function AddList(h: Headers, key: string, values: seq<string>): Headers
  {
    if values == [] then h else h[key := Values(h, key) + values]
  }

  /** A forwarded request carries exactly the keys that had values, each with its list unchanged. */
  lemma ForwardedKeepsValues(src: Headers)
    ensures Forwarded(src).Keys == NonEmptyKeys(src)
    ensures forall k | k in Forwarded(src) :: Forwarded(src)[k] == src[k]
  {
  }

  /** Adding never drops a key or a value already present: each old list is a prefix of the new one. */
  lemma AddHeadersExtends(dst: Headers, src: Headers)
    ensures forall k | k in dst :: k in AddHeaders(dst, src) && dst[k] <= AddHeaders(dst, src)[k]
    ensures forall k | k in AddHeaders(dst, src) :: k in dst || k in NonEmptyKeys(src)
  {
  }

  lemma AddNothing(dst: Headers)
    ensures AddHeaders(dst, map[]) == dst
  {
    assert NonEmptyKeys(map[]) == {};
    forall k | k in dst ensures Values(dst, k) + Values(map[], k) == dst[k] {
    }
  }

  /** Adding one more key of `src` to those already copied. */
  lemma AddHeadersStep(dst: Headers, src: Headers, done: set<string>, key: string)
    requires key in src && key !in done
    ensures AddHeaders(dst, Only(src, done + {key})) == AddList(AddHeaders(dst, Only(src, done)), key, src[key])
  {
    var before := AddHeaders(dst, Only(src, done));
    var after := AddHeaders(dst, Only(src, done + {key}));
    var expected := AddList(before, key, src[key]);
    assert Values(before, key) == Values(dst, key);
    forall k | k in after ensures k in expected && after[k] == expected[k] {
      if k != key {
        assert Values(Only(src, done + {key}), k) == Values(Only(src, done), k);
      }
    }
    forall k | k in expected ensures k in after {
    }
  }

  /** The inner copy loop: Header.Add(key, value) for each value of the list. */
  method AddEach(h: Headers, key: string, values: seq<string>) returns (out: Headers)
    ensures out == AddList(h, key, values)
  {
    out := h;
    for i := 0 to |values|
      invariant out == AddList(h, key, values[..i])
    {
      assert values[..i + 1] == values[..i] + [values[i]];
      assert Values(out, key) == Values(h, key) + values[..i];
      assert out[key := Values(h, key) + values[..i + 1]] == h[key := Values(h, key) + values[..i + 1]];
      out := out[key := Values(out, key) + [values[i]]];
      assert values[..i + 1] != [];
      assert Values(h, key) + values[..i] + [values[i]] == Values(h, key) + values[..i + 1];
    }
    assert values[..|values|] == values;
  }

  /** The nested copy loop: every value of every key of `src` added to `dst`. */
  method AddAll(dst: Headers, src: Headers) returns (out: Headers)
    ensures out == AddHeaders(dst, src)
  {
    out := dst;
    var pending := src.Keys;
    assert Only(src, {}) == map[];
    AddNothing(dst);
    while pending != {}
      invariant pending <= src.Keys
      invariant out == AddHeaders(dst, Only(src, src.Keys - pending))
      decreases pending
    {
      var key :| key in pending;
      AddHeadersStep(dst, src, src.Keys - pending, key);
      assert src.Keys - (pending - {key}) == (src.Keys - pending) + {key};
      out := AddEach(out, key, src[key]);
      pending := pending - {key};
    }
    assert Only(src, src.Keys) == src;
  }
}
