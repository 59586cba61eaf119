/** The authentication event the orchestrator consumes: a type, a `data` map and a `meta` map,
    as Jackson builds them from the message (either map may be null). */
module AuthEvents {
  import opened Basics
  import opened Java
  import opened Json

  /** `(String) m.get(key)` on a possibly-null map: null for a null map, a missing key or a
      JSON null; the text of a string; a ClassCastException for any other value. */
  function StringEntry(m: Option<map<string, Json>>, key: string): (r: Result<Option<string>>)
    ensures m.None? ==> r == Ok(None)
    ensures m.Some? && key !in m.value ==> r == Ok(None)
    ensures m.Some? && key in m.value && m.value[key].JNull? ==> r == Ok(None)
    ensures m.Some? && key in m.value && m.value[key].JString? ==> r == Ok(Some(m.value[key].s))
    ensures m.Some? && key in m.value && !m.value[key].JNull? && !m.value[key].JString? ==> r == Thrown(ClassCastException(key))
  {
    if m.None? || key !in m.value then Ok(None)
    else
      match m.value[key]
      case JNull => Ok(None)
      case JString(s) => Ok(Some(s))
      case _ => Thrown(ClassCastException(key))
  }

  class AuthEvent {
    var eventType: Option<string>
    var data: Option<map<string, Json>>
    var meta: Option<map<string, Json>>

    /** The no-argument constructor: no type, empty `data` and `meta`. */
    constructor Empty()
      ensures eventType.None? && data == Some(map[]) && meta == Some(map[])
    {
      eventType := None;
      data := Some(map[]);
      meta := Some(map[]);
    }

    /** The creator Jackson uses: all three stored as given. */
    constructor (eventType: Option<string>, data: Option<map<string, Json>>, meta: Option<map<string, Json>>)
      ensures this.eventType == eventType && this.data == data && this.meta == meta
    {
      this.eventType := eventType;
      this.data := data;
      this.meta := meta;
    }

    method SetType(eventType: Option<string>)
      modifies this
      ensures this.eventType == eventType && data == old(data) && meta == old(meta)
    {
      this.eventType := eventType;
    }

    method SetData(data: Option<map<string, Json>>)
      modifies this
      ensures this.data == data && eventType == old(eventType) && meta == old(meta)
    {
      this.data := data;
    }

    method SetMeta(meta: Option<map<string, Json>>)
      modifies this
      ensures this.meta == meta && eventType == old(eventType) && data == old(data)
    {
      this.meta := meta;
    }

    /** The typed getters: each reads one key of `data` or `meta` and yields null for a null
        map, a missing key or a JSON null, the text of a string, and a ClassCastException for
        any other value. */
    function GetUserId(): (r: Result<Option<string>>)
      reads this
      ensures data.None? || "id" !in data.value || data.value["id"].JNull? ==> r == Ok(None)
      ensures data.Some? && "id" in data.value && data.value["id"].JString? ==> r == Ok(Some(data.value["id"].s))
      ensures data.Some? && "id" in data.value && !data.value["id"].JNull? && !data.value["id"].JString? ==>
        r == Thrown(ClassCastException("id"))
    {
      StringEntry(data, "id")
    }

    function GetUsername(): (r: Result<Option<string>>)
      reads this
      ensures data.None? || "username" !in data.value || data.value["username"].JNull? ==> r == Ok(None)
      ensures data.Some? && "username" in data.value && data.value["username"].JString? ==> r == Ok(Some(data.value["username"].s))
      ensures data.Some? && "username" in data.value && !data.value["username"].JNull? && !data.value["username"].JString? ==>
        r == Thrown(ClassCastException("username"))
    {
      StringEntry(data, "username")
    }

    function GetEmail(): (r: Result<Option<string>>)
      reads this
      ensures data.None? || "email" !in data.value || data.value["email"].JNull? ==> r == Ok(None)
      ensures data.Some? && "email" in data.value && data.value["email"].JString? ==> r == Ok(Some(data.value["email"].s))
      ensures data.Some? && "email" in data.value && !data.value["email"].JNull? && !data.value["email"].JString? ==>
        r == Thrown(ClassCastException("email"))
    {
      StringEntry(data, "email")
    }

    function GetPhone(): (r: Result<Option<string>>)
      reads this
      ensures data.None? || "phone" !in data.value || data.value["phone"].JNull? ==> r == Ok(None)
      ensures data.Some? && "phone" in data.value && data.value["phone"].JString? ==> r == Ok(Some(data.value["phone"].s))
      ensures data.Some? && "phone" in data.value && !data.value["phone"].JNull? && !data.value["phone"].JString? ==>
        r == Thrown(ClassCastException("phone"))
    {
      StringEntry(data, "phone")
    }

    function GetToken(): (r: Result<Option<string>>)
      reads this
      ensures data.None? || "token" !in data.value || data.value["token"].JNull? ==> r == Ok(None)
      ensures data.Some? && "token" in data.value && data.value["token"].JString? ==> r == Ok(Some(data.value["token"].s))
      ensures data.Some? && "token" in data.value && !data.value["token"].JNull? && !data.value["token"].JString? ==>
        r == Thrown(ClassCastException("token"))
    {
      StringEntry(data, "token")
    }

    function GetIpAddress(): (r: Result<Option<string>>)
      reads this
      ensures meta.None? || "ip" !in meta.value || meta.value["ip"].JNull? ==> r == Ok(None)
      ensures meta.Some? && "ip" in meta.value && meta.value["ip"].JString? ==> r == Ok(Some(meta.value["ip"].s))
      ensures meta.Some? && "ip" in meta.value && !meta.value["ip"].JNull? && !meta.value["ip"].JString? ==>
        r == Thrown(ClassCastException("ip"))
    {
      StringEntry(meta, "ip")
    }

    function GetTimestamp(): (r: Result<Option<string>>)
      reads this
      ensures meta.None? || "timestamp" !in meta.value || meta.value["timestamp"].JNull? ==> r == Ok(None)
      ensures meta.Some? && "timestamp" in meta.value && meta.value["timestamp"].JString? ==> r == Ok(Some(meta.value["timestamp"].s))
      ensures meta.Some? && "timestamp" in meta.value && !meta.value["timestamp"].JNull? && !meta.value["timestamp"].JString? ==>
        r == Thrown(ClassCastException("timestamp"))
    {
      StringEntry(meta, "timestamp")
    }
  }

  /** Every getter of an event built by the no-argument constructor returns null. */
  lemma EmptyEventReadsNull(e: AuthEvent)
    requires e.data == Some(map[]) && e.meta == Some(map[])
    ensures e.GetUserId() == Ok(None) && e.GetUsername() == Ok(None) && e.GetEmail() == Ok(None)
    ensures e.GetPhone() == Ok(None) && e.GetToken() == Ok(None)
    ensures e.GetIpAddress() == Ok(None) && e.GetTimestamp() == Ok(None)
  {
  }

  /** A null `data` map makes every data getter return null without throwing. */
  lemma NullDataReadsNull(e: AuthEvent)
    requires e.data.None?
    ensures e.GetUserId() == Ok(None) && e.GetUsername() == Ok(None) && e.GetEmail() == Ok(None)
    ensures e.GetPhone() == Ok(None) && e.GetToken() == Ok(None)
  {
  }

  /** A null `meta` map makes the meta getters return null. */
  lemma NullMetaReadsNull(e: AuthEvent)
    requires e.meta.None?
    ensures e.GetIpAddress() == Ok(None) && e.GetTimestamp() == Ok(None)
  {
  }

  /** A getter throws exactly when the entry holds a value other than a string or null. */
  lemma StringEntryThrowsIff(m: Option<map<string, Json>>, key: string)
    ensures StringEntry(m, key).Thrown? <==> m.Some? && key in m.value && !m.value[key].JNull? && !m.value[key].JString?
  {
  }
}
