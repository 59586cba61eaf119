/** The unified update's field router: which inbound keys go to the auth service, which go to
    the profile service, and the names the profile service expects them under. */
module FieldRouting {
  import opened Json

  /** Keys forwarded to the auth service, unchanged. */
  const AuthFieldNames: seq<string> := ["firstName", "lastName", "phone", "email"]

  /** Keys forwarded to the profile service (before renaming). */
  const ProfileFieldNames: seq<string> := [
    "bio", "nickname", "personalUrl", "organization", "country",
    "mailingAddress", "contactInfoPublic", "profileVisibility",
    "githubUrl", "linkedinUrl", "twitterUrl", "facebookUrl",
    "instagramUrl", "websiteUrl"
  ]

  /** The camelCase -> snake_case renaming applied before the profile call. */
  const FieldMapping: map<string, string> := map[
    "personalUrl" := "personal_url",
    "mailingAddress" := "mailing_address",
    "contactInfoPublic" := "contact_info_public",
    "profileVisibility" := "profile_visibility",
    "githubUrl" := "github_url",
    "linkedinUrl" := "linkedin_url",
    "twitterUrl" := "twitter_url",
    "facebookUrl" := "facebook_url",
    "instagramUrl" := "instagram_url",
    "websiteUrl" := "website_url"
  ]

  /** The name a profile key is sent under: its table entry if it has one, else itself. */
  function SnakeName(key: string): string
  {
    if key in FieldMapping then FieldMapping[key] else key
  }

  /** The entries of `input` whose key is listed in `names`, values unchanged. */
  function Restrict(input: map<string, Json>, names: seq<string>): (r: map<string, Json>)
    ensures r.Keys == input.Keys * set k | k in names
    ensures forall k | k in r :: r[k] == input[k]
  {
    map k | k in input && k in names :: input[k]
  }

  predicate AllProfileKeys(fields: map<string, Json>)
  {
    forall k | k in fields :: k in ProfileFieldNames
  }

  /** No key is routed to both services. */
  lemma AllowListsDisjoint()
    ensures forall k :: !(k in AuthFieldNames && k in ProfileFieldNames)
  {
  }

  /** The table renames ten of the fourteen profile names. */
  lemma FieldMappingDomain()
    ensures |FieldMapping| == 10
    ensures forall k | k in FieldMapping :: k in ProfileFieldNames
  {
  }

  /** The four names the table leaves alone pass through unchanged, and no renamed key
      lands on one of them. */
  lemma PassThroughNames()
    ensures forall k | k in ProfileFieldNames && k !in FieldMapping :: k in ["bio", "nickname", "organization", "country"]
    ensures forall k | k in FieldMapping :: FieldMapping[k] !in ["bio", "nickname", "organization", "country"]
  {
  }

  predicate HasUnderscore(s: string)
  {
    '_' in s
  }

  lemma RenamedNamesHaveUnderscore()
    ensures forall k | k in FieldMapping :: HasUnderscore(FieldMapping[k])
  {
  }

  lemma ProfileNamesHaveNoUnderscore()
    ensures forall k | k in ProfileFieldNames :: !HasUnderscore(k)
  {
  }

  /** No two table entries share a target. */
  lemma FieldMappingInjective()
    ensures forall a, b | a in FieldMapping && b in FieldMapping && FieldMapping[a] == FieldMapping[b] :: a == b
  {
  }

  /** Two distinct profile names are never sent under the same name: the table is injective,
      and its targets (snake_case, with an underscore) never equal a pass-through name. */
  lemma SnakeNameInjective(a: string, b: string)
    requires a in ProfileFieldNames && b in ProfileFieldNames
    requires SnakeName(a) == SnakeName(b)
    ensures a == b
  {
    RenamedNamesHaveUnderscore();
    ProfileNamesHaveNoUnderscore();
    FieldMappingInjective();
  }

  ghost predicate InjectiveOn(f: string -> string, keys: set<string>)
  {
    forall a, b | a in keys && b in keys && f(a) == f(b) :: a == b
  }

  lemma SnakeNameInjectiveOn(keys: set<string>)
    requires forall k | k in keys :: k in ProfileFieldNames
    ensures InjectiveOn(SnakeName, keys)
  {
    forall a, b | a in keys && b in keys && SnakeName(a) == SnakeName(b) ensures a == b {
      SnakeNameInjective(a, b);
    }
  }

  /** Renaming a key set injectively keeps its size. */
  lemma {:induction false} RenamedKeysSize(keys: set<string>, f: string -> string)
    requires InjectiveOn(f, keys)
    ensures |set k | k in keys :: f(k)| == |keys|
    decreases keys
  {
    if keys != {} {
      var x :| x in keys;
      var rest := keys - {x};
      RenamedKeysSize(rest, f);
      var image := set k | k in keys :: f(k);
      var restImage := set k | k in rest :: f(k);
      assert image == restImage + {f(x)};
      assert f(x) !in restImage;
    }
  }

  /** `r` holds every entry of `fields` under its renamed key, values unchanged, nothing merged or lost. */
  ghost predicate RenamedFrom(r: map<string, Json>, fields: map<string, Json>, f: string -> string)
  {
    && (forall k | k in fields :: f(k) in r && r[f(k)] == fields[k])
    && (forall j | j in r :: exists k | k in fields :: f(k) == j)
    && |r| == |fields|
  }

  /** Every entry moved to its renamed key. */
  function Rename(fields: map<string, Json>, f: string -> string): (r: map<string, Json>)
    requires InjectiveOn(f, fields.Keys)
    ensures RenamedFrom(r, fields, f)
  {
    var r := map k | k in fields :: f(k) := fields[k];
    RenamedKeysSize(fields.Keys, f);
    assert r.Keys == set k | k in fields :: f(k);
    r
  }

  /** The profile payload: every key sent under its snake_case name. */
  function Translate(fields: map<string, Json>): (r: map<string, Json>)
    requires AllProfileKeys(fields)
    ensures RenamedFrom(r, fields, SnakeName)
  {
    SnakeNameInjectiveOn(fields.Keys);
    Rename(fields, SnakeName)
  }

  /** Split an update document between the two services, as the two allow-list loops do.
      Keys in neither list are dropped. */
  method SplitFields(input: map<string, Json>) returns (authFields: map<string, Json>, profileFields: map<string, Json>)
    ensures forall k :: k in authFields <==> k in input && k in AuthFieldNames
    ensures forall k :: k in profileFields <==> k in input && k in ProfileFieldNames
    ensures forall k | k in authFields :: authFields[k] == input[k]
    ensures forall k | k in profileFields :: profileFields[k] == input[k]
    ensures authFields.Keys !! profileFields.Keys
    ensures authFields == Restrict(input, AuthFieldNames) && profileFields == Restrict(input, ProfileFieldNames)
  {
    authFields := SelectFields(input, AuthFieldNames);
    profileFields := SelectFields(input, ProfileFieldNames);
    AllowListsDisjoint();
  }

  /** One allow-list loop: copy each listed key that the input has. */
  method SelectFields(input: map<string, Json>, names: seq<string>) returns (selected: map<string, Json>)
    ensures selected == Restrict(input, names)
  {
    selected := map[];
    for i := 0 to |names|
      invariant forall k :: k in selected <==> k in input && k in names[..i]
      invariant forall k | k in selected :: selected[k] == input[k]
    {
      var field := names[i];
      if field in input {
        selected := selected[field := input[field]];
      }
    }
    assert names[..|names|] == names;
  }

  /** The renaming loop of the profile call: each key goes in under its snake_case name. */
  method TranslateProfileFields(profileFields: map<string, Json>) returns (snake: map<string, Json>)
    requires AllProfileKeys(profileFields)
    ensures snake == Translate(profileFields)
  {
    SnakeNameInjectiveOn(profileFields.Keys);
    snake := RenameLoop(profileFields, SnakeName);
  }

  method RenameLoop(fields: map<string, Json>, f: string -> string) returns (renamed: map<string, Json>)
    requires InjectiveOn(f, fields.Keys)
    ensures renamed == Rename(fields, f)
  {
    renamed := map[];
    var pending := fields.Keys;
    while pending != {}
      invariant pending <= fields.Keys
      invariant forall k | k in fields.Keys - pending :: f(k) in renamed && renamed[f(k)] == fields[k]
      invariant forall j | j in renamed :: exists k | k in fields.Keys - pending :: f(k) == j
      decreases pending
    {
      var key :| key in pending;
      renamed := renamed[f(key) := fields[key]];
      pending := pending - {key};
    }
    var expected := Rename(fields, f);
    forall j | j in renamed ensures j in expected && renamed[j] == expected[j] {
      var k :| k in fields && f(k) == j;
    }
    forall j | j in expected ensures j in renamed {
      var k :| k in fields && f(k) == j;
    }
  }
}
