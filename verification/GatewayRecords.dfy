/** The strict record format of the gateway secret file, over decoded JSON. */
module GatewayRecords {
  import opened Tables
  import opened SecretFile
  import KeyedFile

  /** Member names: the format's own, and every other text. */
  datatype Label =
    | SchemaVersion | Profiles | Provider | LogicalName | Generation | Gateway | Credentials | Capabilities
    | EndpointId | Protocol | Host | Port | Username | Password | Countries | StickySeconds
    | Other(text: string)

  /** `Obj` is an object with labelled members; `Table` one whose member names are
      the keys of the profiles. */
  datatype Json =
    | Null
    | Bool(b: bool)
    | Int(n: int)
    | Real(r: real)
    | Str(s: string)
    | Arr(items: seq<Json>)
    | Obj(fields: map<Label, Json>)
    | Table(entries: map<string, Json>)

  const SCHEMA_VERSION: int := 2
  const PROVIDER: string := "webshare"
  const ENDPOINT: string := "webshare-residential-backbone"
  const HOST: string := "p.webshare.io"
  const PROTOCOL: string := "http"

  datatype ProfileKey = ProfileKey(provider: string, name: string)

  datatype Secret = Secret(
    provider: string,
    name: string,
    generation: int,
    endpoint: string,
    protocol: string,
    host: string,
    port: int,
    username: string,
    password: string,
    countries: set<string>,
    ttl: int)

  function KeyOf(s: Secret): ProfileKey {
    ProfileKey(s.provider, s.name)
  }

  function KeyText(k: ProfileKey): string {
    k.provider + "/" + k.name
  }

  // ---- field rules -------------------------------------------------------------

  predicate NameHead(ch: char) {
    'a' <= ch <= 'z' || '0' <= ch <= '9'
  }

  /** `[a-z0-9][a-z0-9_-]{0,63}` */
  predicate ValidName(name: string) {
    1 <= |name| <= 64 && NameHead(name[0]) &&
    forall i | 1 <= i < |name| :: NameHead(name[i]) || name[i] == '_' || name[i] == '-'
  }

  predicate ValidPort(port: int) {
    port == 80 || port == 1_080 || port == 3_128 || 9_999 <= port <= 19_999
  }

  predicate Control(ch: char) {
    ch as int < 0x20 || 0x7F <= ch as int < 0xA0
  }

  predicate ValidText(text: string, maximum: nat) {
    1 <= |text| <= maximum && forall ch | ch in text :: !Control(ch)
  }

  predicate ValidCountry(country: string) {
    |country| == 2 && 'A' <= country[0] <= 'Z' && 'A' <= country[1] <= 'Z'
  }

  predicate ValidSecret(s: Secret) {
    s.provider == PROVIDER && ValidName(s.name) && 1 <= s.generation <= MAX_GENERATION &&
    s.endpoint == ENDPOINT && s.protocol == PROTOCOL && s.host == HOST && ValidPort(s.port) &&
    ValidText(s.username, 512) && ValidText(s.password, 1024) &&
    (forall c | c in s.countries :: ValidCountry(c)) && 60 <= s.ttl <= 86_400
  }

  // ---- sorted countries ----------------------------------------------------------

  /** Code point order, as `sorted` compares strings. */
  predicate Below(a: string, b: string) {
    b != "" && (a == "" || a[0] < b[0] || (a[0] == b[0] && Below(a[1..], b[1..])))
  }

  predicate Ascending(list: seq<string>) {
    forall i, j | 0 <= i < j < |list| :: Below(list[i], list[j])
  }

  lemma {:induction false} BelowIsTotal(a: string, b: string)
    ensures Below(a, b) || Below(b, a) || a == b
    ensures !(Below(a, b) && Below(b, a)) && !Below(a, a)
  {
    if a != "" {
      BelowIsTotal(a[1..], a[1..]);
    }
    if a != "" && b != "" {
      BelowIsTotal(a[1..], b[1..]);
      assert a == [a[0]] + a[1..] && b == [b[0]] + b[1..];
    }
  }

  lemma {:induction false} BelowIsTransitive(a: string, b: string, c: string)
    requires Below(a, b) && Below(b, c)
    ensures Below(a, c)
  {
    if a != "" && b[0] == c[0] && a[0] == b[0] {
      BelowIsTransitive(a[1..], b[1..], c[1..]);
    }
  }

  predicate IsLeast(m: string, s: set<string>) {
    m in s && forall x | x in s :: x == m || Below(m, x)
  }

  lemma {:induction false} LeastExists(s: set<string>) returns (m: string)
    requires s != {}
    ensures IsLeast(m, s)
  {
    var one :| one in s;
    var rest := s - {one};
    if rest == {} {
      assert s == {one};
      m := one;
    } else {
      var other := LeastExists(rest);
      BelowIsTotal(one, other);
      m := if Below(other, one) then other else one;
      forall x | x in s ensures x == m || Below(m, x) {
        if m == one && x != one && x != other {
          BelowIsTransitive(one, other, x);
        }
      }
    }
  }

  ghost function Least(s: set<string>): (m: string)
    requires s != {}
    ensures IsLeast(m, s)
  {
    assert exists m :: IsLeast(m, s) by {
      var m := LeastExists(s);
    }
    var m :| IsLeast(m, s);
    m
  }

  ghost function Sort(s: set<string>): (list: seq<string>)
    ensures Ascending(list) && |list| == |s| && forall x :: x in list <==> x in s
  {
    if s == {} then [] else [Least(s)] + Sort(s - {Least(s)})
  }

  function Elements(list: seq<string>): set<string> {
    set x | x in list
  }

  /** An ascending listing of a set is its sorting. */
  lemma {:induction false} SortIsUnique(list: seq<string>)
    requires Ascending(list)
    ensures Sort(Elements(list)) == list
  {
    var s := Elements(list);
    if list == [] {
      assert s == {};
    } else {
      assert list[0] in s;
      var m := Least(s);
      BelowIsTotal(m, list[0]);
      assert m == list[0];
      forall x ensures x in Elements(list[1..]) <==> x in s - {m} {
        BelowIsTotal(m, m);
        if x in s - {m} {
          var i :| 0 <= i < |list| && list[i] == x;
          assert list[1..][i - 1] == x;
        }
        if x in list[1..] {
          var i :| 0 <= i < |list[1..]| && list[1..][i] == x;
          assert list[i + 1] == x && Below(list[0], list[i + 1]);
        }
      }
      assert Elements(list[1..]) == s - {m};
      SortIsUnique(list[1..]);
    }
  }

  // ---- printing and strict parsing --------------------------------------------------

  function Texts(list: seq<string>): seq<Json> {
    seq(|list|, i requires 0 <= i < |list| => Str(list[i]))
  }

  function GatewayRecord(s: Secret): Json {
    Obj(map[EndpointId := Str(s.endpoint), Protocol := Str(s.protocol), Host := Str(s.host),
            Port := Int(s.port)])
  }

  function CredentialRecord(s: Secret): Json {
    Obj(map[Username := Str(s.username), Password := Str(s.password)])
  }

  function CapabilityRecord(list: seq<string>, ttl: int): Json {
    Obj(map[Countries := Arr(Texts(list)), StickySeconds := Int(ttl)])
  }

  function RecordWith(s: Secret, list: seq<string>): Json {
    Obj(map[Provider := Str(s.provider), LogicalName := Str(s.name), Generation := Int(s.generation),
            Gateway := GatewayRecord(s), Credentials := CredentialRecord(s),
            Capabilities := CapabilityRecord(list, s.ttl)])
  }

  /** The record of a profile, its countries sorted. */
  ghost function Record(s: Secret): Json {
    RecordWith(s, Sort(s.countries))
  }

  predicate Exactly(value: Json, names: set<Label>) {
    value.Obj? && value.fields.Keys == names
  }

  function ReadGateway(value: Json): Option<int> {
    if !Exactly(value, {EndpointId, Protocol, Host, Port}) then None
    else
      var f := value.fields;
      if f[EndpointId] == Str(ENDPOINT) && f[Protocol] == Str(PROTOCOL) && f[Host] == Str(HOST) &&
         f[Port].Int? && ValidPort(f[Port].n)
      then Some(f[Port].n) else None
  }

  function ReadCredentials(value: Json): Option<(string, string)> {
    if !Exactly(value, {Username, Password}) then None
    else
      var f := value.fields;
      if f[Username].Str? && ValidText(f[Username].s, 512) && f[Password].Str? && ValidText(f[Password].s, 1024)
      then Some((f[Username].s, f[Password].s)) else None
  }

  function Strings(items: seq<Json>): seq<string> {
    seq(|items|, i requires 0 <= i < |items| => if items[i].Str? then items[i].s else "")
  }

  predicate ValidCountries(items: seq<Json>) {
    (forall i | 0 <= i < |items| :: items[i].Str? && ValidCountry(items[i].s)) &&
    forall i, j | 0 <= i < j < |items| :: items[i] != items[j]
  }

  function ReadCapabilities(value: Json): Option<(seq<string>, int)> {
    if !Exactly(value, {Countries, StickySeconds}) then None
    else
      var f := value.fields;
      var ttl := f[StickySeconds];
      if f[Countries].Arr? && ValidCountries(f[Countries].items) && ttl.Int? && 60 <= ttl.n <= 86_400
      then Some((Strings(f[Countries].items), ttl.n)) else None
  }

  predicate Identified(key: string, value: Json) {
    Exactly(value, {Provider, LogicalName, Generation, Gateway, Credentials, Capabilities}) &&
    value.fields[Provider] == Str(PROVIDER) && value.fields[LogicalName].Str? &&
    ValidName(value.fields[LogicalName].s) &&
    key == KeyText(ProfileKey(PROVIDER, value.fields[LogicalName].s)) &&
    value.fields[Generation].Int? && 1 <= value.fields[Generation].n <= MAX_GENERATION
  }

  /** One entry of the file, or nothing if any rule refuses it. The countries
      are returned in the order they were listed. */
  function ReadListed(key: string, value: Json): Option<(Secret, seq<string>)> {
    if !Identified(key, value) then None
    else
      var f := value.fields;
      var port := ReadGateway(f[Gateway]);
      var credentials := ReadCredentials(f[Credentials]);
      var capabilities := ReadCapabilities(f[Capabilities]);
      if port.None? || credentials.None? || capabilities.None? then None
      else
        var list := capabilities.value.0;
        Some((Secret(PROVIDER, f[LogicalName].s, f[Generation].n, ENDPOINT, PROTOCOL, HOST, port.value,
                     credentials.value.0, credentials.value.1, Elements(list), capabilities.value.1),
              list))
  }

  function ReadProfile(key: string, value: Json): Option<Secret> {
    var read := ReadListed(key, value);
    if read.None? then None else Some(read.value.0)
  }

  // ---- the two directions of one record ------------------------------------------------

  lemma AscendingIsDistinct(list: seq<string>)
    requires Ascending(list)
    ensures forall i, j | 0 <= i < j < |list| :: list[i] != list[j]
  {
    forall i, j | 0 <= i < j < |list| ensures list[i] != list[j] {
      BelowIsTotal(list[i], list[j]);
    }
  }

  lemma GatewayRoundTrip(s: Secret)
    ensures ReadGateway(GatewayRecord(s)) ==
            if s.endpoint == ENDPOINT && s.protocol == PROTOCOL && s.host == HOST && ValidPort(s.port)
            then Some(s.port) else None
  {
    assert GatewayRecord(s).fields.Keys == {EndpointId, Protocol, Host, Port};
  }

  lemma CredentialRoundTrip(s: Secret)
    ensures ReadCredentials(CredentialRecord(s)) ==
            if ValidText(s.username, 512) && ValidText(s.password, 1024) then Some((s.username, s.password)) else None
  {
    assert CredentialRecord(s).fields.Keys == {Username, Password};
  }

  lemma CapabilityRoundTrip(list: seq<string>, ttl: int)
    requires forall i, j | 0 <= i < j < |list| :: list[i] != list[j]
    ensures ReadCapabilities(CapabilityRecord(list, ttl)) ==
            if (forall c | c in list :: ValidCountry(c)) && 60 <= ttl <= 86_400 then Some((list, ttl)) else None
  {
    assert CapabilityRecord(list, ttl).fields.Keys == {Countries, StickySeconds};
    assert Strings(Texts(list)) == list;
    if ValidCountries(Texts(list)) {
      forall c | c in list ensures ValidCountry(c) {
        var i :| 0 <= i < |list| && list[i] == c;
        assert Texts(list)[i] == Str(c);
      }
    }
  }

  lemma IdentityRoundTrip(s: Secret, list: seq<string>)
    ensures Identified(KeyText(KeyOf(s)), RecordWith(s, list)) <==>
            s.provider == PROVIDER && ValidName(s.name) && 1 <= s.generation <= MAX_GENERATION
  {
    assert RecordWith(s, list).fields.Keys ==
           {Provider, LogicalName, Generation, Gateway, Credentials, Capabilities};
  }

  /** A record parses back exactly when it is valid, and then to itself. */
  lemma RecordFields(s: Secret, list: seq<string>)
    ensures var f := RecordWith(s, list).fields;
            f[Gateway] == GatewayRecord(s) && f[Credentials] == CredentialRecord(s) &&
            f[Capabilities] == CapabilityRecord(list, s.ttl) && f[LogicalName] == Str(s.name) &&
            f[Generation] == Int(s.generation) && f[Provider] == Str(s.provider)
    ensures RecordWith(s, list).fields.Keys == {Provider, LogicalName, Generation, Gateway, Credentials, Capabilities}
  {
  }

  lemma ListedRoundTrip(s: Secret, list: seq<string>)
    requires forall i, j | 0 <= i < j < |list| :: list[i] != list[j]
    requires Elements(list) == s.countries
    ensures ReadListed(KeyText(KeyOf(s)), RecordWith(s, list)) == if ValidSecret(s) then Some((s, list)) else None
  {
    RecordFields(s, list);
    IdentityRoundTrip(s, list);
    GatewayRoundTrip(s);
    CredentialRoundTrip(s);
    CapabilityRoundTrip(list, s.ttl);
    assert forall c :: c in list <==> c in s.countries;
  }

  lemma RecordRoundTrip(s: Secret)
    ensures ReadListed(KeyText(KeyOf(s)), Record(s)) ==
            if ValidSecret(s) then Some((s, Sort(s.countries))) else None
  {
    AscendingIsDistinct(Sort(s.countries));
    assert Elements(Sort(s.countries)) == s.countries;
    ListedRoundTrip(s, Sort(s.countries));
  }

  // ---- from a file and back -------------------------------------------------------------

  lemma GatewayIsExact(value: Json, s: Secret)
    requires ReadGateway(value) == Some(s.port) && s.endpoint == ENDPOINT && s.protocol == PROTOCOL && s.host == HOST
    ensures GatewayRecord(s) == value
  {
    assert GatewayRecord(s).fields.Keys == value.fields.Keys;
  }

  lemma CredentialsAreExact(value: Json, s: Secret)
    requires ReadCredentials(value) == Some((s.username, s.password))
    ensures CredentialRecord(s) == value
  {
    assert CredentialRecord(s).fields.Keys == value.fields.Keys;
  }

  lemma CapabilitiesAreExact(value: Json, list: seq<string>, ttl: int)
    requires ReadCapabilities(value) == Some((list, ttl))
    ensures CapabilityRecord(list, ttl) == value
    ensures (forall c | c in list :: ValidCountry(c)) && forall i, j | 0 <= i < j < |list| :: list[i] != list[j]
  {
    var items := value.fields[Countries].items;
    assert forall i | 0 <= i < |items| :: items[i] == Str(list[i]);
    assert Texts(list) == items;
    assert CapabilityRecord(list, ttl).fields.Keys == value.fields.Keys;
  }

  /** Whatever parses is valid, was filed under its own key, and is its record
      but for the order of the countries. */
  lemma ParsedIsRecord(key: string, value: Json)
    requires ReadListed(key, value).Some?
    ensures var (s, list) := ReadListed(key, value).value;
            ValidSecret(s) && key == KeyText(KeyOf(s)) && value == RecordWith(s, list) && s.countries == Elements(list)
  {
    var (s, list) := ReadListed(key, value).value;
    GatewayIsExact(value.fields[Gateway], s);
    CredentialsAreExact(value.fields[Credentials], s);
    CapabilitiesAreExact(value.fields[Capabilities], list, s.ttl);
    assert RecordWith(s, list).fields.Keys == value.fields.Keys;
  }

  /** Rewriting a parsed entry reproduces it exactly when its countries were
      listed in order. */
  lemma ReprintIsExactIff(key: string, value: Json)
    requires ReadListed(key, value).Some?
    ensures var (s, list) := ReadListed(key, value).value;
            Record(s) == value <==> Ascending(list)
  {
    var (s, list) := ReadListed(key, value).value;
    ParsedIsRecord(key, value);
    if Ascending(list) {
      SortIsUnique(list);
    }
    if Record(s) == value {
      SameCountries(s, Sort(s.countries), list);
    }
  }

  lemma SameCountries(s: Secret, a: seq<string>, b: seq<string>)
    requires RecordWith(s, a) == RecordWith(s, b)
    ensures a == b
  {
    assert CapabilityRecord(a, s.ttl) == RecordWith(s, a).fields[Capabilities];
    assert CapabilityRecord(b, s.ttl) == RecordWith(s, b).fields[Capabilities];
    assert Arr(Texts(a)) == CapabilityRecord(a, s.ttl).fields[Countries];
    assert Arr(Texts(b)) == CapabilityRecord(b, s.ttl).fields[Countries];
    assert |a| == |Texts(a)| && |b| == |Texts(b)|;
    forall i | 0 <= i < |a| ensures a[i] == b[i] {
      assert Texts(a)[i] == Str(a[i]) && Texts(b)[i] == Str(b[i]);
    }
  }

  // ---- the whole file -----------------------------------------------------------------------

  type ProfileMap = map<ProfileKey, Secret>

  predicate ValidProfiles(p: ProfileMap) {
    |p| <= MAX_PROFILES && forall k | k in p :: KeyOf(p[k]) == k && ValidSecret(p[k])
  }

  ghost function Print(p: ProfileMap): Json {
    Obj(map[SchemaVersion := Int(SCHEMA_VERSION), Profiles := Table(EntriesOf(p))])
  }

  function Parse(value: Json): Option<ProfileMap> {
    if !Exactly(value, {SchemaVersion, Profiles}) || value.fields[SchemaVersion] != Int(SCHEMA_VERSION) ||
       !value.fields[Profiles].Table?
    then None
    else
      var entries := value.fields[Profiles].entries;
      if |entries| > MAX_PROFILES || !KeyedFile.Readable(entries, ReadProfile) then None
      else Some(KeyedFile.Loaded(entries, KeyText, ReadProfile, KeyOf))
  }

  /** Keys are injective on what the file can hold. */
  lemma KeyTextIsInjective(a: ProfileKey, b: ProfileKey)
    requires a.provider == b.provider && KeyText(a) == KeyText(b)
    ensures a == b
  {
    assert a.name == KeyText(a)[|a.provider| + 1..] && b.name == KeyText(b)[|b.provider| + 1..];
  }

  lemma ValidKeys(p: ProfileMap)
    requires ValidProfiles(p)
    ensures KeyedFile.Injective(p.Keys, KeyText) && forall k | k in p :: k.provider == PROVIDER
  {
    forall a, b | a in p.Keys && b in p.Keys && KeyText(a) == KeyText(b) ensures a == b {
      assert KeyOf(p[a]) == a && KeyOf(p[b]) == b;
      KeyTextIsInjective(a, b);
    }
  }

  lemma ProfileRoundTrip(s: Secret)
    requires ValidSecret(s)
    ensures ReadProfile(KeyText(KeyOf(s)), Record(s)) == Some(s)
  {
    RecordRoundTrip(s);
  }

  lemma ValidProfileKey(p: ProfileMap, k: ProfileKey)
    requires ValidProfiles(p) && k in p
    ensures KeyOf(p[k]) == k && ReadProfile(KeyText(k), Record(p[k])) == Some(p[k])
  {
    ProfileRoundTrip(p[k]);
  }

  ghost function EntriesOf(p: ProfileMap): map<string, Json> {
    KeyedFile.Entries(p, KeyText, Record)
  }

  lemma ProfilesLoadBack(p: ProfileMap)
    requires ValidProfiles(p)
    ensures |EntriesOf(p)| == |p| && KeyedFile.Readable(EntriesOf(p), ReadProfile)
    ensures KeyedFile.Loaded(EntriesOf(p), KeyText, ReadProfile, KeyOf) == p
  {
    ValidKeys(p);
    forall k | k in p ensures KeyOf(p[k]) == k && ReadProfile(KeyText(k), Record(p[k])) == Some(p[k]) {
      ValidProfileKey(p, k);
    }
    KeyedFile.EntriesLoadBack(p, KeyText, Record, ReadProfile, KeyOf);
  }

  lemma ParseOf(entries: map<string, Json>, p: ProfileMap)
    requires |entries| <= MAX_PROFILES && KeyedFile.Readable(entries, ReadProfile)
    requires KeyedFile.Loaded(entries, KeyText, ReadProfile, KeyOf) == p
    ensures Parse(Obj(map[SchemaVersion := Int(SCHEMA_VERSION), Profiles := Table(entries)])) == Some(p)
  {
    assert map[SchemaVersion := Int(SCHEMA_VERSION), Profiles := Table(entries)].Keys == {SchemaVersion, Profiles};
  }

  /** Every valid set of profiles survives printing and strict parsing. */
  lemma FileRoundTrip(p: ProfileMap)
    requires ValidProfiles(p)
    ensures Parse(Print(p)) == Some(p)
  {
    ProfilesLoadBack(p);
    ParseOf(EntriesOf(p), p);
  }

  lemma ParsedProfile(key: string, value: Json)
    requires ReadProfile(key, value).Some?
    ensures ValidSecret(ReadProfile(key, value).value) && KeyText(KeyOf(ReadProfile(key, value).value)) == key
  {
    ParsedIsRecord(key, value);
  }

  /** Whatever parses is a valid set of profiles; no two entries can name one
      profile. */
  lemma ParsedIsValid(value: Json)
    requires Parse(value).Some?
    ensures ValidProfiles(Parse(value).value) && |Parse(value).value| == |value.fields[Profiles].entries|
  {
    var entries := value.fields[Profiles].entries;
    forall name | name in entries
      ensures ValidSecret(ReadProfile(name, entries[name]).value)
      ensures KeyText(KeyOf(ReadProfile(name, entries[name]).value)) == name
    {
      ParsedProfile(name, entries[name]);
    }
    KeyedFile.LoadedIsKeyed(entries, KeyText, ReadProfile, KeyOf);
  }
}
