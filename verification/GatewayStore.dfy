/** The compare-and-swap store over the gateway secret file. */
module GatewayStore {
  import opened Tables
  import opened SecretFile
  import opened GatewayRecords
  import KeyedFile

  datatype Denial =
    | InvalidRecord
    | InvalidExpected
    | InvalidIdentity
    | Unreadable
    | CreateConflict
    | UpdateConflict
    | RemoveConflict
    | TooManyProfiles
    | TooLarge

  predicate ValidExpected(expected: int) {
    1 <= expected <= MAX_GENERATION
  }

  function InstallDenial(p: ProfileMap, s: Secret, expected: Option<int>, fits: bool): Option<Denial> {
    var current := if KeyOf(s) in p then Some(p[KeyOf(s)].generation) else None;
    if expected.None? && (current.Some? || s.generation != 1) then Some(CreateConflict)
    else if expected.Some? && (current != expected || expected.value == MAX_GENERATION || s.generation != expected.value + 1)
    then Some(UpdateConflict)
    else if current.None? && |p| >= MAX_PROFILES then Some(TooManyProfiles)
    else if !fits then Some(TooLarge)
    else None
  }

  /** Installing and removing on the profiles that the file holds. */
  function InstallMap(p: ProfileMap, s: Secret, expected: Option<int>, fits: bool): (ProfileMap, Result<int, Denial>) {
    if !ValidSecret(s) then (p, Err(InvalidRecord))
    else if expected.Some? && !ValidExpected(expected.value) then (p, Err(InvalidExpected))
    else
      var denial := InstallDenial(p, s, expected, fits);
      if denial.Some? then (p, Err(denial.value)) else (p[KeyOf(s) := s], Ok(s.generation))
  }

  function RemoveMap(p: ProfileMap, k: ProfileKey, expected: int, fits: bool): (ProfileMap, Result<(), Denial>) {
    if !ValidExpected(expected) then (p, Err(InvalidExpected))
    else if k.provider != PROVIDER || !ValidName(k.name) then (p, Err(InvalidIdentity))
    else if k !in p || p[k].generation != expected then (p, Err(RemoveConflict))
    else if !fits then (p, Err(TooLarge))
    else (p - {k}, Ok(()))
  }

  /** `file` is absent until the first replacement; `fits` says whether the
      printed file stays within the size limit. */
  function Current(file: Option<Json>): Option<ProfileMap> {
    if file.None? then Some(map[]) else Parse(file.value)
  }

  ghost function Installed(file: Option<Json>, s: Secret, expected: Option<int>, fits: bool)
    : (Option<Json>, Result<int, Denial>)
  {
    if !ValidSecret(s) then (file, Err(InvalidRecord))
    else if expected.Some? && !ValidExpected(expected.value) then (file, Err(InvalidExpected))
    else if Current(file).None? then (file, Err(Unreadable))
    else
      var (next, answer) := InstallMap(Current(file).value, s, expected, fits);
      if answer.Ok? then (Some(Print(next)), answer) else (file, answer)
  }

  ghost function Removed(file: Option<Json>, k: ProfileKey, expected: int, fits: bool): (Option<Json>, Result<(), Denial>) {
    if !ValidExpected(expected) then (file, Err(InvalidExpected))
    else if k.provider != PROVIDER || !ValidName(k.name) then (file, Err(InvalidIdentity))
    else if Current(file).None? then (file, Err(Unreadable))
    else
      var (next, answer) := RemoveMap(Current(file).value, k, expected, fits);
      if answer.Ok? then (Some(Print(next)), answer) else (file, answer)
  }

  // ---- when a swap is admitted -----------------------------------------------------

  /** A record is installed exactly when it is valid, the name is at the expected
      generation and the record at the next one, and neither limit is passed; then
      it takes the name's place, and otherwise nothing changes. */
  lemma InstalledIff(p: ProfileMap, s: Secret, expected: Option<int>, fits: bool)
    ensures var (next, answer) := InstallMap(p, s, expected, fits);
            var k := ProfileKey("webshare", s.name);
            (answer.Ok? <==>
               ValidSecret(s) && fits && (k in p || |p| < 256) &&
               match expected
               case None => k !in p && s.generation == 1
               case Some(e) => k in p && p[k].generation == e && 1 <= e < 2_147_483_647 && s.generation == e + 1) &&
            next == if answer.Ok? then p[k := s] else p
  {
  }

  /** A name is removed exactly when it is at the expected generation. */
  lemma RemovedIff(p: ProfileMap, k: ProfileKey, expected: int, fits: bool)
    ensures var (next, answer) := RemoveMap(p, k, expected, fits);
            (answer.Ok? <==>
               1 <= expected <= 2_147_483_647 && k.provider == "webshare" && ValidName(k.name) && fits &&
               k in p && p[k].generation == expected) &&
            (forall other :: other in next <==> other in p && !(answer.Ok? && other == k)) &&
            forall other | other in next :: next[other] == p[other]
  {
  }

  // ---- the file as a versioned map -------------------------------------------------

  predicate Sound(file: Option<Json>) {
    file.None? || Parse(file.value).Some?
  }

  ghost function Contents(file: Option<Json>): ProfileMap
    requires Sound(file)
  {
    Current(file).value
  }

  lemma ContentsAreValid(file: Option<Json>)
    requires Sound(file)
    ensures ValidProfiles(Contents(file))
  {
    if file.Some? {
      ParsedIsValid(file.value);
    }
  }

  function NamesOf(p: ProfileMap): set<string> {
    set k | k in p :: k.name
  }

  /** Names to generations: all that the import protocol knows of the file. */
  function Generations(p: ProfileMap): map<string, nat>
    requires ValidProfiles(p)
  {
    map name | name in NamesOf(p) && ProfileKey(PROVIDER, name) in p :: p[ProfileKey(PROVIDER, name)].generation
  }

  lemma {:induction false} NamesCount(keys: set<ProfileKey>, names: set<string>)
    requires (forall k | k in keys :: k.provider == PROVIDER) && names == set k | k in keys :: k.name
    ensures |names| == |keys|
  {
    if keys == {} {
      assert names == {};
    } else {
      var k :| k in keys;
      assert forall other | other in keys && other.name == k.name :: other == k;
      assert names - {k.name} == set other | other in keys - {k} :: other.name;
      NamesCount(keys - {k}, names - {k.name});
    }
  }

  lemma GenerationsOf(p: ProfileMap)
    requires ValidProfiles(p)
    ensures |Generations(p)| == |p|
    ensures forall name :: name in Generations(p) <==> ProfileKey(PROVIDER, name) in p
  {
    assert forall k | k in p :: KeyOf(p[k]) == k && k == ProfileKey(PROVIDER, k.name);
    NamesCount(p.Keys, NamesOf(p));
    assert Generations(p).Keys == NamesOf(p);
  }

  function Expected(expected: Option<int>): Option<nat> {
    if expected.Some? && expected.value >= 0 then Some(expected.value) else None
  }

  /** What `Generations` says of the profiles, without their records. */
  ghost predicate Versions(p: ProfileMap, g: map<string, nat>) {
    |g| == |p| && (forall name :: name in g <==> ProfileKey(PROVIDER, name) in p) &&
    forall name | name in g :: g[name] == p[ProfileKey(PROVIDER, name)].generation
  }

  lemma GenerationsAreVersions(p: ProfileMap)
    requires ValidProfiles(p)
    ensures Versions(p, Generations(p))
  {
    GenerationsOf(p);
  }

  lemma AdmitsByVersions(p: ProfileMap, g: map<string, nat>, s: Secret, expected: Option<int>, fits: bool)
    requires Versions(p, g) && KeyOf(s) == ProfileKey(PROVIDER, s.name) && s.generation >= 1
    requires expected.Some? ==> expected.value >= 1
    ensures InstallDenial(p, s, expected, fits).None? <==>
            fits && MayInstall(g, s.name, s.generation, Expected(expected))
  {
    assert s.name in g <==> KeyOf(s) in p;
  }

  lemma InstallAdmits(p: ProfileMap, s: Secret, expected: Option<int>, fits: bool)
    requires ValidProfiles(p) && ValidSecret(s) && (expected.Some? ==> ValidExpected(expected.value))
    ensures InstallDenial(p, s, expected, fits).None? <==>
            fits && MayInstall(Generations(p), s.name, s.generation, Expected(expected))
  {
    GenerationsAreVersions(p);
    SecretKey(s);
    AdmitsByVersions(p, Generations(p), s, expected, fits);
  }

  lemma SecretKey(s: Secret)
    requires ValidSecret(s)
    ensures KeyOf(s) == ProfileKey(PROVIDER, s.name) && s.generation >= 1
  {
  }

  lemma GrownIsValid(p: ProfileMap, s: Secret)
    requires ValidProfiles(p) && ValidSecret(s) && (KeyOf(s) in p || |p| < MAX_PROFILES)
    ensures ValidProfiles(p[KeyOf(s) := s])
  {
    var q := p[KeyOf(s) := s];
    assert q.Keys == p.Keys + {KeyOf(s)};
  }

  lemma ShrunkIsValid(p: ProfileMap, k: ProfileKey)
    requires ValidProfiles(p) && k in p
    ensures ValidProfiles(p - {k})
  {
    assert (p - {k}).Keys == p.Keys - {k};
  }

  lemma VersionsGrow(p: ProfileMap, g: map<string, nat>, q: ProfileMap, h: map<string, nat>, s: Secret)
    requires Versions(p, g) && Versions(q, h) && q == p[KeyOf(s) := s]
    requires KeyOf(s) == ProfileKey(PROVIDER, s.name) && s.generation >= 0
    ensures h == g[s.name := s.generation]
  {
    forall name ensures name in h <==> name in g[s.name := s.generation] {
      assert name in g <==> ProfileKey(PROVIDER, name) in p;
    }
    forall name | name in h ensures h[name] == g[s.name := s.generation][name] {
      assert name in g <==> ProfileKey(PROVIDER, name) in p;
    }
  }

  lemma GenerationsGrow(p: ProfileMap, s: Secret)
    requires ValidProfiles(p) && ValidSecret(s) && ValidProfiles(p[KeyOf(s) := s])
    ensures Generations(p[KeyOf(s) := s]) == Generations(p)[s.name := s.generation]
  {
    GenerationsAreVersions(p);
    GenerationsAreVersions(p[KeyOf(s) := s]);
    SecretKey(s);
    VersionsGrow(p, Generations(p), p[KeyOf(s) := s], Generations(p[KeyOf(s) := s]), s);
  }

  lemma InstallKeepsValid(p: ProfileMap, s: Secret, expected: Option<int>, fits: bool)
    requires ValidProfiles(p)
    ensures ValidProfiles(InstallMap(p, s, expected, fits).0)
  {
    if InstallMap(p, s, expected, fits).1.Ok? {
      GrownIsValid(p, s);
    }
  }

  lemma ReadsBack(value: Json, p: ProfileMap)
    requires Parse(value) == Some(p)
    ensures Sound(Some(value)) && Contents(Some(value)) == p
  {
  }

  lemma WrittenReadsBack(p: ProfileMap)
    requires ValidProfiles(p)
    ensures Sound(Some(Print(p))) && Contents(Some(Print(p))) == p
  {
    FileRoundTrip(p);
    ReadsBack(Print(p), p);
  }

  lemma InstallWrites(file: Option<Json>, s: Secret, expected: Option<int>, fits: bool)
    requires Current(file).Some?
    ensures var (p, answer) := InstallMap(Current(file).value, s, expected, fits);
            Installed(file, s, expected, fits) == (if answer.Ok? then Some(Print(p)) else file, answer)
  {
  }

  /** Reading the file back after an installation or a removal shows exactly what
      it did to the profiles; a refusal leaves the file as it was. */
  lemma InstallReadsBack(file: Option<Json>, s: Secret, expected: Option<int>, fits: bool)
    requires Sound(file)
    ensures var (next, answer) := Installed(file, s, expected, fits);
            Sound(next) && (Contents(next), answer) == InstallMap(Contents(file), s, expected, fits) &&
            (answer.Err? ==> next == file)
  {
    ContentsAreValid(file);
    InstallWrites(file, s, expected, fits);
    var (p, answer) := InstallMap(Contents(file), s, expected, fits);
    if answer.Ok? {
      InstallKeepsValid(Contents(file), s, expected, fits);
      WrittenReadsBack(p);
    } else {
      RefusedMapStays(Contents(file), s, expected, fits);
    }
  }

  lemma RefusedMapStays(p: ProfileMap, s: Secret, expected: Option<int>, fits: bool)
    requires InstallMap(p, s, expected, fits).1.Err?
    ensures InstallMap(p, s, expected, fits).0 == p
  {
  }

  lemma RemoveWrites(file: Option<Json>, k: ProfileKey, expected: int, fits: bool)
    requires Current(file).Some?
    ensures var (p, answer) := RemoveMap(Current(file).value, k, expected, fits);
            Removed(file, k, expected, fits) == (if answer.Ok? then Some(Print(p)) else file, answer)
  {
  }

  ghost predicate RemovalReadsBack(file: Option<Json>, k: ProfileKey, expected: int, fits: bool)
    requires Sound(file)
  {
    var (next, answer) := Removed(file, k, expected, fits);
    Sound(next) && (Contents(next), answer) == RemoveMap(Contents(file), k, expected, fits) &&
    (answer.Err? ==> next == file)
  }

  lemma RefusedRemovalStays(file: Option<Json>, k: ProfileKey, expected: int, fits: bool)
    requires Sound(file) && RemoveMap(Contents(file), k, expected, fits).1.Err?
    ensures RemovalReadsBack(file, k, expected, fits)
  {
    RemoveWrites(file, k, expected, fits);
    RefusedMapKept(Contents(file), k, expected, fits);
  }

  lemma RefusedMapKept(p: ProfileMap, k: ProfileKey, expected: int, fits: bool)
    requires RemoveMap(p, k, expected, fits).1.Err?
    ensures RemoveMap(p, k, expected, fits).0 == p
  {
  }

  lemma DoneRemovalReadsBack(file: Option<Json>, k: ProfileKey, expected: int, fits: bool)
    requires Sound(file) && RemoveMap(Contents(file), k, expected, fits).1.Ok?
    ensures RemovalReadsBack(file, k, expected, fits)
  {
    ContentsAreValid(file);
    RemoveWrites(file, k, expected, fits);
    ShrunkIsValid(Contents(file), k);
    WrittenReadsBack(Contents(file) - {k});
  }

  lemma RemoveReadsBack(file: Option<Json>, k: ProfileKey, expected: int, fits: bool)
    requires Sound(file)
    ensures RemovalReadsBack(file, k, expected, fits)
  {
    if RemoveMap(Contents(file), k, expected, fits).1.Ok? {
      DoneRemovalReadsBack(file, k, expected, fits);
    } else {
      RefusedRemovalStays(file, k, expected, fits);
    }
  }

  /** The file refines a versioned map: an installation succeeds exactly when the
      map admits the swap, and then swaps exactly that. */
  lemma InstallRefines(file: Option<Json>, s: Secret, expected: Option<int>, fits: bool)
    requires Sound(file) && ValidSecret(s) && (expected.Some? ==> ValidExpected(expected.value))
    ensures ValidProfiles(Contents(file)) && Sound(Installed(file, s, expected, fits).0)
    ensures ValidProfiles(Contents(Installed(file, s, expected, fits).0))
    ensures var (next, answer) := Installed(file, s, expected, fits);
            var before := Generations(Contents(file));
            (answer.Ok? <==> fits && MayInstall(before, s.name, s.generation, Expected(expected))) &&
            (answer.Ok? ==>
               Some(Generations(Contents(next))) == InstallGeneration(before, s.name, s.generation, Expected(expected)))
  {
    ContentsAreValid(file);
    InstallReadsBack(file, s, expected, fits);
    ContentsAreValid(Installed(file, s, expected, fits).0);
    InstallAdmits(Contents(file), s, expected, fits);
    if InstallDenial(Contents(file), s, expected, fits).None? {
      GenerationsGrow(Contents(file), s);
    }
  }

  // ---- runs of installations ------------------------------------------------------------

  datatype Attempt = Attempt(secret: Secret, expected: Option<int>, fits: bool)

  function Try(p: ProfileMap, a: Attempt): (ProfileMap, Result<int, Denial>) {
    InstallMap(p, a.secret, a.expected, a.fits)
  }

  function RunMap(p: ProfileMap, attempts: seq<Attempt>): ProfileMap {
    if attempts == [] then p else Try(RunMap(p, attempts[..|attempts| - 1]), attempts[|attempts| - 1]).0
  }

  ghost function Run(file: Option<Json>, attempts: seq<Attempt>): Option<Json> {
    if attempts == [] then file
    else
      var a := attempts[|attempts| - 1];
      Installed(Run(file, attempts[..|attempts| - 1]), a.secret, a.expected, a.fits).0
  }

  /** Runs on the file are runs on the profiles it holds. */
  lemma {:induction false} RunReadsBack(file: Option<Json>, attempts: seq<Attempt>)
    requires Sound(file)
    ensures Sound(Run(file, attempts)) && Contents(Run(file, attempts)) == RunMap(Contents(file), attempts)
  {
    if attempts != [] {
      var before := attempts[..|attempts| - 1];
      RunReadsBack(file, before);
      TryReadsBack(Run(file, before), RunMap(Contents(file), before), attempts[|attempts| - 1]);
    }
  }

  lemma TryReadsBack(file: Option<Json>, p: ProfileMap, a: Attempt)
    requires Sound(file) && Contents(file) == p
    ensures var next := Installed(file, a.secret, a.expected, a.fits).0;
            Sound(next) && Contents(next) == Try(p, a).0
  {
    InstallReadsBack(file, a.secret, a.expected, a.fits);
  }

  /** The generations that a run installed under one name, in order. */
  function History(p: ProfileMap, attempts: seq<Attempt>, name: string): seq<int> {
    if attempts == [] then []
    else
      var before := attempts[..|attempts| - 1];
      var last := attempts[|attempts| - 1];
      History(p, before, name) +
      if last.secret.name == name && Try(RunMap(p, before), last).1.Ok? then [last.secret.generation] else []
  }

  function Held(p: ProfileMap, name: string): int {
    if ProfileKey(PROVIDER, name) in p then p[ProfileKey(PROVIDER, name)].generation else 0
  }

  lemma HeldIsValid(p: ProfileMap, name: string)
    requires ValidProfiles(p)
    ensures Held(p, name) >= 0 && (Held(p, name) == 0 <==> ProfileKey(PROVIDER, name) !in p)
  {
    if ProfileKey(PROVIDER, name) in p {
      SecretKey(p[ProfileKey(PROVIDER, name)]);
    }
  }

  /** One attempt moves one name's generation up by one, or nothing at all. */
  lemma AttemptMoves(p: ProfileMap, a: Attempt, name: string)
    requires ValidProfiles(p)
    ensures var (next, answer) := Try(p, a);
            ValidProfiles(next) &&
            Held(next, name) == Held(p, name) + (if answer.Ok? && a.secret.name == name then 1 else 0) &&
            (answer.Ok? && a.secret.name == name ==> a.secret.generation == Held(next, name)) &&
            (answer.Ok? ==> a.expected == if Held(p, a.secret.name) == 0 then None else Some(Held(p, a.secret.name)))
  {
    InstallKeepsValid(p, a.secret, a.expected, a.fits);
    HeldIsValid(p, a.secret.name);
    if ValidSecret(a.secret) {
      SecretKey(a.secret);
      HeldMoves(p, a, name);
    }
  }

  lemma HeldMoves(p: ProfileMap, a: Attempt, name: string)
    requires KeyOf(a.secret) == ProfileKey(PROVIDER, a.secret.name)
    requires Held(p, a.secret.name) == 0 <==> KeyOf(a.secret) !in p
    ensures var (next, answer) := Try(p, a);
            Held(next, name) == Held(p, name) + (if answer.Ok? && a.secret.name == name then 1 else 0) &&
            (answer.Ok? && a.secret.name == name ==> a.secret.generation == Held(next, name)) &&
            (answer.Ok? ==> a.expected == if Held(p, a.secret.name) == 0 then None else Some(Held(p, a.secret.name)))
  {
  }

  lemma {:induction false} RunKeepsValid(p: ProfileMap, attempts: seq<Attempt>)
    requires ValidProfiles(p)
    ensures ValidProfiles(RunMap(p, attempts)) && |RunMap(p, attempts)| <= MAX_PROFILES
  {
    if attempts != [] {
      var a := attempts[|attempts| - 1];
      RunKeepsValid(p, attempts[..|attempts| - 1]);
      InstallKeepsValid(RunMap(p, attempts[..|attempts| - 1]), a.secret, a.expected, a.fits);
    }
  }

  predicate CountedUp(start: int, history: seq<int>) {
    forall i | 0 <= i < |history| :: history[i] == start + 1 + i
  }

  lemma CountsOneMore(q: ProfileMap, a: Attempt, name: string, start: int, history: seq<int>)
    requires ValidProfiles(q) && Held(q, name) == start + |history| && CountedUp(start, history)
    ensures var (next, answer) := Try(q, a);
            var longer := history + if a.secret.name == name && answer.Ok? then [a.secret.generation] else [];
            Held(next, name) == start + |longer| && CountedUp(start, longer)
  {
    AttemptMoves(q, a, name);
  }

  /** Over any run of installations the generations of every name are counted up
      by one without gap or repetition, and no more than 256 profiles exist. */
  lemma {:induction false} GenerationsCountUp(p: ProfileMap, attempts: seq<Attempt>, name: string)
    requires ValidProfiles(p)
    ensures Held(RunMap(p, attempts), name) == Held(p, name) + |History(p, attempts, name)|
    ensures CountedUp(Held(p, name), History(p, attempts, name)) && |RunMap(p, attempts)| <= MAX_PROFILES
  {
    RunKeepsValid(p, attempts);
    if attempts != [] {
      var before := attempts[..|attempts| - 1];
      GenerationsCountUp(p, before, name);
      RunKeepsValid(p, before);
      CountsOneMore(RunMap(p, before), attempts[|attempts| - 1], name, Held(p, name), History(p, before, name));
    }
  }

  /** A generation that a name has left behind never removes it. */
  lemma OldRemovalFails(p: ProfileMap, attempts: seq<Attempt>, k: ProfileKey, expected: int, fits: bool)
    requires ValidProfiles(p) && k in p && expected < p[k].generation
    ensures RemoveMap(RunMap(p, attempts), k, expected, fits).1.Err?
  {
    SecretKey(p[k]);
    GenerationsCountUp(p, attempts, k.name);
  }

  /** Of the installations that expect one generation at most one succeeds. */
  lemma OneWinner(p: ProfileMap, first: Attempt, between: seq<Attempt>, second: Attempt)
    requires ValidProfiles(p) && first.secret.name == second.secret.name && first.expected == second.expected
    requires Try(p, first).1.Ok?
    ensures Try(RunMap(Try(p, first).0, between), second).1.Err?
  {
    var name := first.secret.name;
    AttemptMoves(p, first, name);
    GenerationsCountUp(Try(p, first).0, between, name);
    RunKeepsValid(Try(p, first).0, between);
    AttemptMoves(RunMap(Try(p, first).0, between), second, name);
    HeldIsValid(p, name);
  }

  // ---- the store ----------------------------------------------------------------------------

  /** The loop over the country array: each must be valid and new. */
  method ReadCountries(items: seq<Json>) returns (countries: Option<set<string>>)
    ensures countries == if ValidCountries(items) then Some(Elements(Strings(items))) else None
  {
    var seen: set<string> := {};
    for i := 0 to |items|
      invariant forall k | 0 <= k < i :: items[k].Str? && ValidCountry(items[k].s)
      invariant forall j, k | 0 <= j < k < i :: items[j] != items[k]
      invariant forall c :: c in seen <==> exists k :: 0 <= k < i && Strings(items)[k] == c
    {
      if !items[i].Str? || !ValidCountry(items[i].s) {
        return None;
      }
      if items[i].s in seen {
        ghost var k :| 0 <= k < i && Strings(items)[k] == items[i].s;
        assert items[k] == items[i];
        return None;
      }
      forall j | 0 <= j < i ensures items[j] != items[i] {
        assert Strings(items)[j] in seen;
      }
      assert Strings(items)[i] == items[i].s;
      seen := seen + {items[i].s};
    }
    assert seen == Elements(Strings(items));
    countries := Some(seen);
  }

  method Sorted(countries: set<string>) returns (list: seq<string>)
    ensures list == Sort(countries)
  {
    list := [];
    var rest := countries;
    while rest != {}
      invariant rest <= countries && Ascending(list)
      invariant Elements(list) == countries - rest
    {
      var x :| x in rest;
      assert x !in Elements(list);
      list := InsertInOrder(list, x);
      assert (countries - rest) + {x} == countries - (rest - {x});
      rest := rest - {x};
    }
    assert countries - rest == countries;
    SortIsUnique(list);
  }

  method InsertInOrder(list: seq<string>, x: string) returns (longer: seq<string>)
    requires Ascending(list) && x !in list
    ensures Ascending(longer) && Elements(longer) == Elements(list) + {x}
  {
    var i := 0;
    while i < |list| && Below(list[i], x)
      invariant i <= |list| && forall k | 0 <= k < i :: Below(list[k], x)
    {
      i := i + 1;
    }
    InsertKeepsOrder(list, i, x);
    longer := list[..i] + [x] + list[i..];
  }

  lemma InsertKeepsOrder(list: seq<string>, i: nat, x: string)
    requires Ascending(list) && x !in list && i <= |list|
    requires (forall k | 0 <= k < i :: Below(list[k], x)) && (i < |list| ==> !Below(list[i], x))
    ensures Ascending(list[..i] + [x] + list[i..]) && Elements(list[..i] + [x] + list[i..]) == Elements(list) + {x}
  {
    if i < |list| {
      BelowIsTotal(list[i], x);
      assert list[i] in list;
      forall k | i <= k < |list| ensures Below(x, list[k]) {
        if k > i {
          BelowIsTransitive(x, list[i], list[k]);
        }
      }
    }
    var longer := list[..i] + [x] + list[i..];
    assert forall k | i < k < |longer| :: longer[k] == list[k - 1];
    forall y ensures y in Elements(longer) <==> y in Elements(list) + {x} {
      assert list == list[..i] + list[i..];
    }
  }

  lemma AllEntries(p: ProfileMap, entries: map<string, Json>)
    requires forall text | text in entries :: text in EntriesOf(p) && entries[text] == EntriesOf(p)[text]
    requires forall k | k in p.Keys :: KeyText(k) in entries
    ensures entries == EntriesOf(p)
  {
    forall text | text in EntriesOf(p) ensures text in entries {
      var k :| k in p && KeyText(k) == text;
    }
  }

  class SecretStore {
    var file: Option<Json>

    constructor ()
      ensures file.None?
    {
      file := None;
    }

    method PrintRecord(s: Secret) returns (record: Json)
      ensures record == Record(s)
    {
      var list := Sorted(s.countries);
      record := RecordWith(s, list);
    }

    /** The dictionary of records that a replacement writes. */
    method PrintEntries(p: ProfileMap) returns (entries: map<string, Json>)
      requires KeyedFile.Injective(p.Keys, KeyText)
      ensures entries == EntriesOf(p)
    {
      entries := map[];
      var rest := p.Keys;
      while rest != {}
        invariant rest <= p.Keys
        invariant forall text | text in entries :: text in EntriesOf(p) && entries[text] == EntriesOf(p)[text]
        invariant forall k | k in p.Keys - rest :: KeyText(k) in entries
      {
        var k :| k in rest;
        var record := PrintRecord(p[k]);
        KeyedFile.EntryOf(p, KeyText, Record, k);
        entries := entries[KeyText(k) := record];
        rest := rest - {k};
      }
      AllEntries(p, entries);
    }

    method PrintFile(p: ProfileMap) returns (value: Json)
      requires ValidProfiles(p)
      ensures value == Print(p)
    {
      ValidKeys(p);
      var entries := PrintEntries(p);
      value := Obj(map[SchemaVersion := Int(SCHEMA_VERSION), Profiles := Table(entries)]);
    }

    method Install(s: Secret, expected: Option<int>, fits: bool) returns (answer: Result<int, Denial>)
      modifies this
      ensures (file, answer) == Installed(old(file), s, expected, fits)
    {
      if !ValidSecret(s) {
        return Err(InvalidRecord);
      }
      if expected.Some? && !ValidExpected(expected.value) {
        return Err(InvalidExpected);
      }
      var read := Current(file);
      if read.None? {
        return Err(Unreadable);
      }
      ContentsAreValid(file);
      var profiles := read.value;
      var denial := InstallDenial(profiles, s, expected, fits);
      if denial.Some? {
        return Err(denial.value);
      }
      GrownIsValid(profiles, s);
      var printed := PrintFile(profiles[KeyOf(s) := s]);
      file := Some(printed);
      answer := Ok(s.generation);
    }

    method Remove(k: ProfileKey, expected: int, fits: bool) returns (answer: Result<(), Denial>)
      modifies this
      ensures (file, answer) == Removed(old(file), k, expected, fits)
    {
      if !ValidExpected(expected) {
        return Err(InvalidExpected);
      }
      if k.provider != PROVIDER || !ValidName(k.name) {
        return Err(InvalidIdentity);
      }
      var read := Current(file);
      if read.None? {
        return Err(Unreadable);
      }
      ContentsAreValid(file);
      var profiles := read.value;
      if k !in profiles || profiles[k].generation != expected {
        return Err(RemoveConflict);
      }
      if !fits {
        return Err(TooLarge);
      }
      ShrunkIsValid(profiles, k);
      var printed := PrintFile(profiles - {k});
      file := Some(printed);
      answer := Ok(());
    }
  }
}
