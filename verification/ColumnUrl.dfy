/** The arrangement as the URL carries it: strict reading, and the picker's list. */
module ColumnUrl {
  import opened Tables
  import opened Columns

  function KeyName(key: Key): string {
    match key
    case Name => "name"
    case Code => "code"
    case Supplier => "supplier"
    case Country => "country"
    case Brand => "brand"
    case Family => "family"
    case Colour => "colour"
    case Surface => "surface"
    case Firing => "firing"
    case Application => "application"
    case Size => "size"
    case Form => "form"
    case Stock => "stock"
    case Price => "price"
    case UnitPrice => "unit_price"
  }

  function Named(keys: seq<Key>, part: string): Option<Key> {
    if keys == [] then None
    else if KeyName(keys[|keys| - 1]) == part then Some(keys[|keys| - 1])
    else Named(keys[..|keys| - 1], part)
  }

  function Keys(columns: seq<Column>): seq<Key> {
    seq(|columns|, i requires 0 <= i < |columns| => columns[i].key)
  }

  /** What `String.prototype.trim` removes. */
  predicate Space(ch: char) {
    '\t' <= ch <= '\r' || ch == ' ' || ch == '\U{00A0}' || ch == '\U{1680}' || '\U{2000}' <= ch <= '\U{200A}' ||
    ch == '\U{2028}' || ch == '\U{2029}' || ch == '\U{202F}' || ch == '\U{205F}' || ch == '\U{3000}' || ch == '\U{FEFF}'
  }

  function TrimLeft(s: string): string {
    if s != "" && Space(s[0]) then TrimLeft(s[1..]) else s
  }

  function TrimRight(s: string): string {
    if s != "" && Space(s[|s| - 1]) then TrimRight(s[..|s| - 1]) else s
  }

  function Trim(s: string): string {
    TrimRight(TrimLeft(s))
  }

  /** `raw.split(',')` */
  function Split(raw: string): seq<string> {
    if raw == "" then [""]
    else
      var rest := Split(raw[1..]);
      if raw[0] == ',' then [""] + rest
      else if rest == [] then [[raw[0]]]
      else [[raw[0]] + rest[0]] + rest[1..]
  }

  function KeyOf(part: string): Option<Key> {
    Named(Keys(COLUMNS), Trim(part))
  }

  /** `Set.add` on an insertion-ordered set. */
  function Add(chosen: seq<Key>, key: Option<Key>): seq<Key> {
    if key.None? || key.value in chosen then chosen else chosen + [key.value]
  }

  function ReadParts(chosen: seq<Key>, parts: seq<string>): seq<Key> {
    if parts == [] then chosen
    else Add(ReadParts(chosen, parts[..|parts| - 1]), KeyOf(parts[|parts| - 1]))
  }

  function ReadParams(params: seq<string>): seq<Key> {
    if params == [] then []
    else ReadParts(ReadParams(params[..|params| - 1]), Split(params[|params| - 1]))
  }

  function DefaultColumns(): seq<Key> {
    Keys(Filter(COLUMNS, (c: Column) => c.shown))
  }

  function ReadColumns(params: seq<string>): seq<Key> {
    var chosen := ReadParams(params);
    if chosen != [] then chosen else DefaultColumns()
  }

  method ReadColumnSet(params: seq<string>) returns (chosen: seq<Key>)
    ensures chosen == ReadColumns(params)
  {
    chosen := [];
    for i := 0 to |params|
      invariant chosen == ReadParams(params[..i])
    {
      var parts := Split(params[i]);
      ghost var before := chosen;
      for j := 0 to |parts|
        invariant chosen == ReadParts(before, parts[..j])
      {
        var key := KeyOf(parts[j]);
        assert parts[..j + 1][..j] == parts[..j];
        if key.Some? && key.value !in chosen {
          chosen := chosen + [key.value];
        }
      }
      assert parts[..|parts|] == parts;
      assert params[..i + 1][..i] == params[..i];
    }
    assert params[..|params|] == params;
    if chosen == [] {
      chosen := DefaultColumns();
    }
  }

  // ---- what a URL can ask for ------------------------------------------------------

  predicate Spells(raw: string, key: Key) {
    exists part | part in Split(raw) :: KeyOf(part) == Some(key)
  }

  predicate Mentions(params: seq<string>, key: Key) {
    exists i | 0 <= i < |params| :: Spells(params[i], key)
  }

  lemma {:induction false} PartsAreDistinct(chosen: seq<Key>, parts: seq<string>)
    requires Distinct(chosen)
    ensures Distinct(ReadParts(chosen, parts))
    ensures forall key :: key in ReadParts(chosen, parts) <==>
                          key in chosen || exists part | part in parts :: KeyOf(part) == Some(key)
  {
    if parts != [] {
      PartsAreDistinct(chosen, parts[..|parts| - 1]);
      LastSplit(parts);
    }
  }

  lemma MentionsMore(before: seq<string>, raw: string, key: Key)
    ensures Mentions(before + [raw], key) <==> Mentions(before, key) || Spells(raw, key)
  {
    var params := before + [raw];
    if Mentions(before, key) {
      var i :| 0 <= i < |before| && Spells(before[i], key);
      assert params[i] == before[i];
    }
    if Spells(raw, key) {
      assert params[|before|] == raw;
    }
    if Mentions(params, key) {
      var i :| 0 <= i < |params| && Spells(params[i], key);
      assert i < |before| ==> before[i] == params[i];
    }
  }

  lemma {:induction false} ParamsAreDistinct(params: seq<string>)
    ensures Distinct(ReadParams(params))
    ensures forall key :: key in ReadParams(params) <==> Mentions(params, key)
  {
    if params != [] {
      var before := params[..|params| - 1];
      var raw := params[|params| - 1];
      ParamsAreDistinct(before);
      PartsAreDistinct(ReadParams(before), Split(raw));
      forall key ensures Mentions(params, key) <==> Mentions(before, key) || Spells(raw, key) {
        MentionsMore(before, raw, key);
        LastSplit(params);
      }
    }
  }

  lemma DefaultIsDistinct()
    ensures Distinct(DefaultColumns()) && DefaultColumns() != []
    ensures DefaultColumns() == [Name, Code, Supplier, Colour, Size, Stock, Price, UnitPrice]
  {
    FilterByParts();
  }

  lemma FilterByParts()
    ensures Filter(COLUMNS, (c: Column) => c.shown) ==
            [Column(Name, 1, true), Column(Code, 4, true), Column(Supplier, 3, true), Column(Colour, 5, true),
             Column(Size, 4, true), Column(Stock, 2, true), Column(Price, 1, true), Column(UnitPrice, 5, true)]
  {
    var shown := (c: Column) => c.shown;
    var a, b, c := COLUMNS[..5], COLUMNS[5..10], COLUMNS[10..];
    assert COLUMNS == a + (b + c);
    FilterAppend(a, b + c, shown);
    FilterAppend(b, c, shown);
    FilterFive(a[0], a[1], a[2], a[3], a[4], shown);
    FilterFive(b[0], b[1], b[2], b[3], b[4], shown);
    FilterFive(c[0], c[1], c[2], c[3], c[4], shown);
    assert a == [a[0], a[1], a[2], a[3], a[4]] && b == [b[0], b[1], b[2], b[3], b[4]];
    assert c == [c[0], c[1], c[2], c[3], c[4]];
  }

  lemma FilterTwo<T>(a: T, b: T, keep: T -> bool)
    ensures Filter([a, b], keep) == (if keep(a) then [a] else []) + (if keep(b) then [b] else [])
  {
    OneMoreFiltered([], a, keep);
    OneMoreFiltered([a], b, keep);
    assert [] + [a] == [a] && [a] + [b] == [a, b];
  }

  lemma FilterThree<T>(a: T, b: T, c: T, keep: T -> bool)
    ensures Filter([a, b, c], keep) ==
            (if keep(a) then [a] else []) + (if keep(b) then [b] else []) + (if keep(c) then [c] else [])
  {
    FilterTwo(a, b, keep);
    OneMoreFiltered([a, b], c, keep);
    assert [a, b] + [c] == [a, b, c];
  }

  lemma FilterFive<T>(a: T, b: T, c: T, d: T, e: T, keep: T -> bool)
    ensures Filter([a, b, c, d, e], keep) ==
            (if keep(a) then [a] else []) + (if keep(b) then [b] else []) + (if keep(c) then [c] else []) +
            (if keep(d) then [d] else []) + (if keep(e) then [e] else [])
  {
    FilterThree(a, b, c, keep);
    FilterTwo(d, e, keep);
    FilterAppend([a, b, c], [d, e], keep);
    assert [a, b, c] + [d, e] == [a, b, c, d, e];
  }

  /** Every URL reads as a non-empty list of known columns without repeats: what
      it mentions, or the default if it mentions none. */
  lemma ReadIsValid(params: seq<string>)
    ensures Distinct(ReadColumns(params)) && ReadColumns(params) != []
    ensures (exists key :: Mentions(params, key)) ==>
              forall key :: key in ReadColumns(params) <==> Mentions(params, key)
    ensures !(exists key :: Mentions(params, key)) ==> ReadColumns(params) == DefaultColumns()
  {
    ParamsAreDistinct(params);
    DefaultIsDistinct();
    if ReadParams(params) != [] {
      assert ReadParams(params)[0] in ReadParams(params);
    }
  }

  /** For every URL, width and drag: folding the drag back keeps the URL's
      columns, and the sheet then shows the drag. */
  lemma DragOnAnyUrl(params: seq<string>, reordered: seq<Key>, width: real)
    requires Distinct(reordered) && multiset(reordered) == multiset(Fit(ReadColumns(params), width))
    ensures multiset(Merge(ReadColumns(params), reordered)) == multiset(ReadColumns(params))
    ensures Fit(Merge(ReadColumns(params), reordered), width) == reordered
  {
    ReadIsValid(params);
    DragIsShown(ReadColumns(params), reordered, width);
  }

  // ---- writing an arrangement back ---------------------------------------------------

  function Names(keys: seq<Key>): seq<string> {
    seq(|keys|, i requires 0 <= i < |keys| => KeyName(keys[i]))
  }

  /** `parts.join(',')` */
  function Join(parts: seq<string>): string
    requires parts != []
  {
    if |parts| == 1 then parts[0] else Join(parts[..|parts| - 1]) + "," + parts[|parts| - 1]
  }

  lemma {:induction false} SplitAppend(a: string, b: string)
    requires ',' !in b
    ensures Split(a + "," + b) == Split(a) + [b]
  {
    if a == "" {
      assert ("" + "," + b)[1..] == b;
      SplitPlain(b);
    } else {
      assert (a + "," + b)[1..] == a[1..] + "," + b;
      SplitAppend(a[1..], b);
    }
  }

  lemma {:induction false} SplitPlain(a: string)
    requires ',' !in a
    ensures Split(a) == [a]
  {
    if a != "" {
      SplitPlain(a[1..]);
      assert [a[0]] + a[1..] == a;
    }
  }

  /** Every column name starts and ends with a letter and has no comma. */
  lemma NameEdges(key: Key)
    ensures var name := KeyName(key);
            name != "" && 'a' <= name[0] <= 'z' && 'a' <= name[|name| - 1] <= 'z'
  {
  }

  lemma NameHasNoComma(key: Key)
    ensures ',' !in KeyName(key)
  {
  }

  lemma TrimStays(s: string)
    requires s != "" && !Space(s[0]) && !Space(s[|s| - 1])
    ensures Trim(s) == s
  {
  }

  lemma NameIsPlain(key: Key)
    ensures ',' !in KeyName(key) && Trim(KeyName(key)) == KeyName(key)
  {
    NameEdges(key);
    NameHasNoComma(key);
    TrimStays(KeyName(key));
  }

  lemma {:induction false} SplitJoin(parts: seq<string>)
    requires parts != [] && forall part | part in parts :: ',' !in part
    ensures Split(Join(parts)) == parts
  {
    LastSplit(parts);
    if |parts| == 1 {
      SplitPlain(parts[0]);
    } else {
      SplitJoin(parts[..|parts| - 1]);
      SplitAppend(Join(parts[..|parts| - 1]), parts[|parts| - 1]);
    }
  }

  lemma NamesDiffer(a: Key, b: Key)
    ensures KeyName(a) == KeyName(b) ==> a == b
  {
  }

  lemma {:induction false} NamedFinds(keys: seq<Key>, key: Key)
    requires key in keys
    ensures Named(keys, KeyName(key)) == Some(key)
  {
    NamesDiffer(keys[|keys| - 1], key);
    if keys[|keys| - 1] != key {
      NamedFinds(keys[..|keys| - 1], key);
    }
  }

  lemma EveryKeyIsDeclared(key: Key)
    ensures key in Keys(COLUMNS)
  {
    var keys := Keys(COLUMNS);
    assert keys == [Name, Code, Supplier, Country, Brand, Family, Colour, Surface, Firing, Application, Size, Form,
                    Stock, Price, UnitPrice];
  }

  lemma KeyOfName(key: Key)
    ensures KeyOf(KeyName(key)) == Some(key)
  {
    NameIsPlain(key);
    EveryKeyIsDeclared(key);
    NamedFinds(Keys(COLUMNS), key);
  }

  lemma {:induction false} ReadNames(keys: seq<Key>)
    requires Distinct(keys)
    ensures ReadParts([], Names(keys)) == keys
  {
    if keys != [] {
      var before := keys[..|keys| - 1];
      assert Names(keys)[..|keys| - 1] == Names(before);
      ReadNames(before);
      KeyOfName(keys[|keys| - 1]);
      LastSplit(keys);
    }
  }

  lemma OneParam(raw: string)
    ensures ReadParams([raw]) == ReadParts([], Split(raw))
  {
    assert [raw][..0] == [];
  }

  lemma NamesArePlain(keys: seq<Key>)
    ensures forall part | part in Names(keys) :: ',' !in part
  {
    forall i | 0 <= i < |keys| ensures ',' !in Names(keys)[i] {
      NameIsPlain(keys[i]);
    }
  }

  /** Writing an arrangement into the URL and reading it gives it back; so a drag
      survives the round trip. */
  lemma UrlRoundTrip(keys: seq<Key>)
    requires Distinct(keys) && keys != []
    ensures ReadColumns([Join(Names(keys))]) == keys
  {
    NamesArePlain(keys);
    SplitJoin(Names(keys));
    ReadNames(keys);
    OneParam(Join(Names(keys)));
  }

  // ---- the picker ------------------------------------------------------------------------

  lemma ColumnOf(columns: seq<Column>, key: Key) returns (c: Column)
    requires key in Keys(columns) && Distinct(Keys(columns))
    ensures c in columns && c.key == key && Find(columns, key) == Some(c)
  {
    var i :| 0 <= i < |columns| && Keys(columns)[i] == key;
    c := columns[i];
    assert forall j | 0 <= j < i :: Keys(columns)[j] == columns[j].key;
    FoundAt(columns, key, i);
  }

  lemma {:induction false} ShownKeys(chosen: seq<Key>)
    ensures Keys(Shown(chosen)) == chosen
  {
    if chosen != [] {
      ShownKeys(chosen[..|chosen| - 1]);
      EveryKeyIsDeclared(chosen[|chosen| - 1]);
      DeclaredOnce();
      var c := ColumnOf(COLUMNS, chosen[|chosen| - 1]);
      LastSplit(chosen);
    }
  }

  lemma {:induction false} FilterKeys(columns: seq<Column>, chosen: seq<Key>)
    ensures Keys(Filter(columns, (c: Column) => c.key !in chosen)) == Hidden(Keys(columns), chosen)
  {
    if columns != [] {
      var before := columns[..|columns| - 1];
      FilterKeys(before, chosen);
      assert Keys(columns)[..|columns| - 1] == Keys(before);
    }
  }

  lemma ChosenAndHidden(all: seq<Key>, chosen: seq<Key>)
    requires Distinct(all) && Distinct(chosen) && forall key | key in chosen :: key in all
    ensures multiset(chosen + Hidden(all, chosen)) == multiset(all)
  {
    forall key ensures key in Visible(all, chosen) <==> key in chosen {
      FilterMember(all, (k: Key) => k in chosen, key);
    }
    FilterDistinct(all, (k: Key) => k in chosen);
    DistinctCounts(chosen);
    DistinctCounts(Visible(all, chosen));
    SplitCounts(all, chosen);
    assert multiset(Visible(all, chosen)) == multiset(chosen);
  }

  lemma KeysAppend(a: seq<Column>, b: seq<Column>)
    ensures Keys(a + b) == Keys(a) + Keys(b)
  {
  }

  /** The picker lists every column once: the shown ones in their order, then the
      hidden ones in theirs. */
  lemma PickerListsEveryColumn(chosen: seq<Key>)
    requires Distinct(chosen)
    ensures Keys(Arrange(chosen)) == chosen + Hidden(Keys(COLUMNS), chosen)
    ensures multiset(Keys(Arrange(chosen))) == multiset(Keys(COLUMNS))
  {
    ShownKeys(chosen);
    FilterKeys(COLUMNS, chosen);
    KeysAppend(Shown(chosen), Filter(COLUMNS, (c: Column) => c.key !in chosen));
    DeclaredOnce();
    forall key | key in chosen ensures key in Keys(COLUMNS) {
      EveryKeyIsDeclared(key);
    }
    ChosenAndHidden(Keys(COLUMNS), chosen);
  }

  lemma PlaceOfColumn(i: nat)
    requires i < |COLUMNS|
    ensures Place(COLUMNS[i].key) == i
  {
  }

  lemma DeclaredOnce()
    ensures Distinct(Keys(COLUMNS))
  {
    forall i, j | 0 <= i < j < |Keys(COLUMNS)| ensures Keys(COLUMNS)[i] != Keys(COLUMNS)[j] {
      PlaceOfColumn(i);
      PlaceOfColumn(j);
    }
  }
}
