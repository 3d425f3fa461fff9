/** The reader's column arrangement: what fits a viewport, and how a drag on a
    narrowed sheet is folded back into the whole. */
module Columns {
  import opened Tables

  datatype Key =
    | Name | Code | Supplier | Country | Brand | Family | Colour | Surface | Firing | Application | Size | Form
    | Stock | Price | UnitPrice

  datatype Column = Column(key: Key, priority: nat, shown: bool)

  const COLUMNS: seq<Column> := [
    Column(Name, 1, true), Column(Code, 4, true), Column(Supplier, 3, true), Column(Country, 5, false),
    Column(Brand, 5, false), Column(Family, 5, false), Column(Colour, 5, true), Column(Surface, 5, false),
    Column(Firing, 5, false), Column(Application, 5, false), Column(Size, 4, true), Column(Form, 5, false),
    Column(Stock, 2, true), Column(Price, 1, true), Column(UnitPrice, 5, true)]

  predicate Distinct<T(==)>(s: seq<T>) {
    forall i, j | 0 <= i < j < |s| :: s[i] != s[j]
  }

  function Filter<T>(s: seq<T>, keep: T -> bool): seq<T> {
    if s == [] then []
    else Filter(s[..|s| - 1], keep) + if keep(s[|s| - 1]) then [s[|s| - 1]] else []
  }

  function Find(columns: seq<Column>, key: Key): (found: Option<Column>)
    ensures found.Some? ==> found.value in columns && found.value.key == key
    ensures found.None? ==> forall c | c in columns :: c.key != key
  {
    if columns == [] then None else if columns[0].key == key then Some(columns[0]) else Find(columns[1..], key)
  }

  function Priority(key: Key): nat {
    var found := Find(COLUMNS, key);
    if found.Some? then found.value.priority else 3
  }

  // ---- fit and arrange ----------------------------------------------------------

  function Budget(width: real): nat {
    if width >= 1280.0 then 5 else if width >= 980.0 then 4 else if width >= 760.0 then 3
    else if width >= 560.0 then 2 else 1
  }

  function Fit(chosen: seq<Key>, width: real): seq<Key> {
    var kept := Filter(chosen, (key: Key) => Priority(key) <= Budget(width));
    if kept != [] then kept else if chosen == [] then [] else chosen[..1]
  }

  // ---- what fits ------------------------------------------------------------------

  /** The narrowest sheet, in pixels, that a column of each rung appears on. */
  function NarrowestFor(key: Key): real {
    match key
    case Name => 0.0
    case Price => 0.0
    case Stock => 560.0
    case Supplier => 760.0
    case Code => 980.0
    case Size => 980.0
    case _ => 1280.0
  }

  lemma {:induction false} FoundAt(columns: seq<Column>, key: Key, i: nat)
    requires i < |columns| && columns[i].key == key && forall j | 0 <= j < i :: columns[j].key != key
    ensures Find(columns, key) == Some(columns[i])
  {
    if i > 0 {
      FoundAt(columns[1..], key, i - 1);
    }
  }

  function Place(key: Key): nat {
    match key
    case Name => 0
    case Code => 1
    case Supplier => 2
    case Country => 3
    case Brand => 4
    case Family => 5
    case Colour => 6
    case Surface => 7
    case Firing => 8
    case Application => 9
    case Size => 10
    case Form => 11
    case Stock => 12
    case Price => 13
    case UnitPrice => 14
  }

  function Rung(key: Key): nat {
    match key
    case Name | Price => 1
    case Stock => 2
    case Supplier => 3
    case Code | Size => 4
    case _ => 5
  }

  lemma PriorityIs(key: Key)
    ensures Priority(key) == Rung(key)
  {
    FoundAt(COLUMNS, key, Place(key));
  }

  lemma RungFitsIff(priority: nat, key: Key, width: real)
    requires width >= 0.0 && priority == Rung(key)
    ensures priority <= Budget(width) <==> NarrowestFor(key) <= width
  {
  }

  lemma FitsIff(key: Key, width: real)
    requires width >= 0.0
    ensures Priority(key) <= Budget(width) <==> NarrowestFor(key) <= width
  {
    PriorityIs(key);
    RungFitsIff(Priority(key), key, width);
  }

  predicate Ordered(part: seq<Key>, whole: seq<Key>) {
    if part == [] then true
    else whole != [] && (if part[|part| - 1] == whole[|whole| - 1] then Ordered(part[..|part| - 1], whole[..|whole| - 1])
                         else Ordered(part, whole[..|whole| - 1]))
  }

  lemma {:induction false} FilterIsOrdered(s: seq<Key>, keep: Key -> bool)
    ensures Ordered(Filter(s, keep), s)
  {
    if s != [] {
      var before := s[..|s| - 1];
      FilterIsOrdered(before, keep);
      if keep(s[|s| - 1]) {
        assert Filter(s, keep)[..|Filter(s, keep)| - 1] == Filter(before, keep);
      } else {
        assert Filter(s, keep) == Filter(before, keep);
        if Filter(before, keep) != [] {
          KeptIsElsewhere(before, keep, s[|s| - 1]);
        }
      }
    }
  }

  lemma KeptIsElsewhere(before: seq<Key>, keep: Key -> bool, x: Key)
    requires !keep(x) && Filter(before, keep) != []
    ensures Filter(before, keep)[|Filter(before, keep)| - 1] != x
  {
    FilterMember(before, keep, Filter(before, keep)[|Filter(before, keep)| - 1]);
  }

  /** A sheet shows, in their order, exactly the chosen columns that it is wide
      enough for, or the first one if it is wide enough for none; so a wider sheet
      shows no less. */
  lemma FitShows(chosen: seq<Key>, width: real, key: Key)
    requires Distinct(chosen) && width >= 0.0
    ensures Ordered(Fit(chosen, width), chosen)
    ensures (exists k | k in chosen :: NarrowestFor(k) <= width) ==>
              (key in Fit(chosen, width) <==> key in chosen && NarrowestFor(key) <= width)
    ensures (forall k | k in chosen :: NarrowestFor(k) > width) ==> Fit(chosen, width) == chosen[..if chosen == [] then 0 else 1]
  {
    var keep := (k: Key) => Priority(k) <= Budget(width);
    FilterMember(chosen, keep, key);
    FilterIsOrdered(chosen, keep);
    if k :| k in chosen && NarrowestFor(k) <= width {
      FitsIff(k, width);
      FilterMember(chosen, keep, k);
    }
    FitsIff(key, width);
    if forall k | k in chosen :: NarrowestFor(k) > width {
      NothingKept(chosen, keep, width);
      if chosen != [] {
        FirstIsOrdered(chosen);
      }
    }
  }

  lemma NothingKept(chosen: seq<Key>, keep: Key -> bool, width: real)
    requires width >= 0.0 && (forall k | k in chosen :: NarrowestFor(k) > width)
    requires forall k: Key :: keep(k) <==> Priority(k) <= Budget(width)
    ensures Filter(chosen, keep) == []
  {
    if Filter(chosen, keep) != [] {
      var k := Filter(chosen, keep)[0];
      FilterMember(chosen, keep, k);
      FitsIff(k, width);
    }
  }

  lemma {:induction false} FirstIsOrdered(s: seq<Key>)
    requires s != [] && Distinct(s)
    ensures Ordered(s[..1], s)
  {
    if |s| > 1 {
      FirstIsOrdered(s[..|s| - 1]);
      assert s[..|s| - 1][..1] == s[..1];
    }
  }

  function Shown(chosen: seq<Key>): seq<Column> {
    if chosen == [] then []
    else
      var found := Find(COLUMNS, chosen[|chosen| - 1]);
      Shown(chosen[..|chosen| - 1]) + if found.Some? then [found.value] else []
  }

  function Arrange(chosen: seq<Key>): seq<Column> {
    Shown(chosen) + Filter(COLUMNS, (c: Column) => c.key !in chosen)
  }

  // ---- merge ----------------------------------------------------------------------

  /** The last visible key of a list, or `start` if it has none. */
  function Anchor(list: seq<Key>, visible: seq<Key>, start: Option<Key>): Option<Key> {
    if list == [] then start
    else if list[|list| - 1] in visible then Some(list[|list| - 1])
    else Anchor(list[..|list| - 1], visible, start)
  }

  /** The hidden keys of a list that follow `anchor`, in their order. */
  function Trail(list: seq<Key>, visible: seq<Key>, start: Option<Key>, anchor: Option<Key>): seq<Key> {
    if list == [] then []
    else
      var before := list[..|list| - 1];
      var last := list[|list| - 1];
      Trail(before, visible, start, anchor) +
      if last !in visible && Anchor(before, visible, start) == anchor then [last] else []
  }

  function Follow(keys: seq<Key>, full: seq<Key>, visible: seq<Key>): seq<Key> {
    if keys == [] then []
    else Follow(keys[..|keys| - 1], full, visible) +
         ([keys[|keys| - 1]] + Trail(full, visible, None, Some(keys[|keys| - 1])))
  }

  function Merge(full: seq<Key>, reordered: seq<Key>): seq<Key> {
    Trail(full, reordered, None, None) + Follow(reordered, full, reordered)
  }

  function Visible(list: seq<Key>, visible: seq<Key>): seq<Key> {
    Filter(list, (key: Key) => key in visible)
  }

  function Hidden(list: seq<Key>, visible: seq<Key>): seq<Key> {
    Filter(list, (key: Key) => key !in visible)
  }

  function TrailOf(trailing: map<Option<Key>, seq<Key>>, anchor: Option<Key>): seq<Key> {
    if anchor in trailing then trailing[anchor] else []
  }

  lemma FileKey(trailing: map<Option<Key>, seq<Key>>, list: seq<Key>, key: Key, visible: seq<Key>)
    requires key !in visible && forall a :: TrailOf(trailing, a) == Trail(list, visible, None, a)
    ensures var anchor := Anchor(list, visible, None);
            forall a :: TrailOf(trailing[anchor := TrailOf(trailing, anchor) + [key]], a) ==
                        Trail(list + [key], visible, None, a)
  {
    var anchor := Anchor(list, visible, None);
    forall a ensures TrailOf(trailing[anchor := TrailOf(trailing, anchor) + [key]], a) ==
                     Trail(list + [key], visible, None, a) {
      OneMoreTrail(list, key, visible, None, a);
    }
  }

  lemma PassKey(list: seq<Key>, key: Key, visible: seq<Key>)
    requires key in visible
    ensures forall a :: Trail(list + [key], visible, None, a) == Trail(list, visible, None, a)
  {
    forall a ensures Trail(list + [key], visible, None, a) == Trail(list, visible, None, a) {
      OneMoreTrail(list, key, visible, None, a);
    }
  }

  /** The loop over `full` that files every hidden key under its anchor. */
  method FileHidden(full: seq<Key>, reordered: seq<Key>) returns (trailing: map<Option<Key>, seq<Key>>)
    ensures forall a :: TrailOf(trailing, a) == Trail(full, reordered, None, a)
  {
    trailing := map[];
    var anchor: Option<Key> := None;
    for i := 0 to |full|
      invariant anchor == Anchor(full[..i], reordered, None)
      invariant forall a :: TrailOf(trailing, a) == Trail(full[..i], reordered, None, a)
    {
      var key := full[i];
      Prefix(full, i);
      OneMoreTrail(full[..i], key, reordered, None, None);
      if key in reordered {
        PassKey(full[..i], key, reordered);
        anchor := Some(key);
      } else {
        FileKey(trailing, full[..i], key, reordered);
        trailing := trailing[anchor := TrailOf(trailing, anchor) + [key]];
      }
    }
    assert full[..|full|] == full;
  }

  /** The reordered keys, each with the hidden keys filed under it. */
  method MergeColumns(full: seq<Key>, reordered: seq<Key>) returns (merged: seq<Key>)
    ensures merged == Merge(full, reordered)
  {
    var trailing := FileHidden(full, reordered);
    var followed: seq<Key> := [];
    for i := 0 to |reordered|
      invariant followed == Follow(reordered[..i], full, reordered)
    {
      FollowStep(reordered, i, full);
      followed := followed + ([reordered[i]] + TrailOf(trailing, Some(reordered[i])));
    }
    assert reordered[..|reordered|] == reordered;
    merged := TrailOf(trailing, None) + followed;
  }

  lemma Prefix(s: seq<Key>, i: nat)
    requires i < |s|
    ensures s[..i + 1] == s[..i] + [s[i]]
  {
  }

  lemma OneMoreTrail(list: seq<Key>, x: Key, visible: seq<Key>, start: Option<Key>, anchor: Option<Key>)
    ensures Anchor(list + [x], visible, start) == if x in visible then Some(x) else Anchor(list, visible, start)
    ensures Trail(list + [x], visible, start, anchor) ==
            Trail(list, visible, start, anchor) +
            if x !in visible && Anchor(list, visible, start) == anchor then [x] else []
  {
    assert (list + [x])[..|list|] == list;
  }

  lemma OneMoreFollowed(keys: seq<Key>, k: Key, full: seq<Key>, visible: seq<Key>)
    ensures Follow(keys + [k], full, visible) ==
            Follow(keys, full, visible) + ([k] + Trail(full, visible, None, Some(k)))
  {
    assert (keys + [k])[..|keys|] == keys;
  }

  lemma FollowStep(keys: seq<Key>, i: nat, full: seq<Key>)
    requires i < |keys|
    ensures Follow(keys[..i + 1], full, keys) ==
            Follow(keys[..i], full, keys) + ([keys[i]] + Trail(full, keys, None, Some(keys[i])))
  {
    Prefix(keys, i);
    OneMoreFollowed(keys[..i], keys[i], full, keys);
  }

  lemma OneMoreFiltered<T>(s: seq<T>, x: T, keep: T -> bool)
    ensures Filter(s + [x], keep) == Filter(s, keep) + if keep(x) then [x] else []
  {
    assert (s + [x])[..|s|] == s;
  }

  lemma LastSplit<T>(s: seq<T>)
    requires s != []
    ensures s == s[..|s| - 1] + [s[|s| - 1]]
  {
  }

  lemma {:induction false} FilterMember<T>(s: seq<T>, keep: T -> bool, x: T)
    ensures x in Filter(s, keep) <==> x in s && keep(x)
  {
    if s != [] {
      LastSplit(s);
      FilterMember(s[..|s| - 1], keep, x);
    }
  }

  lemma {:induction false} TrailIsHidden(list: seq<Key>, visible: seq<Key>, start: Option<Key>, anchor: Option<Key>)
    ensures forall x | x in Trail(list, visible, start, anchor) :: x in list && x !in visible
  {
    if list != [] {
      LastSplit(list);
      TrailIsHidden(list[..|list| - 1], visible, start, anchor);
    }
  }

  // ---- lists, anchors and trails -----------------------------------------------------

  lemma {:induction false} FilterAppend<T>(a: seq<T>, b: seq<T>, keep: T -> bool)
    ensures Filter(a + b, keep) == Filter(a, keep) + Filter(b, keep)
  {
    if b == [] {
      assert a + b == a;
    } else {
      assert (a + b)[..|a + b| - 1] == a + b[..|b| - 1];
      FilterAppend(a, b[..|b| - 1], keep);
    }
  }

  lemma {:induction false} AnchorAppend(a: seq<Key>, b: seq<Key>, visible: seq<Key>, start: Option<Key>)
    ensures Anchor(a + b, visible, start) == Anchor(b, visible, Anchor(a, visible, start))
  {
    if b == [] {
      assert a + b == a;
    } else {
      assert (a + b)[..|a + b| - 1] == a + b[..|b| - 1];
      AnchorAppend(a, b[..|b| - 1], visible, start);
    }
  }

  lemma {:induction false} TrailAppend(a: seq<Key>, b: seq<Key>, visible: seq<Key>, start: Option<Key>, anchor: Option<Key>)
    ensures Trail(a + b, visible, start, anchor) ==
            Trail(a, visible, start, anchor) + Trail(b, visible, Anchor(a, visible, start), anchor)
  {
    if b == [] {
      assert a + b == a;
    } else {
      assert (a + b)[..|a + b| - 1] == a + b[..|b| - 1];
      TrailAppend(a, b[..|b| - 1], visible, start, anchor);
      AnchorAppend(a, b[..|b| - 1], visible, start);
    }
  }

  /** A block of hidden keys follows whatever came before it. */
  predicate IsHiddenBlock(block: seq<Key>, visible: seq<Key>, start: Option<Key>, anchor: Option<Key>) {
    Anchor(block, visible, start) == start && Visible(block, visible) == [] &&
    Trail(block, visible, start, anchor) == if anchor == start then block else []
  }

  lemma HiddenBlockGrows(block: seq<Key>, x: Key, visible: seq<Key>, start: Option<Key>, anchor: Option<Key>)
    requires IsHiddenBlock(block, visible, start, anchor) && x !in visible
    ensures IsHiddenBlock(block + [x], visible, start, anchor)
  {
    OneMoreTrail(block, x, visible, start, anchor);
    VisibleGrows(block, x, visible);
  }

  lemma {:induction false} HiddenBlock(block: seq<Key>, visible: seq<Key>, start: Option<Key>, anchor: Option<Key>)
    requires forall x | x in block :: x !in visible
    ensures IsHiddenBlock(block, visible, start, anchor)
  {
    if block != [] {
      var before := block[..|block| - 1];
      HiddenBlock(before, visible, start, anchor);
      LastSplit(block);
      HiddenBlockGrows(before, block[|block| - 1], visible, start, anchor);
    }
  }

  lemma VisibleKey(k: Key, visible: seq<Key>, start: Option<Key>, anchor: Option<Key>)
    requires k in visible
    ensures Anchor([k], visible, start) == Some(k) && Visible([k], visible) == [k]
    ensures Trail([k], visible, start, anchor) == []
  {
    OneMoreTrail([], k, visible, start, anchor);
    OneMoreFiltered([], k, (key: Key) => key in visible);
    assert [] + [k] == [k];
  }

  // ---- what merge keeps ---------------------------------------------------------------

  /** One visible key and the block behind it. */
  lemma KeyAndBlock(k: Key, block: seq<Key>, visible: seq<Key>, start: Option<Key>, anchor: Option<Key>)
    requires k in visible && forall x | x in block :: x !in visible
    ensures Visible([k] + block, visible) == [k]
    ensures Trail([k] + block, visible, start, anchor) == if anchor == Some(k) then block else []
  {
    FilterAppend([k], block, (key: Key) => key in visible);
    HiddenBlock(block, visible, Some(k), anchor);
    VisibleKey(k, visible, start, anchor);
    TrailAppend([k], block, visible, start, anchor);
  }

  lemma FollowKeepsMore(before: seq<Key>, k: Key, full: seq<Key>, visible: seq<Key>, start: Option<Key>, anchor: Option<Key>)
    requires k in visible
    ensures Visible(Follow(before + [k], full, visible), visible) == Visible(Follow(before, full, visible), visible) + [k]
    ensures Trail(Follow(before + [k], full, visible), visible, start, anchor) ==
            Trail(Follow(before, full, visible), visible, start, anchor) +
            if anchor == Some(k) then Trail(full, visible, None, anchor) else []
  {
    var block := Trail(full, visible, None, Some(k));
    var head := Follow(before, full, visible);
    OneMoreFollowed(before, k, full, visible);
    TrailIsHidden(full, visible, None, Some(k));
    KeyAndBlock(k, block, visible, Anchor(head, visible, start), anchor);
    FilterAppend(head, [k] + block, (key: Key) => key in visible);
    TrailAppend(head, [k] + block, visible, start, anchor);
  }

  lemma {:induction false} FollowKeeps(keys: seq<Key>, full: seq<Key>, visible: seq<Key>, start: Option<Key>, anchor: Option<Key>)
    requires Distinct(keys) && forall k | k in keys :: k in visible
    ensures Visible(Follow(keys, full, visible), visible) == keys
    ensures Trail(Follow(keys, full, visible), visible, start, anchor) ==
            if anchor.Some? && anchor.value in keys then Trail(full, visible, None, anchor) else []
  {
    if keys != [] {
      var before := keys[..|keys| - 1];
      var k := keys[|keys| - 1];
      assert k !in before;
      FollowKeeps(before, full, visible, start, anchor);
      FollowKeepsMore(before, k, full, visible, start, anchor);
      LastSplit(keys);
    }
  }

  /** Anchors are visible keys of the list. */
  lemma {:induction false} AnchorsAreVisible(list: seq<Key>, visible: seq<Key>, k: Key)
    requires k !in visible
    ensures Anchor(list, visible, None) != Some(k) && Trail(list, visible, None, Some(k)) == []
  {
    if list != [] {
      AnchorsAreVisible(list[..|list| - 1], visible, k);
    }
  }

  lemma LeadThenRest(lead: seq<Key>, rest: seq<Key>, visible: seq<Key>, anchor: Option<Key>)
    requires forall x | x in lead :: x !in visible
    ensures Visible(lead + rest, visible) == Visible(rest, visible)
    ensures Trail(lead + rest, visible, None, anchor) ==
            (if anchor == None then lead else []) + Trail(rest, visible, None, anchor)
  {
    HiddenBlock(lead, visible, None, anchor);
    FilterAppend(lead, rest, (key: Key) => key in visible);
    TrailAppend(lead, rest, visible, None, anchor);
  }

  /** The merged list shows the reordered keys in their new order, and every
      hidden key still follows its former anchor, in its former order. */
  lemma MergeKeepsTrails(full: seq<Key>, reordered: seq<Key>, anchor: Option<Key>)
    requires Distinct(reordered)
    ensures Visible(Merge(full, reordered), reordered) == reordered
    ensures Trail(Merge(full, reordered), reordered, None, anchor) == Trail(full, reordered, None, anchor)
  {
    TrailIsHidden(full, reordered, None, None);
    FollowKeeps(reordered, full, reordered, None, anchor);
    LeadThenRest(Trail(full, reordered, None, None), Follow(reordered, full, reordered), reordered, anchor);
    if anchor.Some? && anchor.value !in reordered {
      AnchorsAreVisible(full, reordered, anchor.value);
    }
  }

  // ---- nothing is lost -------------------------------------------------------------------

  lemma FollowCounts(before: seq<Key>, k: Key, list: seq<Key>, visible: seq<Key>)
    ensures multiset(Follow(before + [k], list, visible)) ==
            multiset(Follow(before, list, visible)) + multiset{k} + multiset(Trail(list, visible, None, Some(k)))
  {
    OneMoreFollowed(before, k, list, visible);
  }

  /** What appending a hidden key adds behind the keys that are followed. */
  predicate Gains(keys: seq<Key>, list: seq<Key>, x: Key, visible: seq<Key>) {
    var anchor := Anchor(list, visible, None);
    multiset(Follow(keys, list + [x], visible)) ==
    multiset(Follow(keys, list, visible)) + Gain(anchor.Some? && anchor.value in keys, x)
  }

  lemma CountsRegroup(p: multiset<Key>, t: multiset<Key>, k: Key, g: multiset<Key>, h: multiset<Key>)
    ensures (p + g) + multiset{k} + (t + h) == (p + multiset{k} + t) + (g + h)
  {
  }

  function Gain(hit: bool, x: Key): multiset<Key> {
    if hit then multiset{x} else multiset{}
  }

  lemma GainsJoin(anchor: Option<Key>, before: seq<Key>, k: Key, x: Key)
    requires k !in before
    ensures Gain(anchor.Some? && anchor.value in before, x) + Gain(anchor == Some(k), x) ==
            Gain(anchor.Some? && anchor.value in before + [k], x)
  {
  }

  lemma GainsOneMore(before: seq<Key>, k: Key, list: seq<Key>, x: Key, visible: seq<Key>)
    requires x !in visible && k !in before && Gains(before, list, x, visible)
    ensures Gains(before + [k], list, x, visible)
  {
    var anchor := Anchor(list, visible, None);
    FollowCounts(before, k, list, visible);
    FollowCounts(before, k, list + [x], visible);
    TrailGrows(list, x, visible, k);
    CountsRegroup(multiset(Follow(before, list, visible)), multiset(Trail(list, visible, None, Some(k))), k,
                  Gain(anchor.Some? && anchor.value in before, x), Gain(anchor == Some(k), x));
    GainsJoin(anchor, before, k, x);
  }

  lemma {:induction false} FollowGrows(keys: seq<Key>, list: seq<Key>, x: Key, visible: seq<Key>)
    requires Distinct(keys) && x !in visible
    ensures Gains(keys, list, x, visible)
  {
    if keys != [] {
      var before := keys[..|keys| - 1];
      var k := keys[|keys| - 1];
      assert k !in before;
      FollowGrows(before, list, x, visible);
      LastSplit(keys);
      GainsOneMore(before, k, list, x, visible);
    }
  }

  lemma TrailGrows(list: seq<Key>, x: Key, visible: seq<Key>, k: Key)
    requires x !in visible
    ensures multiset(Trail(list + [x], visible, None, Some(k))) ==
            multiset(Trail(list, visible, None, Some(k))) + Gain(Anchor(list, visible, None) == Some(k), x)
  {
    OneMoreTrail(list, x, visible, None, Some(k));
  }

  lemma {:induction false} FollowSame(keys: seq<Key>, list: seq<Key>, x: Key, visible: seq<Key>)
    requires x in visible
    ensures Follow(keys, list + [x], visible) == Follow(keys, list, visible)
  {
    if keys != [] {
      FollowSame(keys[..|keys| - 1], list, x, visible);
      OneMoreTrail(list, x, visible, None, Some(keys[|keys| - 1]));
    }
  }

  lemma {:induction false} FollowEmpty(keys: seq<Key>, visible: seq<Key>)
    ensures Follow(keys, [], visible) == keys
  {
    if keys != [] {
      FollowEmpty(keys[..|keys| - 1], visible);
    }
  }

  lemma {:induction false} AnchorIsMember(list: seq<Key>, visible: seq<Key>)
    ensures Anchor(list, visible, None).Some? ==> Anchor(list, visible, None).value in visible
  {
    if list != [] {
      AnchorIsMember(list[..|list| - 1], visible);
    }
  }

  /** Merging adds to the reordered keys exactly the hidden keys of the list. */
  lemma MergeGainsVisible(list: seq<Key>, x: Key, reordered: seq<Key>)
    requires x in reordered
    ensures Merge(list + [x], reordered) == Merge(list, reordered)
    ensures Hidden(list + [x], reordered) == Hidden(list, reordered)
  {
    OneMoreTrail(list, x, reordered, None, None);
    OneMoreFiltered(list, x, (key: Key) => key !in reordered);
    FollowSame(reordered, list, x, reordered);
  }

  lemma HiddenGains(list: seq<Key>, x: Key, visible: seq<Key>)
    requires x !in visible
    ensures multiset(Hidden(list + [x], visible)) == multiset(Hidden(list, visible)) + multiset{x}
  {
    OneMoreFiltered(list, x, (key: Key) => key !in visible);
  }

  lemma MergeGainsHidden(list: seq<Key>, x: Key, reordered: seq<Key>)
    requires x !in reordered && Distinct(reordered)
    ensures multiset(Merge(list + [x], reordered)) == multiset(Merge(list, reordered)) + multiset{x}
  {
    MergeParts(list, reordered);
    MergeParts(list + [x], reordered);
    AnchorIsMember(list, reordered);
    FollowGrows(reordered, list, x, reordered);
    LeadGrows(list, x, reordered);
  }

  lemma MergeParts(full: seq<Key>, reordered: seq<Key>)
    ensures multiset(Merge(full, reordered)) ==
            multiset(Trail(full, reordered, None, None)) + multiset(Follow(reordered, full, reordered))
  {
  }

  lemma LeadGrows(list: seq<Key>, x: Key, visible: seq<Key>)
    requires x !in visible
    ensures multiset(Trail(list + [x], visible, None, None)) ==
            multiset(Trail(list, visible, None, None)) + if Anchor(list, visible, None) == None then multiset{x} else multiset{}
  {
    OneMoreTrail(list, x, visible, None, None);
  }

  lemma {:induction false} MergeCounts(full: seq<Key>, reordered: seq<Key>)
    requires Distinct(reordered)
    ensures multiset(Merge(full, reordered)) == multiset(reordered) + multiset(Hidden(full, reordered))
  {
    if full == [] {
      FollowEmpty(reordered, reordered);
    } else {
      var list := full[..|full| - 1];
      var x := full[|full| - 1];
      MergeCounts(list, reordered);
      LastSplit(full);
      if x in reordered {
        MergeGainsVisible(list, x, reordered);
      } else {
        MergeGainsHidden(list, x, reordered);
        HiddenGains(list, x, reordered);
      }
    }
  }

  lemma {:induction false} SplitCounts(list: seq<Key>, visible: seq<Key>)
    ensures multiset(list) == multiset(Visible(list, visible)) + multiset(Hidden(list, visible))
  {
    if list != [] {
      SplitCounts(list[..|list| - 1], visible);
      LastSplit(list);
    }
  }

  /** Folding a drag back loses and invents no column exactly when the drag
      reordered visible columns of the list. */
  lemma MergeIsPermutationIff(full: seq<Key>, reordered: seq<Key>)
    requires Distinct(reordered)
    ensures multiset(Merge(full, reordered)) == multiset(full) <==>
            multiset(reordered) == multiset(Visible(full, reordered))
  {
    MergeCounts(full, reordered);
    SplitCounts(full, reordered);
    var hidden := multiset(Hidden(full, reordered));
    assert multiset(reordered) == multiset(reordered) + hidden - hidden;
    assert multiset(Visible(full, reordered)) == multiset(Visible(full, reordered)) + hidden - hidden;
  }

  lemma {:induction false} DistinctCounts(s: seq<Key>)
    requires Distinct(s)
    ensures forall x :: multiset(s)[x] == if x in s then 1 else 0
  {
    if s != [] {
      DistinctCounts(s[..|s| - 1]);
      assert s == s[..|s| - 1] + [s[|s| - 1]];
    }
  }

  lemma {:induction false} FilterDistinct(s: seq<Key>, keep: Key -> bool)
    requires Distinct(s)
    ensures Distinct(Filter(s, keep))
  {
    if s != [] {
      FilterDistinct(s[..|s| - 1], keep);
      FilterMember(s[..|s| - 1], keep, s[|s| - 1]);
      assert s[|s| - 1] !in s[..|s| - 1];
    }
  }

  /** Reordering some of a duplicate-free list's columns yields a permutation. */
  lemma MergeIsPermutation(full: seq<Key>, reordered: seq<Key>)
    requires Distinct(full) && Distinct(reordered) && forall k | k in reordered :: k in full
    ensures multiset(Merge(full, reordered)) == multiset(full)
  {
    FilterDistinct(full, (key: Key) => key in reordered);
    DistinctCounts(reordered);
    DistinctCounts(Visible(full, reordered));
    forall k ensures k in reordered <==> k in Visible(full, reordered) {
      FilterMember(full, (key: Key) => key in reordered, k);
    }
    assert multiset(reordered) == multiset(Visible(full, reordered));
    MergeIsPermutationIff(full, reordered);
  }

  // ---- the inverse ------------------------------------------------------------------------

  /** A hidden key appended to a list goes behind the last key that is followed. */
  lemma FollowOfLonger(keys: seq<Key>, list: seq<Key>, x: Key, visible: seq<Key>)
    requires keys != [] && Distinct(keys) && x !in visible && Anchor(list, visible, None) == Some(keys[|keys| - 1])
    ensures Follow(keys, list + [x], visible) == Follow(keys, list, visible) + [x]
  {
    var before := keys[..|keys| - 1];
    var k := keys[|keys| - 1];
    LastSplit(keys);
    assert k !in before;
    FollowUnmoved(before, list, x, visible);
    OneMoreFollowed(before, k, list, visible);
    OneMoreFollowed(before, k, list + [x], visible);
    OneMoreTrail(list, x, visible, None, Some(k));
  }

  lemma {:induction false} FollowUnmoved(keys: seq<Key>, list: seq<Key>, x: Key, visible: seq<Key>)
    requires Anchor(list, visible, None).Some? ==> Anchor(list, visible, None).value !in keys
    ensures x !in visible ==> Follow(keys, list + [x], visible) == Follow(keys, list, visible)
  {
    if keys != [] {
      FollowUnmoved(keys[..|keys| - 1], list, x, visible);
      OneMoreTrail(list, x, visible, None, Some(keys[|keys| - 1]));
    }
  }

  lemma {:induction false} LastVisible(list: seq<Key>, visible: seq<Key>)
    ensures var keys := Visible(list, visible);
            Anchor(list, visible, None) == if keys == [] then None else Some(keys[|keys| - 1])
  {
    if list != [] {
      LastVisible(list[..|list| - 1], visible);
    }
  }

  /** The anchor of a hidden key that is about to be appended is the list's last
      visible key, so merging the longer list appends it at the end. */
  lemma {:induction false} Reassembles(list: seq<Key>, visible: seq<Key>)
    requires Distinct(list)
    ensures Whole(list, visible)
  {
    if list != [] {
      var before := list[..|list| - 1];
      var x := list[|list| - 1];
      assert x !in before;
      Reassembles(before, visible);
      LastSplit(list);
      ReassemblesMore(before, x, visible);
    }
  }

  predicate Whole(list: seq<Key>, visible: seq<Key>) {
    Trail(list, visible, None, None) + Follow(Visible(list, visible), list, visible) == list
  }

  lemma Regroup(trail: seq<Key>, follow: seq<Key>, x: Key)
    ensures trail + (follow + [x]) == (trail + follow) + [x]
  {
  }

  lemma ReassemblesMore(before: seq<Key>, x: Key, visible: seq<Key>)
    requires Distinct(before) && x !in before && Whole(before, visible)
    ensures Whole(before + [x], visible)
  {
    if x in visible {
      GrowsWholeVisible(before, x, visible);
    } else {
      LastVisible(before, visible);
      if Visible(before, visible) == [] {
        GrowsWholeLeading(before, x, visible);
      } else {
        GrowsWholeHidden(before, x, visible);
      }
    }
  }

  lemma VisibleGrows(before: seq<Key>, x: Key, visible: seq<Key>)
    ensures Visible(before + [x], visible) == Visible(before, visible) + if x in visible then [x] else []
  {
    OneMoreFiltered(before, x, (key: Key) => key in visible);
  }

  lemma GrowsWholeVisible(before: seq<Key>, x: Key, visible: seq<Key>)
    requires x in visible && x !in before && Whole(before, visible)
    ensures Whole(before + [x], visible)
  {
    OneMoreTrail(before, x, visible, None, None);
    VisibleGrows(before, x, visible);
    VisibleReassembles(before, x, visible);
    Regroup(Trail(before, visible, None, None), Follow(Visible(before, visible), before, visible), x);
  }

  lemma GrowsWholeLeading(before: seq<Key>, x: Key, visible: seq<Key>)
    requires x !in visible && Visible(before, visible) == [] && Anchor(before, visible, None) == None
    requires Whole(before, visible)
    ensures Whole(before + [x], visible)
  {
    OneMoreTrail(before, x, visible, None, None);
    VisibleGrows(before, x, visible);
    assert Visible(before + [x], visible) == [];
    assert Follow([], before, visible) == [] && Follow([], before + [x], visible) == [];
    assert Trail(before, visible, None, None) == before;
  }

  lemma GrowsWholeHidden(before: seq<Key>, x: Key, visible: seq<Key>)
    requires x !in visible && Distinct(before) && Anchor(before, visible, None).Some? && Whole(before, visible)
    ensures Whole(before + [x], visible)
  {
    OneMoreTrail(before, x, visible, None, None);
    VisibleGrows(before, x, visible);
    assert Visible(before + [x], visible) == Visible(before, visible);
    assert Trail(before + [x], visible, None, None) == Trail(before, visible, None, None);
    HiddenReassembles(before, x, visible);
    Regroup(Trail(before, visible, None, None), Follow(Visible(before, visible), before, visible), x);
  }

  lemma VisibleReassembles(before: seq<Key>, x: Key, visible: seq<Key>)
    requires x in visible && x !in before
    ensures var keys := Visible(before, visible);
            Follow(keys + [x], before + [x], visible) == Follow(keys, before, visible) + [x]
  {
    var keys := Visible(before, visible);
    FollowSame(keys, before, x, visible);
    OneMoreFollowed(keys, x, before + [x], visible);
    OneMoreTrail(before, x, visible, None, Some(x));
    NoTrailYet(before, visible, x);
    assert [x] + [] == [x];
  }

  lemma HiddenReassembles(before: seq<Key>, x: Key, visible: seq<Key>)
    requires x !in visible && Distinct(before)
    ensures var keys := Visible(before, visible);
            Follow(keys, before + [x], visible) ==
            Follow(keys, before, visible) + if Anchor(before, visible, None).Some? then [x] else []
  {
    var keys := Visible(before, visible);
    LastVisible(before, visible);
    FilterDistinct(before, (key: Key) => key in visible);
    if keys != [] {
      FollowOfLonger(keys, before, x, visible);
    }
  }

  lemma {:induction false} NoTrailYet(list: seq<Key>, visible: seq<Key>, k: Key)
    requires k !in list
    ensures Anchor(list, visible, None) != Some(k) && Trail(list, visible, None, Some(k)) == []
  {
    if list != [] {
      NoTrailYet(list[..|list| - 1], visible, k);
    }
  }

  lemma {:induction false} FollowSameVisible(keys: seq<Key>, full: seq<Key>, a: seq<Key>, b: seq<Key>)
    requires forall k | k in full :: k in a <==> k in b
    ensures Follow(keys, full, a) == Follow(keys, full, b) && Trail(full, a, None, None) == Trail(full, b, None, None)
  {
    SameTrail(full, a, b, None);
    if keys != [] {
      FollowSameVisible(keys[..|keys| - 1], full, a, b);
      SameTrail(full, a, b, Some(keys[|keys| - 1]));
    }
  }

  lemma {:induction false} SameTrail(full: seq<Key>, a: seq<Key>, b: seq<Key>, anchor: Option<Key>)
    requires forall k | k in full :: k in a <==> k in b
    ensures Trail(full, a, None, anchor) == Trail(full, b, None, anchor) && Anchor(full, a, None) == Anchor(full, b, None)
  {
    if full != [] {
      SameTrail(full[..|full| - 1], a, b, anchor);
    }
  }

  /** Putting the visible keys back in the order they had gives the list back. */
  lemma MergeOfUnmoved(full: seq<Key>, visible: seq<Key>)
    requires Distinct(full)
    ensures Merge(full, Visible(full, visible)) == full
  {
    Reassembles(full, visible);
    forall k | k in full ensures k in visible <==> k in Visible(full, visible) {
      FilterMember(full, (key: Key) => key in visible, k);
    }
    FollowSameVisible(Visible(full, visible), full, visible, Visible(full, visible));
  }

  /** The merged list is the only one that shows the drag and leaves the hidden
      keys behind their anchors. */
  lemma MergeIsUnique(full: seq<Key>, reordered: seq<Key>, other: seq<Key>)
    requires Distinct(reordered) && Distinct(other) && Visible(other, reordered) == reordered
    requires forall anchor :: Trail(other, reordered, None, anchor) == Trail(full, reordered, None, anchor)
    ensures other == Merge(full, reordered)
  {
    MergeOfUnmoved(other, reordered);
    FollowSameTrails(reordered, full, other, reordered);
  }

  lemma {:induction false} FollowSameTrails(keys: seq<Key>, a: seq<Key>, b: seq<Key>, visible: seq<Key>)
    requires forall anchor :: Trail(b, visible, None, anchor) == Trail(a, visible, None, anchor)
    ensures Follow(keys, a, visible) == Follow(keys, b, visible)
  {
    if keys != [] {
      FollowSameTrails(keys[..|keys| - 1], a, b, visible);
    }
  }

  // ---- narrow sheets -----------------------------------------------------------------------

  lemma FitIsVisible(full: seq<Key>, width: real)
    requires Distinct(full)
    ensures Distinct(Fit(full, width)) && (full != [] ==> Fit(full, width) != [])
    ensures Fit(full, width) == Visible(full, Fit(full, width))
  {
    var keep := (key: Key) => Priority(key) <= Budget(width);
    var kept := Filter(full, keep);
    FilterDistinct(full, keep);
    if kept != [] {
      forall x | x in full ensures keep(x) == (x in kept) {
        FilterMember(full, keep, x);
      }
      SameFilter(full, keep, (key: Key) => key in kept);
    } else if full != [] {
      FirstVisible(full);
    }
  }

  lemma {:induction false} SameFilter<T>(s: seq<T>, f: T -> bool, g: T -> bool)
    requires forall x | x in s :: f(x) == g(x)
    ensures Filter(s, f) == Filter(s, g)
  {
    if s != [] {
      SameFilter(s[..|s| - 1], f, g);
    }
  }

  lemma {:induction false} FirstVisible(full: seq<Key>)
    requires full != [] && Distinct(full)
    ensures Visible(full, full[..1]) == full[..1]
  {
    var first := full[..1];
    var keep := (key: Key) => key in first;
    assert full == first + full[1..];
    assert first == [] + [full[0]];
    FilterAppend(first, full[1..], keep);
    OneMoreFiltered([], full[0], keep);
    HiddenBlock(full[1..], first, None, None);
  }

  /** Narrowing loses nothing: an undisturbed narrow sheet folds back to the
      arrangement it came from, at every width. */
  lemma NarrowingIsLossless(full: seq<Key>, width: real)
    requires Distinct(full)
    ensures Merge(full, Fit(full, width)) == full
  {
    FitIsVisible(full, width);
    MergeOfUnmoved(full, Fit(full, width));
  }

  lemma {:induction false} OneKeyPermutation(a: seq<Key>, b: seq<Key>)
    requires |a| == 1 && multiset(a) == multiset(b)
    ensures a == b
  {
    assert |multiset(b)| == 1;
    assert a[0] in multiset(b);
  }

  /** After a drag is folded back the sheet shows exactly what the reader
      dragged, and the arrangement has lost and gained no column. */
  lemma DragIsShown(full: seq<Key>, reordered: seq<Key>, width: real)
    requires Distinct(full) && Distinct(reordered) && multiset(reordered) == multiset(Fit(full, width))
    ensures Fit(Merge(full, reordered), width) == reordered
    ensures multiset(Merge(full, reordered)) == multiset(full)
  {
    var keep := (key: Key) => Priority(key) <= Budget(width);
    FitIsVisible(full, width);
    SameKeys(reordered, Fit(full, width));
    forall k | k in reordered ensures k in full {
      FilterMember(full, keep, k);
    }
    MergeIsPermutation(full, reordered);
    if Filter(full, keep) != [] {
      KeptDragIsShown(full, reordered, keep);
    } else if full != [] {
      OneKeyPermutation(Fit(full, width), reordered);
      NarrowingIsLossless(full, width);
    }
  }

  lemma KeptDragIsShown(full: seq<Key>, reordered: seq<Key>, keep: Key -> bool)
    requires Distinct(reordered) && multiset(Merge(full, reordered)) == multiset(full)
    requires forall k :: k in reordered <==> k in Filter(full, keep)
    ensures Filter(Merge(full, reordered), keep) == reordered
  {
    var merged := Merge(full, reordered);
    SameKeys(merged, full);
    MergeKeepsTrails(full, reordered, None);
    forall x | x in merged ensures keep(x) == (x in reordered) {
      FilterMember(full, keep, x);
    }
    SameFilter(merged, keep, (key: Key) => key in reordered);
  }

  lemma SameKeys(a: seq<Key>, b: seq<Key>)
    requires multiset(a) == multiset(b)
    ensures |a| == |b| && forall k :: k in a <==> k in b
  {
    assert |multiset(a)| == |multiset(b)|;
    assert forall k :: k in a <==> k in multiset(a);
    assert forall k :: k in b <==> k in multiset(b);
  }
}
