/** The event table as its queries see it: messages ordered by a unique id. */
module EventLog {
  import opened Tables
  import opened Clients

  const DRAIN_LIMIT: nat := 500
  const MAX_REPLAY: nat := 500

  function Id(m: Message): nat {
    if m.id.Some? then m.id.value else 0
  }

  predicate Sorted(rows: seq<Message>) {
    forall i, j | 0 <= i < j < |rows| :: Id(rows[i]) < Id(rows[j])
  }

  /** `where id > after order by id`, over a table kept in id order. */
  function Above(rows: seq<Message>, after: int): (above: seq<Message>)
    ensures forall m :: m in above <==> m in rows && Id(m) > after
    ensures Sorted(rows) ==> Sorted(above)
  {
    if rows == [] then []
    else
      var last := rows[|rows| - 1];
      var before := Above(rows[..|rows| - 1], after);
      if Id(last) > after then before + [last] else before
  }

  function Query(rows: seq<Message>, after: int, limit: nat): seq<Message> {
    var above := Above(rows, after);
    if |above| <= limit then above else above[..limit]
  }

  /** A row becomes visible in its place; ids are unique. */
  function Insert(rows: seq<Message>, m: Message): (next: seq<Message>)
    requires Sorted(rows) && forall r | r in rows :: Id(r) != Id(m)
    ensures Sorted(next) && forall r :: r in next <==> r == m || r in rows
  {
    if rows == [] then [m]
    else
      var last := rows[|rows| - 1];
      if Id(last) < Id(m) then rows + [m]
      else
        var rest := Insert(rows[..|rows| - 1], m);
        assert last in rows && forall r | r in rest :: Id(r) < Id(last);
        rest + [last]
  }

  function Newest(rows: seq<Message>): nat {
    if rows == [] then 0 else Id(rows[|rows| - 1])
  }

  lemma NewestIsGreatest(rows: seq<Message>)
    requires Sorted(rows)
    ensures forall m | m in rows :: Id(m) <= Newest(rows)
  {
  }

  lemma SortedOrder(rows: seq<Message>, i: nat, j: nat)
    requires Sorted(rows) && i < |rows| && j < |rows| && Id(rows[i]) <= Id(rows[j])
    ensures i <= j
  {
  }

  /** A limited query misses nothing at or below the last row it returns. */
  lemma QueryCovers(rows: seq<Message>, after: int, limit: nat)
    requires Sorted(rows) && limit > 0
    ensures var q := Query(rows, after, limit);
            Sorted(q) && (forall m | m in q :: m in rows && Id(m) > after) &&
            forall m | m in rows && after < Id(m) <= Newest(q) :: m in q
  {
    var above := Above(rows, after);
    var q := Query(rows, after, limit);
    forall m | m in rows && after < Id(m) <= Newest(q) ensures m in q {
      var i :| 0 <= i < |above| && above[i] == m;
      SortedOrder(above, i, |q| - 1);
      assert q[i] == m;
    }
  }

  lemma {:induction false} IdsSpread(rows: seq<Message>, after: int, i: nat)
    requires Sorted(rows) && (forall m | m in rows :: Id(m) > after) && i < |rows|
    ensures Id(rows[i]) >= after + 1 + i
  {
    if i > 0 {
      IdsSpread(rows, after, i - 1);
    }
  }

  /** The limit is enough for every row within that distance of `after`. */
  lemma LimitIsEnough(rows: seq<Message>, after: int, limit: nat, m: Message)
    requires Sorted(rows) && m in rows && after < Id(m) <= after + limit
    ensures m in Query(rows, after, limit)
  {
    var above := Above(rows, after);
    var i :| 0 <= i < |above| && above[i] == m;
    IdsSpread(above, after, i);
  }

  lemma OneRowPerId(rows: seq<Message>, x: Message, y: Message)
    requires Sorted(rows) && x in rows && y in rows && Id(x) == Id(y)
    ensures x == y
  {
    var i :| 0 <= i < |rows| && rows[i] == x;
    var j :| 0 <= j < |rows| && rows[j] == y;
    SortedOrder(rows, i, j);
    SortedOrder(rows, j, i);
  }

  lemma HasMember(rows: seq<Message>)
    requires rows != []
    ensures rows[|rows| - 1] in rows
  {
  }

  lemma WithoutNewest(a: seq<Message>, m: Message)
    requires Sorted(a) && a != []
    ensures m in a[..|a| - 1] <==> m in a && Id(m) < Newest(a)
  {
    var last := |a| - 1;
    if m in a && Id(m) < Newest(a) {
      var i :| 0 <= i < |a| && a[i] == m;
      assert a[..last][i] == m;
    }
  }

  lemma SameNewest(a: seq<Message>, b: seq<Message>)
    requires Sorted(a) && Sorted(b) && a != [] && b != [] && forall m :: m in a <==> m in b
    ensures a[|a| - 1] == b[|b| - 1]
  {
    HasMember(a);
    HasMember(b);
    NewestIsGreatest(a);
    NewestIsGreatest(b);
    OneRowPerId(a, a[|a| - 1], b[|b| - 1]);
  }

  /** Two listings in id order with the same rows are the same listing. */
  lemma {:induction false} SameMembers(a: seq<Message>, b: seq<Message>)
    requires Sorted(a) && Sorted(b) && forall m :: m in a <==> m in b
    ensures a == b
  {
    if a == [] || b == [] {
      if a != [] {
        HasMember(a);
      }
      if b != [] {
        HasMember(b);
      }
    } else {
      SameNewest(a, b);
      var a0, b0 := a[..|a| - 1], b[..|b| - 1];
      forall m ensures m in a0 <==> m in b0 {
        WithoutNewest(a, m);
        WithoutNewest(b, m);
      }
      SameMembers(a0, b0);
      assert a == a0 + [a[|a| - 1]];
    }
  }
}
