/** Entity ids and the order in which the store lists them.
    Every timer and recovery query of the daemon ends in `ORDER BY id`; the loops of this
    model therefore walk `Ascending(ids)`. */
module Ids {
  import opened Basics

  type Id = string

  function Scalars(a: Id): (r: seq<nat>)
    ensures |r| == |a| && forall i | 0 <= i < |a| :: r[i] == a[i] as int
  {
    seq(|a|, i requires 0 <= i < |a| => a[i] as int)
  }

  /** Strict order by scalar value: SQLite's TEXT order and Rust's `str` order. */
  predicate Less(a: Id, b: Id) { Below(Scalars(a), Scalars(b)) }

  lemma LessTransitive(a: Id, b: Id, c: Id)
    requires Less(a, b) && Less(b, c)
    ensures Less(a, c)
  {
    BelowTransitive(Scalars(a), Scalars(b), Scalars(c));
  }

  lemma LessTotal(a: Id, b: Id)
    ensures Less(a, b) || Less(b, a) || a == b
    ensures !(Less(a, b) && Less(b, a))
    ensures a == b ==> !Less(a, b)
  {
    BelowTotal(Scalars(a), Scalars(b));
    assert Scalars(a) == Scalars(b) ==> a == b by {
      if Scalars(a) == Scalars(b) { assert forall i | 0 <= i < |a| :: Scalars(a)[i] == Scalars(b)[i]; }
    }
  }

  predicate IsLeast(m: Id, s: set<Id>) {
    m in s && forall x | x in s :: x == m || Less(m, x)
  }

  lemma {:induction false} LeastUnique(s: set<Id>)
    requires s != {}
    ensures exists m :: IsLeast(m, s)
    ensures forall a, b | IsLeast(a, s) && IsLeast(b, s) :: a == b
  {
    forall a, b | IsLeast(a, s) && IsLeast(b, s) ensures a == b { LessTotal(a, b); }
    var x :| x in s;
    if s == {x} {
      assert IsLeast(x, s);
    } else {
      assert !(s <= {x});
      LeastUnique(s - {x});
      var y :| IsLeast(y, s - {x});
      LessTotal(x, y);
      if Less(y, x) {
        assert IsLeast(y, s);
      } else {
        forall z | z in s && z != x && z != y ensures Less(x, z) { LessTransitive(x, y, z); }
        assert IsLeast(x, s);
      }
    }
  }

  function Least(s: set<Id>): (m: Id)
    requires s != {}
    ensures IsLeast(m, s)
  {
    LeastUnique(s);
    var m :| m in s && IsLeast(m, s);
    m
  }

  ghost predicate Sorted(r: seq<Id>) {
    forall i, j | 0 <= i < j < |r| :: Less(r[i], r[j])
  }

  /** The rows of a set of ids in ascending order, each once. */
  function Ascending(s: set<Id>): (r: seq<Id>)
    ensures forall x :: x in r <==> x in s
    ensures Sorted(r)
    ensures forall i, j | 0 <= i < j < |r| :: r[i] != r[j]
  {
    if s == {} then [] else
      var m := Least(s);
      var rest := Ascending(s - {m});
      assert forall j | 0 <= j < |rest| :: rest[j] in s - {m};
      [m] + rest
  }
}
