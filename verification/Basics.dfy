/** Shared value types: optional values, message identifiers, bytes. */
module Basics {
  datatype Option<+T> = None | Some(value: T)

  /** A uuid7 seen only through its order, which is its creation order. */
  type Uuid = nat

  newtype Byte = b: int | 0 <= b < 256
  type Blob = seq<Byte>

  ghost predicate Increasing(r: seq<Uuid>) {
    forall i, j :: 0 <= i < j < |r| ==> r[i] < r[j]
  }

  /** `r` lists the members of `s` once each, smallest first. */
  ghost predicate Ascending(r: seq<Uuid>, s: set<Uuid>) {
    (forall u :: u in r <==> u in s) && Increasing(r)
  }

  predicate Least(m: Uuid, s: set<Uuid>) {
    m in s && forall x :: x in s ==> m <= x
  }

  /** The iteration order of a uuid-keyed B-tree, or of an `ORDER BY uuid7` query. */
  method InOrder(s: set<Uuid>) returns (r: seq<Uuid>)
    ensures Ascending(r, s)
  {
    r := [];
    var rest := s;
    while rest != {}
      invariant forall u :: u in s <==> u in rest || u in r
      invariant forall i, u :: 0 <= i < |r| && u in rest ==> r[i] < u
      invariant Increasing(r)
      decreases rest
    {
      LeastExists(rest);
      var m :| Least(m, rest);
      r := r + [m];
      rest := rest - {m};
    }
  }

  lemma {:induction false} LeastExists(s: set<Uuid>)
    requires s != {}
    ensures exists m :: Least(m, s)
    decreases s
  {
    var y :| y in s;
    var rest := s - {y};
    if rest == {} {
      assert s == {y};
      assert Least(y, s);
    } else {
      LeastExists(rest);
      var z :| Least(z, rest);
      assert s == rest + {y};
      assert Least(if y < z then y else z, s);
    }
  }
}
