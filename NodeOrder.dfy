/**
 * Peer identifiers and the deterministic leader rule.
 *
 * `getLeader` in the election engine sorts the active peers with the
 * default JavaScript `sort()`, which orders strings lexicographically by
 * code unit, and takes the first element. `NoLater` is the same
 * lexicographic order (its reflexive form) over code points, since a Dafny
 * `char` is a Unicode scalar value; the two agree on ids within the Basic
 * Multilingual Plane and differ only for characters above U+FFFF.
 * `GetLeader` is the least element of a set of peers.
 */
module NodeOrder {
  import opened Wrappers

  type NodeId = string

  /** `a` sorts no later than `b`: `a` is a prefix of `b`, or the first code point where they differ is smaller in `a`. */
  predicate NoLater(a: NodeId, b: NodeId)
    decreases |a|
  {
    |a| == 0 || (|b| != 0 && (a[0] < b[0] || (a[0] == b[0] && NoLater(a[1..], b[1..]))))
  }

  lemma {:induction false} NoLaterReflexive(a: NodeId)
    ensures NoLater(a, a)
    decreases |a|
  {
    if |a| != 0 {
      NoLaterReflexive(a[1..]);
    }
  }

  lemma {:induction false} NoLaterAntisymmetric(a: NodeId, b: NodeId)
    requires NoLater(a, b) && NoLater(b, a)
    ensures a == b
    decreases |a|
  {
    if |a| != 0 && |b| != 0 {
      NoLaterAntisymmetric(a[1..], b[1..]);
      assert a == [a[0]] + a[1..];
      assert b == [b[0]] + b[1..];
    }
  }

  lemma {:induction false} NoLaterTransitive(a: NodeId, b: NodeId, c: NodeId)
    requires NoLater(a, b) && NoLater(b, c)
    ensures NoLater(a, c)
    decreases |a|
  {
    if |a| != 0 && a[0] == b[0] && b[0] == c[0] {
      NoLaterTransitive(a[1..], b[1..], c[1..]);
    }
  }

  lemma {:induction false} NoLaterTotal(a: NodeId, b: NodeId)
    ensures NoLater(a, b) || NoLater(b, a)
    decreases |a|
  {
    if |a| != 0 && |b| != 0 && a[0] == b[0] {
      NoLaterTotal(a[1..], b[1..]);
    }
  }

  /** Two distinct identifiers are never tied: the order is a total order, so the leader rule has no ties to break. */
  lemma NoLaterStrictWhenDistinct(a: NodeId, b: NodeId)
    requires a != b
    ensures NoLater(a, b) != NoLater(b, a)
  {
    NoLaterTotal(a, b);
    if NoLater(a, b) && NoLater(b, a) {
      NoLaterAntisymmetric(a, b);
    }
  }

  /** `m` is a member of `nodes` sorting no later than every member. */
  predicate IsLeast(m: NodeId, nodes: set<NodeId>)
  {
    m in nodes && forall y :: y in nodes ==> NoLater(m, y)
  }

  lemma {:induction false} LeastExists(nodes: set<NodeId>)
    requires nodes != {}
    ensures exists m :: IsLeast(m, nodes)
    decreases nodes
  {
    var x :| x in nodes;
    NoLaterReflexive(x);
    if nodes == {x} {
      assert IsLeast(x, nodes);
    } else {
      LeastExists(nodes - {x});
      var m :| IsLeast(m, nodes - {x});
      NoLaterTotal(x, m);
      if NoLater(x, m) {
        forall y | y in nodes
          ensures NoLater(x, y)
        {
          if y != x {
            NoLaterTransitive(x, m, y);
          }
        }
        assert IsLeast(x, nodes);
      } else {
        assert IsLeast(m, nodes);
      }
    }
  }

  lemma {:induction false} LeastUnique(m: NodeId, m': NodeId, nodes: set<NodeId>)
    requires IsLeast(m, nodes) && IsLeast(m', nodes)
    ensures m == m'
  {
    NoLaterAntisymmetric(m, m');
  }

  /**
   * The leader rule: the first of the active peers once sorted, or
   * nothing (`undefined` in the source) when no peer is active.
   */
  function GetLeader(nodes: set<NodeId>): (leader: Option<NodeId>)
    ensures leader == None <==> nodes == {}
    ensures leader.Some? ==> leader.value in nodes
    ensures leader.Some? ==> forall y :: y in nodes ==> NoLater(leader.value, y)
  {
    if nodes == {} then None
    else
      LeastExists(nodes);
      assert forall m, m' :: IsLeast(m, nodes) && IsLeast(m', nodes) ==> m == m' by {
        forall m, m' | IsLeast(m, nodes) && IsLeast(m', nodes) ensures m == m' {
          LeastUnique(m, m', nodes);
        }
      }
      var m :| IsLeast(m, nodes);
      Some(m)
  }

  /** A listing of identifiers in non-decreasing `NoLater` order, as `sort()` leaves it. */
  predicate Sorted(xs: seq<NodeId>)
  {
    forall i, j :: 0 <= i < j < |xs| ==> NoLater(xs[i], xs[j])
  }

  /**
   * The leader is the head of ANY sorted listing of the active peers:
   * `[...activeNodes.values()].sort()[0]` does not depend on the set's
   * iteration order, and is `undefined` exactly for the empty set.
   */
  lemma {:induction false} LeaderIsHeadOfSorted(xs: seq<NodeId>)
    requires Sorted(xs)
    ensures GetLeader(set x | x in xs) == if xs == [] then None else Some(xs[0])
  {
    var nodes := set x | x in xs;
    if xs != [] {
      assert xs[0] in nodes;
      forall y | y in nodes
        ensures NoLater(xs[0], y)
      {
        var k :| 0 <= k < |xs| && xs[k] == y;
        if k == 0 {
          NoLaterReflexive(y);
        }
      }
      var leader := GetLeader(nodes).value;
      NoLaterAntisymmetric(leader, xs[0]);
    }
  }

  /**
   * Adding one peer changes the leader only if the newcomer sorts no later
   * than the old leader: the rule is an incremental minimum.
   */
  lemma LeaderAfterAdd(nodes: set<NodeId>, x: NodeId)
    ensures GetLeader(nodes + {x}) ==
      if nodes == {} || NoLater(x, GetLeader(nodes).value) then Some(x) else GetLeader(nodes)
  {
    var grown := nodes + {x};
    var l := GetLeader(grown).value;
    if nodes == {} {
      assert grown == {x};
    } else {
      var old_l := GetLeader(nodes).value;
      if NoLater(x, old_l) {
        forall y | y in grown
          ensures NoLater(x, y)
        {
          if y == x {
            NoLaterReflexive(x);
          } else {
            NoLaterTransitive(x, old_l, y);
          }
        }
        NoLaterAntisymmetric(l, x);
      } else {
        NoLaterTotal(x, old_l);
        forall y | y in grown
          ensures NoLater(old_l, y)
        {
        }
        NoLaterAntisymmetric(l, old_l);
      }
    }
  }
}
