/** The listing that a query returns: every matching document once, in some order. */
module Snapshot {
  function Elements(listed: seq<int>): set<int> { set id | id in listed }

  predicate Distinct(listed: seq<int>) { forall i, j | 0 <= i < j < |listed| :: listed[i] != listed[j] }

  method ListAll(ids: set<int>) returns (listed: seq<int>)
    ensures Elements(listed) == ids && Distinct(listed) && |listed| == |ids|
  {
    hide Elements;
    listed := [];
    NoElements();
    var rest := ids;
    while rest != {}
      invariant rest + Elements(listed) == ids && rest !! Elements(listed)
      invariant Distinct(listed) && |listed| + |rest| == |ids|
      decreases rest
    {
      SomeMember(rest);
      var id :| id in rest;
      OneMore(listed, id);
      rest, listed := rest - {id}, listed + [id];
    }
  }

  lemma SomeMember(s: set<int>)
    ensures s == {} || exists x :: x in s
  {
    if !(exists x :: x in s) { assert s == {}; }
  }

  lemma NoElements()
    ensures Elements([]) == {}
  {
  }

  lemma OneMore(listed: seq<int>, id: int)
    ensures Elements(listed + [id]) == Elements(listed) + {id}
    ensures id !in Elements(listed) && Distinct(listed) ==> Distinct(listed + [id])
  {
    if id !in Elements(listed) && Distinct(listed) {
      var grown := listed + [id];
      forall i, j | 0 <= i < j < |grown| ensures grown[i] != grown[j] {
        assert grown[i] == listed[i] && listed[i] in Elements(listed);
      }
    }
  }
}
