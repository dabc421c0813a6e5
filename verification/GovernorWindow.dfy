/**
 * What the cap of twenty keeps of the matches about a candidate's key: the first twenty of its group,
 * active beliefs before the others and then by identifier.
 */
module GovernorWindows {
  import opened Wrappers
  import opened Governance
  import opened GovernanceTheorems
  import opened Governor
  import opened Ranking

  /** Another listed belief of the same agent about the same key. */
  predicate Peer(listing: Beliefs, c: Id, p: Id) {
    && c in listing && p in listing && p != c
    && listing[p].agent == listing[c].agent && listing[p].key == listing[c].key
  }

  predicate Before(listing: Beliefs, x: Id, y: Id)
    requires x in listing && y in listing
  {
    if (listing[x].status == Active) != (listing[y].status == Active) then listing[x].status == Active else x.rank <= y.rank
  }

  /** The peers that were left out come after twenty that were not. */
  ghost predicate Window(listing: Beliefs, c: Id, near: set<Id>) {
    && (forall t :: t in near ==> Peer(listing, c, t))
    && |near| <= LIMIT
    && (forall t, v :: t in near && Peer(listing, c, v) && Before(listing, v, t) ==> v in near)
    && (forall t :: Peer(listing, c, t) && t !in near ==> FullBefore(listing, near, t))
  }

  ghost predicate FullBefore(listing: Beliefs, near: set<Id>, t: Id)
    requires t in listing
  {
    |near| == LIMIT && forall s :: s in near ==> s in listing && Before(listing, s, t)
  }

  function Targets(matches: seq<Match>): set<Id> {
    set m | m in matches :: m.target
  }

  /** The matches about the candidate's own key. */
  function Near(matches: seq<Match>): set<Id> {
    set m | m in matches && m.kind != SemanticDuplicate :: m.target
  }

  function ListedKind(listing: Beliefs, c: Id, p: Id): MatchType
    requires c in listing && p in listing
  {
    if SameFact(listing[p], listing[c]) then ExactDuplicate else Conflict
  }

  lemma {:induction false} TargetsCounted(matches: seq<Match>)
    requires forall i, j :: 0 <= i < j < |matches| ==> matches[i].target != matches[j].target
    ensures |Targets(matches)| == |matches|
    decreases |matches|
  {
    if |matches| > 0 {
      var n := |matches| - 1;
      TargetsCounted(matches[..n]);
      assert matches == matches[..n] + [matches[n]];
      assert Targets(matches) == Targets(matches[..n]) + {matches[n].target};
      assert matches[n].target !in Targets(matches[..n]);
    }
  }

  /** What was kept comes from the listing, each target once. */
  lemma KeptClassified(listing: Beliefs, c: Id, similar: Similarity, matches: seq<Match>, m: Match)
    requires c in listing && Kept(listing, c, similar, matches) && m in matches
    ensures m.target in listing && Classify(listing, c, m.target, similar) == Some(m)
    ensures m.kind != SemanticDuplicate ==> Peer(listing, c, m.target) && m.kind == ListedKind(listing, c, m.target)
  {
    assert m in AllMatches(listing, c, similar);
  }

  lemma KeptCounted(listing: Beliefs, c: Id, similar: Similarity, matches: seq<Match>)
    requires c in listing && Kept(listing, c, similar, matches)
    ensures |Targets(matches)| == |matches| <= LIMIT
  {
    forall i, j | 0 <= i < j < |matches| ensures matches[i].target != matches[j].target {
      KeptClassified(listing, c, similar, matches, matches[i]);
      KeptClassified(listing, c, similar, matches, matches[j]);
    }
    TargetsCounted(matches);
  }

  lemma {:induction false} NearBounded(listing: Beliefs, c: Id, similar: Similarity, matches: seq<Match>)
    requires c in listing && Kept(listing, c, similar, matches)
    ensures |Near(matches)| <= LIMIT
    ensures Near(matches) == Targets(matches) ==> |Near(matches)| == |matches|
  {
    KeptCounted(listing, c, similar, matches);
    SubsetSize(Near(matches), Targets(matches));
  }

  lemma {:induction false} SubsetSize(x: set<Id>, y: set<Id>)
    requires x <= y
    ensures |x| <= |y|
    ensures |x| == |y| ==> x == y
    decreases |x|
  {
    if x != {} {
      var e :| e in x;
      SubsetSize(x - {e}, y - {e});
      assert x == x - {e} + {e} && y == y - {e} + {e};
    }
  }

  /** A peer that was left out was crowded out by twenty peers before it. */
  lemma LeftOut(listing: Beliefs, c: Id, similar: Similarity, matches: seq<Match>, t: Id)
    requires c in listing && Kept(listing, c, similar, matches) && Peer(listing, c, t) && t !in Near(matches)
    ensures FullBefore(listing, Near(matches), t)
  {
    var mine := Match(t, ListedKind(listing, c, t));
    assert Classify(listing, c, t, similar) == Some(mine);
    assert mine in AllMatches(listing, c, similar);
    assert mine !in matches;
    forall m | m in matches ensures m.kind != SemanticDuplicate && m.target in listing && Before(listing, m.target, t) {
      KeptClassified(listing, c, similar, matches, m);
      OrderIsBefore(listing, c, similar, m, mine);
    }
    assert Near(matches) == Targets(matches);
    NearBounded(listing, c, similar, matches);
  }

  lemma OrderIsBefore(listing: Beliefs, c: Id, similar: Similarity, x: Match, y: Match)
    requires x.target in listing && y.target in listing && y.kind != SemanticDuplicate && MatchOrder(listing, similar)(x, y)
    ensures x.kind != SemanticDuplicate && Before(listing, x.target, y.target)
  {
  }

  lemma WindowOf(listing: Beliefs, c: Id, similar: Similarity, matches: seq<Match>)
    requires c in listing && Kept(listing, c, similar, matches)
    ensures Window(listing, c, Near(matches))
  {
    var near := Near(matches);
    forall t | t in near ensures Peer(listing, c, t) {
      var m :| m in matches && m.kind != SemanticDuplicate && m.target == t;
      KeptClassified(listing, c, similar, matches, m);
    }
    NearBounded(listing, c, similar, matches);
    forall t | Peer(listing, c, t) && t !in near ensures FullBefore(listing, near, t) {
      LeftOut(listing, c, similar, matches, t);
    }
    forall t, v | t in near && Peer(listing, c, v) && Before(listing, v, t) ensures v in near {
      if v !in near {
        LeftOut(listing, c, similar, matches, v);
      }
    }
  }

  /** The governor's candidate among the twenty peers it saw: who may still be alive once it was judged. */
  lemma NearIsMatched(listing: Beliefs, c: Id, similar: Similarity, matches: seq<Match>, t: Id)
    requires c in listing && Kept(listing, c, similar, matches) && t in Near(matches)
    ensures Match(t, ListedKind(listing, c, t)) in matches && Peer(listing, c, t)
  {
    var m :| m in matches && m.kind != SemanticDuplicate && m.target == t;
    KeptClassified(listing, c, similar, matches, m);
  }

  // ----- Windows of two candidates of the same group -----

  /** Twenty peers before t, none of them t or c, leave no room for t in the window of c. */
  lemma NoRoom(listing: Beliefs, c: Id, near: set<Id>, wide: set<Id>, t: Id)
    requires Window(listing, c, near) && Peer(listing, c, t)
    requires FullBefore(listing, wide, t) && t !in wide && forall v :: v in wide ==> Peer(listing, c, v)
    ensures t !in near
  {
    if t in near {
      assert forall v :: v in wide ==> v in near - {t};
      SubsetSize(wide, near - {t});
    }
  }

  function PeersOf(listing: Beliefs, c: Id): set<Id> {
    set p | p in listing && Peer(listing, c, p)
  }

  /** A group that fits the cap is seen whole. */
  lemma SmallGroupFits(listing: Beliefs, c: Id, near: set<Id>, t: Id)
    requires Window(listing, c, near) && Peer(listing, c, t) && |PeersOf(listing, c)| <= LIMIT
    ensures t in near
  {
    if t !in near {
      assert FullBefore(listing, near, t);
      assert near + {t} <= PeersOf(listing, c);
      SubsetSize(near + {t}, PeersOf(listing, c));
    }
  }
}
