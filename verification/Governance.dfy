/**
 * The belief base of level 2 memories (src/memory/memory-repository.ts): candidates are merged,
 * disputed, activated and superseded.
 *
 * A structured belief has a key, its normalised subject and predicate, and a normalised object. It is
 * governed when it carries the current governance version.
 */
module Governance {
  import opened Wrappers

  /** The rank is the position in the collation order the source sorts identifiers by. */
  datatype Id = Id(rank: nat)
  datatype EventId = EventId(number: nat)
  type Time = int

  datatype Status = Candidate | Active | Disputed | Superseded | Forgotten

  datatype Belief = Belief(
    agent: string, key: Option<string>, value: string, status: Status, sources: set<EventId>,
    createdAt: Time, trust: int, validFrom: Option<Time>, validTo: Option<Time>, contradictions: set<Id>,
    governed: bool)

  type Beliefs = map<Id, Belief>

  /** The beliefs and the relations verified_by and contradicts, from source to target. */
  datatype Base = Base(beliefs: Beliefs, verifiedBy: set<(Id, Id)>, contradicts: set<(Id, Id)>)

  datatype MatchType = ExactDuplicate | Conflict | SemanticDuplicate
  datatype Match = Match(target: Id, kind: MatchType)

  datatype SourceType = Internal | Channel | External

  /** Who an event came from; agent and task are spelled "unknown" and "unscoped" when the event has none. */
  datatype Origin = Origin(source: SourceType, agent: string, task: string)

  /** The events table, and the threshold of the caller. */
  datatype Evidence = Evidence(events: map<EventId, Origin>, minimum: int)

  function Origins(ev: Evidence, sources: set<EventId>): set<Origin> {
    set e | e in sources && e in ev.events :: ev.events[e]
  }

  /** Events of the same origin count once; any evidence at all counts as one. */
  function Independent(ev: Evidence, sources: set<EventId>): nat {
    if sources == {} then 0 else if Origins(ev, sources) == {} then 1 else |Origins(ev, sources)|
  }

  predicate OnlyInternal(ev: Evidence, sources: set<EventId>) {
    sources != {} && forall o :: o in Origins(ev, sources) ==> o.source == Internal
  }

  /** No piece of evidence counts twice. */
  lemma {:induction false} IndependentBound(ev: Evidence, sources: set<EventId>)
    ensures Independent(ev, sources) <= |sources|
  {
    OriginsBound(ev, sources);
  }

  lemma {:induction false} OriginsBound(ev: Evidence, sources: set<EventId>)
    ensures |Origins(ev, sources)| <= |sources|
    decreases |sources|
  {
    if sources != {} {
      var e :| e in sources;
      OriginsBound(ev, sources - {e});
      if e in ev.events {
        assert Origins(ev, sources) == Origins(ev, sources - {e}) + {ev.events[e]};
      } else {
        assert Origins(ev, sources) == Origins(ev, sources - {e});
      }
    }
  }

  predicate Live(st: Status) {
    st == Candidate || st == Active || st == Disputed
  }

  predicate SamePredicate(a: Belief, b: Belief) {
    a.key == b.key
  }

  predicate SameFact(a: Belief, b: Belief) {
    a.key == b.key && a.value == b.value
  }

  // ----- governCandidate -----

  /** A match is used only if its target is another live belief of the same agent. */
  predicate Usable(b: Base, c: Id, t: Id)
    requires c in b.beliefs
  {
    t in b.beliefs && t != c && b.beliefs[t].agent == b.beliefs[c].agent && Live(b.beliefs[t].status)
  }

  predicate InvalidInterval(m: Belief) {
    m.validFrom.Some? && m.validTo.Some? && m.validTo.value <= m.validFrom.value
  }

  predicate Expired(m: Belief, now: Time) {
    m.validTo.Some? && m.validTo.value <= now
  }

  /** The candidate and the exact duplicates it was matched with. */
  function Equivalents(b: Base, c: Id, matches: set<Match>): set<Id>
    requires c in b.beliefs
  {
    {c} + set m | m in matches && m.kind == ExactDuplicate && Usable(b, c, m.target)
                  && SameFact(b.beliefs[m.target], b.beliefs[c]) :: m.target
  }

  /** Active beliefs first, then the oldest, then by identifier. */
  predicate NotAfter(bs: Beliefs, i: Id, j: Id)
    requires i in bs && j in bs
  {
    var x, y := bs[i], bs[j];
    if (x.status == Active) != (y.status == Active) then x.status == Active
    else x.createdAt < y.createdAt || (x.createdAt == y.createdAt && i.rank <= j.rank)
  }

  ghost predicate IsFirst(bs: Beliefs, ids: set<Id>, i: Id)
    requires ids <= bs.Keys
  {
    i in ids && forall j :: j in ids ==> NotAfter(bs, i, j)
  }

  lemma {:induction false} FirstExists(bs: Beliefs, ids: set<Id>)
    requires ids <= bs.Keys && ids != {}
    ensures exists i :: IsFirst(bs, ids, i)
    decreases |ids|
  {
    var i :| i in ids;
    if ids == {i} {
      assert IsFirst(bs, ids, i);
    } else {
      FirstExists(bs, ids - {i});
      var j :| IsFirst(bs, ids - {i}, j);
      var first := if NotAfter(bs, i, j) then i else j;
      forall k | k in ids ensures NotAfter(bs, first, k) {
        assert k == i || NotAfter(bs, j, k);
      }
      assert IsFirst(bs, ids, first);
    }
  }

  ghost function Canonical(bs: Beliefs, ids: set<Id>): (i: Id)
    requires ids <= bs.Keys && ids != {}
    ensures IsFirst(bs, ids, i)
  {
    FirstExists(bs, ids);
    var i :| IsFirst(bs, ids, i);
    i
  }

  function AllSources(bs: Beliefs, ids: set<Id>): set<EventId>
    requires ids <= bs.Keys
  {
    set i, e | i in ids && e in bs[i].sources :: e
  }

  ghost predicate IsMaxTrust(bs: Beliefs, ids: set<Id>, t: int)
    requires ids <= bs.Keys
  {
    (exists i :: i in ids && bs[i].trust == t) && forall i :: i in ids ==> bs[i].trust <= t
  }

  lemma {:induction false} MaxTrustExists(bs: Beliefs, ids: set<Id>)
    requires ids <= bs.Keys && ids != {}
    ensures exists t :: IsMaxTrust(bs, ids, t)
    decreases |ids|
  {
    var i :| i in ids;
    if ids == {i} {
      assert IsMaxTrust(bs, ids, bs[i].trust);
    } else {
      MaxTrustExists(bs, ids - {i});
      var t :| IsMaxTrust(bs, ids - {i}, t);
      assert IsMaxTrust(bs, ids, if t < bs[i].trust then bs[i].trust else t);
    }
  }

  ghost function MaxTrust(bs: Beliefs, ids: set<Id>): (t: int)
    requires ids <= bs.Keys && ids != {}
    ensures IsMaxTrust(bs, ids, t)
  {
    MaxTrustExists(bs, ids);
    var t :| IsMaxTrust(bs, ids, t);
    t
  }

  /** The duplicates are superseded in favour of the canonical belief, which takes over their evidence. */
  ghost function Merged(b: Base, ids: set<Id>, canonical: Id): Base
    requires ids <= b.beliefs.Keys && canonical in ids
  {
    if ids == {canonical} then b
    else
      b.(beliefs := map i | i in b.beliefs ::
           if i == canonical then
             b.beliefs[i].(sources := AllSources(b.beliefs, ids), trust := MaxTrust(b.beliefs, ids), governed := true)
           else if i in ids then b.beliefs[i].(status := Superseded, governed := true)
           else b.beliefs[i],
         verifiedBy := b.verifiedBy + set i | i in ids && i != canonical :: (i, canonical))
  }

  /** Matched beliefs that say something else about the canonical belief's key. */
  function Conflicts(b: Base, c: Id, canonical: Id, matches: set<Match>): set<Id>
    requires c in b.beliefs && canonical in b.beliefs
  {
    set m | m in matches && m.kind == Conflict && Usable(b, c, m.target)
            && SamePredicate(b.beliefs[m.target], b.beliefs[canonical])
            && b.beliefs[m.target].value != b.beliefs[canonical].value :: m.target
  }

  /** Both sides record the contradiction; the canonical belief is disputed unless it is active. */
  function Contradicted(b: Base, canonical: Id, conflicts: set<Id>): Base
    requires canonical in b.beliefs
  {
    if conflicts == {} then b
    else
      b.(beliefs := map i | i in b.beliefs ::
           if i == canonical then
             b.beliefs[i].(contradictions := b.beliefs[i].contradictions + conflicts,
                           status := if b.beliefs[i].status == Active then Active else Disputed, governed := true)
           else if i in conflicts then
             b.beliefs[i].(contradictions := b.beliefs[i].contradictions + {canonical}, governed := true)
           else b.beliefs[i],
         contradicts := b.contradicts + (set i | i in conflicts :: (canonical, i)) + (set i | i in conflicts :: (i, canonical)))
  }

  function AtLeastOne(n: int): int {
    if n < 1 then 1 else n
  }

  predicate MayActivate(m: Belief, conflicts: set<Id>, ev: Evidence, now: Time) {
    && m.status == Candidate && conflicts == {}
    && Independent(ev, m.sources) >= AtLeastOne(ev.minimum) && m.trust >= 80 && OnlyInternal(ev, m.sources)
    && (m.validFrom.Some? ==> m.validFrom.value <= now)
  }

  /** The governor's mark on a belief it has decided about, with the status it gets. */
  function Decide(b: Base, i: Id, st: Status): Base
    requires i in b.beliefs
  {
    b.(beliefs := b.beliefs[i := b.beliefs[i].(status := st, governed := true)])
  }

  datatype Action = Absent | WentStale | WasInvalid | Retained | Activated | MergedInto | WasDisputed

  /** The candidate after its interval was found to be in order. */
  ghost function Judge(b: Base, c: Id, matches: set<Match>, ev: Evidence, now: Time): (r: (Base, Action))
    requires c in b.beliefs
  {
    var ids := Equivalents(b, c, matches);
    var canonical := Canonical(b.beliefs, ids);
    var merged := Merged(b, ids, canonical);
    var conflicts := Conflicts(b, c, canonical, matches);
    var judged := Contradicted(merged, canonical, conflicts);
    if MayActivate(judged.beliefs[canonical], conflicts, ev, now)
    then (Decide(judged, canonical, Active), if canonical == c then Activated else MergedInto)
    else
      (Decide(judged, canonical, judged.beliefs[canonical].status),
       if conflicts != {} then (if canonical == c then WasDisputed else MergedInto)
       else if ids == {canonical} then Retained else MergedInto)
  }

  ghost function Govern(b: Base, c: Id, matches: set<Match>, ev: Evidence, now: Time): (Base, Action) {
    if c !in b.beliefs || b.beliefs[c].status != Candidate then (b, Absent)
    else if InvalidInterval(b.beliefs[c]) then (Decide(b, c, Disputed), WasInvalid)
    else if Expired(b.beliefs[c], now) then (Decide(b, c, Superseded), WentStale)
    else Judge(b, c, matches, ev, now)
  }

  // ----- confirmCandidate, editCandidate, forget, retention, extraction -----

  /** The active beliefs of the same agent, without the candidate itself. */
  function Peers(b: Base, c: Id): set<Id>
    requires c in b.beliefs
  {
    set i | i in b.beliefs && i != c && b.beliefs[i].agent == b.beliefs[c].agent && b.beliefs[i].status == Active
  }

  function SamePeers(b: Base, c: Id): set<Id>
    requires c in b.beliefs
  {
    set i | i in Peers(b, c) && SameFact(b.beliefs[i], b.beliefs[c])
  }

  function OtherPeers(b: Base, c: Id): set<Id>
    requires c in b.beliefs
  {
    set i | i in Peers(b, c) && SamePredicate(b.beliefs[i], b.beliefs[c]) && b.beliefs[i].value != b.beliefs[c].value
  }

  /** A confirmed duplicate is merged into the active belief peer. */
  function ConfirmInto(b: Base, c: Id, peer: Id): Base
    requires c in b.beliefs && peer in b.beliefs && peer != c
  {
    b.(beliefs := b.beliefs[peer := b.beliefs[peer].(sources := b.beliefs[peer].sources + b.beliefs[c].sources, governed := true)]
                           [c := b.beliefs[c].(status := Superseded, governed := true)],
       verifiedBy := b.verifiedBy + {(c, peer)})
  }

  /** A confirmed belief becomes active in place of those that contradict it. */
  function ConfirmOver(b: Base, c: Id): Base
    requires c in b.beliefs
  {
    b.(beliefs := map i | i in b.beliefs ::
         if i == c then b.beliefs[i].(status := Active, contradictions := {}, governed := true)
         else if i in OtherPeers(b, c) then b.beliefs[i].(status := Superseded)
         else b.beliefs[i])
  }

  ghost predicate ConfirmedTo(b: Base, c: Id, now: Time, b': Base) {
    if c !in b.beliefs || (b.beliefs[c].status != Candidate && b.beliefs[c].status != Disputed)
       || InvalidInterval(b.beliefs[c]) || Expired(b.beliefs[c], now) then b' == b
    else if SamePeers(b, c) != {} then exists peer :: peer in SamePeers(b, c) && b' == ConfirmInto(b, c, peer)
    else b' == ConfirmOver(b, c)
  }

  /** An edit gives a belief that is not active yet a key and object of its own, to be governed anew. */
  function Edit(b: Base, c: Id, key: string, value: string): Base {
    if c !in b.beliefs || (b.beliefs[c].status != Candidate && b.beliefs[c].status != Disputed) then b
    else b.(beliefs := b.beliefs[c := b.beliefs[c].(key := Some(key), value := value, governed := false)])
  }

  /** A forgotten belief leaves the contradiction lists of those it is related to. */
  function Forget(b: Base, i: Id): Base {
    if i !in b.beliefs then b
    else
      b.(beliefs := map j | j in b.beliefs ::
           var m := if (i, j) in b.contradicts || (j, i) in b.contradicts
                    then b.beliefs[j].(contradictions := b.beliefs[j].contradictions - {i}) else b.beliefs[j];
           if j == i then m.(status := Forgotten) else m)
  }

  /** Retention: the active beliefs that were not updated since the cutoff. */
  function Retire(b: Base, stale: set<Id>): Base {
    b.(beliefs := map i | i in b.beliefs ::
         if i in stale && b.beliefs[i].status == Active then b.beliefs[i].(status := Superseded) else b.beliefs[i])
  }

  /** Candidates past their retention are forgotten, without touching the relations. */
  function Lapse(b: Base, expired: set<Id>): Base {
    b.(beliefs := map i | i in b.beliefs ::
         if i in expired && b.beliefs[i].status == Candidate then b.beliefs[i].(status := Forgotten, governed := false) else b.beliefs[i])
  }

  /** An extracted belief has one source, the event it was found in. */
  function Extract(b: Base, i: Id, m: Belief, event: EventId): Base {
    if i in b.beliefs then b
    else b.(beliefs := b.beliefs[i := m.(status := Candidate, sources := {event}, contradictions := {}, governed := false)])
  }

  datatype Op =
    | DoExtract(id: Id, belief: Belief, event: EventId)
    | DoGovern(id: Id, matches: set<Match>, evidence: Evidence, now: Time)
    | DoConfirm(id: Id, now: Time)
    | DoEdit(id: Id, key: string, value: string)
    | DoForget(id: Id)
    | DoRetire(ids: set<Id>)
    | DoLapse(ids: set<Id>)

  /** One operation; confirm may pick any active duplicate, of which there is at most one. */
  ghost predicate Step(b: Base, op: Op, b': Base) {
    match op
    case DoExtract(i, m, event) => b' == Extract(b, i, m, event)
    case DoGovern(c, matches, ev, now) => b' == Govern(b, c, matches, ev, now).0
    case DoConfirm(c, now) => ConfirmedTo(b, c, now, b')
    case DoEdit(c, key, value) => b' == Edit(b, c, key, value)
    case DoForget(i) => b' == Forget(b, i)
    case DoRetire(ids) => b' == Retire(b, ids)
    case DoLapse(ids) => b' == Lapse(b, ids)
  }

  /** States and operations in turn. */
  ghost predicate IsRun(states: seq<Base>, ops: seq<Op>) {
    |states| == |ops| + 1 && forall i :: 0 <= i < |ops| ==> Step(states[i], ops[i], states[i + 1])
  }
}
