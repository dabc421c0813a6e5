/**
 * Nested envelopes: what a reservation was given is still all there, in itself and below it.
 *
 * A reservation may be drawn on by children, and these by children of their own.  For every
 * reservation that is not finished, at every moment of a disciplined run, the amount it was created
 * with equals what it still holds plus, over everything drawn from it at any depth, what the
 * unfinished ones hold and what the settled ones spent.  Released and late-settled ones count for
 * nothing.
 */
module LedgerEnvelopes {
  import opened Wrappers
  import opened Totals
  import opened BudgetVectors
  import opened LedgerModel
  import opened LedgerFrames
  import opened LedgerInvariants

  /** p is reached from g by following n parent links. */
  ghost predicate Above(rs: Reservations, p: Id, g: Id, n: nat)
    decreases n
  {
    n > 0 && g in rs && rs[g].parent.Some? && (if n == 1 then rs[g].parent.value == p else Above(rs, p, rs[g].parent.value, n - 1))
  }

  ghost predicate Below(rs: Reservations, g: Id, p: Id) {
    exists n: nat :: Above(rs, p, g, n)
  }

  /** Everything drawn from p, at any depth. */
  ghost function Drawn(rs: Reservations, p: Id): Reservations {
    map g | g in rs && Below(rs, g, p) :: rs[g]
  }

  ghost function Held(d: Dimension): Reservation -> int {
    (r: Reservation) =>
      if Unfinished(r.state) then At(r.remaining, d)
      else if r.state == Settled && r.settled.Some? then At(r.settled.value, d)
      else 0
  }

  ghost predicate EnvelopeFull(rs: Reservations, p: Id, d: Dimension)
    requires p in rs
  {
    Unfinished(rs[p].state) ==> At(rs[p].reserved, d) == At(rs[p].remaining, d) + Total(Drawn(rs, p), Held(d))
  }

  ghost predicate Envelopes(rs: Reservations) {
    forall p, d :: p in rs ==> EnvelopeFull(rs, p, d)
  }

  ghost predicate Acyclic(rs: Reservations) {
    forall g :: g in rs ==> !Below(rs, g, g)
  }

  /** A finished reservation that has a parent has no live children. */
  ghost predicate ChildIsClosed(rs: Reservations, id: Id)
    requires id in rs
  {
    rs[id].parent.Some? && !Unfinished(rs[id].state) ==> !HasActiveChildren(rs, id)
  }

  ghost predicate EnvelopeInv(s: Ledger) {
    && WellFormed(s) && Acyclic(s.reservations) && Envelopes(s.reservations)
    && (forall id :: id in s.reservations ==> ChildIsClosed(s.reservations, id))
  }

  // ----- The shape of the forest -----

  lemma BelowByLink(rs: Reservations, g: Id, p: Id)
    requires g in rs && rs[g].parent.Some?
    ensures Below(rs, g, p) <==> (rs[g].parent.value == p || Below(rs, rs[g].parent.value, p))
  {
    if rs[g].parent.value == p {
      assert Above(rs, p, g, 1);
    }
    if Below(rs, rs[g].parent.value, p) {
      var n: nat :| Above(rs, p, rs[g].parent.value, n);
      assert Above(rs, p, g, n + 1);
    }
    if Below(rs, g, p) && rs[g].parent.value != p {
      var n: nat :| Above(rs, p, g, n);
      assert Above(rs, p, rs[g].parent.value, n - 1);
    }
  }

  /** Being below is transitive. */
  lemma {:induction false} AboveTransitive(rs: Reservations, p: Id, q: Id, g: Id, n: nat, m: nat)
    requires Above(rs, q, g, n) && Above(rs, p, q, m)
    ensures Above(rs, p, g, n + m)
    decreases n
  {
    if n > 1 {
      AboveTransitive(rs, p, q, rs[g].parent.value, n - 1, m);
    }
  }

  /** Every link leads to a row. */
  ghost predicate ParentsKnown(rs: Reservations) {
    forall id :: id in rs && rs[id].parent.Some? ==> rs[id].parent.value in rs
  }

  ghost predicate SameLinks(rs: Reservations, rt: Reservations) {
    rs.Keys <= rt.Keys && forall id :: id in rs ==> rt[id].parent == rs[id].parent
  }

  lemma {:induction false} AboveKept(rs: Reservations, rt: Reservations, p: Id, g: Id, n: nat)
    requires ParentsKnown(rs) && SameLinks(rs, rt) && g in rs
    ensures Above(rs, p, g, n) <==> Above(rt, p, g, n)
    decreases n
  {
    if n > 1 && rs[g].parent.Some? {
      AboveKept(rs, rt, p, rs[g].parent.value, n - 1);
    }
  }

  /** A row that existed is below the same rows after a step as before it. */
  lemma BelowKept(rs: Reservations, rt: Reservations, p: Id, g: Id)
    requires ParentsKnown(rs) && SameLinks(rs, rt) && g in rs
    ensures Below(rs, g, p) <==> Below(rt, g, p)
  {
    forall n: nat ensures Above(rs, p, g, n) <==> Above(rt, p, g, n) {
      AboveKept(rs, rt, p, g, n);
    }
  }

  /** Only rows that exist have something below them. */
  lemma {:induction false} AboveIsKnown(rs: Reservations, p: Id, g: Id, n: nat)
    requires ParentsKnown(rs) && Above(rs, p, g, n)
    ensures p in rs
    decreases n
  {
    if n > 1 {
      AboveIsKnown(rs, p, rs[g].parent.value, n - 1);
    }
  }

  lemma BelowIsKnown(rs: Reservations, p: Id, g: Id)
    requires ParentsKnown(rs) && Below(rs, g, p)
    ensures p in rs
  {
    var n: nat :| Above(rs, p, g, n);
    AboveIsKnown(rs, p, g, n);
  }

  lemma LinkedParents(s: Ledger)
    requires AllLinked(s)
    ensures ParentsKnown(s.reservations)
  {
  }

  lemma EvolvedLinks(s: Ledger, t: Ledger)
    requires Evolves(s, t)
    ensures SameLinks(s.reservations, t.reservations)
  {
  }

  lemma StepAcyclic(s: Ledger, op: Op)
    requires AllLinked(s) && Acyclic(s.reservations)
    ensures Acyclic(Step(s, op).reservations)
  {
    var t := Step(s, op);
    var rs, rt := s.reservations, t.reservations;
    StepEvolves(s, op);
    EvolvedLinks(s, t);
    LinkedParents(s);
    forall g | g in rt ensures !Below(rt, g, g) {
      if g in rs {
        BelowKept(rs, rt, g, g);
      } else {
        NewRow(s, op, g);
        if rt[g].parent.Some? {
          var q := rt[g].parent.value;
          BelowByLink(rt, g, g);
          BelowKept(rs, rt, g, q);
          if Below(rs, q, g) {
            BelowIsKnown(rs, g, q);
          }
        }
      }
    }
  }

  // ----- One commit -----

  /** What was drawn from p, with the parent's row already replaced. */
  ghost function DrawnWithParent(s: Ledger, e: Effect, p: Id): Reservations
    requires e.Write? && Writable(s, e)
  {
    if e.parent.Some? && Below(s.reservations, e.parent.value.reservation, p)
    then Drawn(s.reservations, p)[e.parent.value.reservation := ParentRow(s, e)]
    else Drawn(s.reservations, p)
  }

  lemma CommittedRow(s: Ledger, e: Effect, g: Id)
    requires e.Write? && Writable(s, e) && g in Commit(s, e).reservations
    ensures g == e.id ==> Commit(s, e).reservations[g] == e.row
    ensures g != e.id && e.parent.Some? && g == e.parent.value.reservation ==> Commit(s, e).reservations[g] == ParentRow(s, e)
    ensures g != e.id && !(e.parent.Some? && g == e.parent.value.reservation) ==>
              g in s.reservations && Commit(s, e).reservations[g] == s.reservations[g]
    ensures g != e.id ==> g in s.reservations
  {
  }

  lemma BelowAfter(s: Ledger, e: Effect, p: Id, g: Id)
    requires AllLinked(s) && e.Write? && Writable(s, e) && g in s.reservations
    ensures Below(Commit(s, e).reservations, g, p) <==> Below(s.reservations, g, p)
  {
    LinkedParents(s);
    CommitEvolves(s, e);
    EvolvedLinks(s, Commit(s, e));
    BelowKept(s.reservations, Commit(s, e).reservations, p, g);
  }

  lemma DrawnMember(s: Ledger, e: Effect, p: Id, g: Id)
    requires AllLinked(s) && e.Write? && Writable(s, e) && g != e.id
    ensures g in Drawn(Commit(s, e).reservations, p) <==> g in DrawnWithParent(s, e, p)
    ensures g in DrawnWithParent(s, e, p) ==> Drawn(Commit(s, e).reservations, p)[g] == DrawnWithParent(s, e, p)[g]
  {
    if g in s.reservations {
      BelowAfter(s, e, p, g);
    }
    if g in Commit(s, e).reservations {
      CommittedRow(s, e, g);
    }
  }

  lemma DrawnAfter(s: Ledger, e: Effect, p: Id)
    requires AllLinked(s) && e.Write? && Writable(s, e)
    ensures var rt := Commit(s, e).reservations;
            Drawn(rt, p) == if Below(rt, e.id, p) then DrawnWithParent(s, e, p)[e.id := e.row] else DrawnWithParent(s, e, p)
    ensures e.id in s.reservations ==> (Below(Commit(s, e).reservations, e.id, p) <==> Below(s.reservations, e.id, p))
  {
    if e.id in s.reservations {
      BelowAfter(s, e, p, e.id);
    }
    var drawn, after := Drawn(Commit(s, e).reservations, p), DrawnThen(s, e, p);
    forall g ensures g in drawn <==> g in after
             ensures g in after ==> drawn[g] == after[g]
    {
      DrawnAfterAt(s, e, p, g);
    }
    assert drawn.Keys == after.Keys;
  }

  ghost function DrawnThen(s: Ledger, e: Effect, p: Id): Reservations
    requires AllLinked(s) && e.Write? && Writable(s, e)
  {
    if Below(Commit(s, e).reservations, e.id, p) then DrawnWithParent(s, e, p)[e.id := e.row] else DrawnWithParent(s, e, p)
  }

  lemma DrawnAfterAt(s: Ledger, e: Effect, p: Id, g: Id)
    requires AllLinked(s) && e.Write? && Writable(s, e)
    requires e.id in s.reservations ==> (Below(Commit(s, e).reservations, e.id, p) <==> Below(s.reservations, e.id, p))
    ensures g in Drawn(Commit(s, e).reservations, p) <==> g in DrawnThen(s, e, p)
    ensures g in DrawnThen(s, e, p) ==> Drawn(Commit(s, e).reservations, p)[g] == DrawnThen(s, e, p)[g]
  {
    if g != e.id {
      DrawnMember(s, e, p, g);
    } else {
      CommittedRow(s, e, e.id);
    }
  }

  /** How the sum over what was drawn from p moves with a commit. */
  lemma DrawnMoves(s: Ledger, e: Effect, p: Id, w: Reservation -> int)
    requires AllLinked(s) && e.Write? && Writable(s, e)
    ensures var rs, rt := s.reservations, Commit(s, e).reservations;
            Total(Drawn(rt, p), w) == Total(Drawn(rs, p), w)
              + (if e.parent.Some? && Below(rs, e.parent.value.reservation, p)
                 then w(ParentRow(s, e)) - w(rs[e.parent.value.reservation]) else 0)
              + (if Below(rt, e.id, p) then w(e.row) - (if e.id in rs then w(rs[e.id]) else 0) else 0)
  {
    var rs, rt := s.reservations, Commit(s, e).reservations;
    DrawnAfter(s, e, p);
    var base, mid := Drawn(rs, p), DrawnWithParent(s, e, p);
    if e.parent.Some? && Below(rs, e.parent.value.reservation, p) {
      TotalUpdate(base, w, e.parent.value.reservation, ParentRow(s, e));
    }
    if Below(rt, e.id, p) {
      if e.id in rs {
        TotalUpdate(mid, w, e.id, e.row);
      } else {
        TotalInsert(mid, w, e.id, e.row);
      }
    }
  }

  /** The entry of an effect in its parent's envelope balances. */
  ghost predicate Balances(s: Ledger, e: Effect, d: Dimension)
    requires e.Write? && Writable(s, e)
  {
    Held(d)(e.row) - (if e.id in s.reservations then Held(d)(s.reservations[e.id]) else 0) + Regained(s, e, d) == 0
  }

  /** The parent an effect credits or debits is the row's parent, and is live if it has a parent itself. */
  ghost predicate ParentEntry(s: Ledger, e: Effect)
    requires e.Write? && Writable(s, e)
  {
    e.parent.Some? ==>
      && e.row.parent == Some(e.parent.value.reservation)
      && (s.reservations[e.parent.value.reservation].parent.Some? ==> Unfinished(s.reservations[e.parent.value.reservation].state))
  }

  lemma CommitEnvelopeAbove(s: Ledger, e: Effect, p: Id, d: Dimension)
    requires AllLinked(s) && Acyclic(s.reservations) && e.Write? && Writable(s, e) && p in s.reservations && p != e.id
    requires EnvelopeFull(s.reservations, p, d) && ParentEntry(s, e)
    requires e.parent.Some? || Below(Commit(s, e).reservations, e.id, p) ==> Balances(s, e, d)
    ensures p in Commit(s, e).reservations && EnvelopeFull(Commit(s, e).reservations, p, d)
  {
    DrawnMoves(s, e, p, Held(d));
    if e.parent.Some? {
      ParentPlace(s, e, p);
    }
  }

  /** Where the parent of the written row stands: the row is below what its parent is or is below. */
  lemma ParentPlace(s: Ledger, e: Effect, p: Id)
    requires AllLinked(s) && Acyclic(s.reservations) && e.Write? && Writable(s, e) && p in s.reservations
    requires e.parent.Some? && ParentEntry(s, e)
    ensures var rs, q := s.reservations, e.parent.value.reservation;
            && (Below(Commit(s, e).reservations, e.id, p) <==> q == p || Below(rs, q, p))
            && !Below(rs, q, q) && (Below(rs, q, p) ==> rs[q].parent.Some?)
  {
    var rs, rt, q := s.reservations, Commit(s, e).reservations, e.parent.value.reservation;
    CommittedRow(s, e, e.id);
    BelowByLink(rt, e.id, p);
    LinkedParents(s);
    CommitEvolves(s, e);
    EvolvedLinks(s, Commit(s, e));
    BelowKept(rs, rt, p, q);
    if Below(rs, q, p) {
      HasParent(rs, q, p);
    }
  }

  lemma HasParent(rs: Reservations, g: Id, p: Id)
    requires Below(rs, g, p)
    ensures g in rs && rs[g].parent.Some?
  {
  }

  /** Nothing has been drawn from a row that has just been added. */
  lemma NewEnvelope(s: Ledger, op: Op, id: Id, d: Dimension)
    requires AllLinked(s) && id in Step(s, op).reservations && id !in s.reservations
    ensures EnvelopeFull(Step(s, op).reservations, id, d)
  {
    var t := Step(s, op);
    StepLinks(s, op);
    NewRow(s, op, id);
    forall g | g in t.reservations ensures !Below(t.reservations, g, id) {
      if Below(t.reservations, g, id) {
        NothingBelowNew(s, op, id, g);
      }
    }
    assert Drawn(t.reservations, id) == map[];
  }

  lemma NothingBelowNew(s: Ledger, op: Op, id: Id, g: Id)
    requires AllLinked(s) && id in Step(s, op).reservations && id !in s.reservations
    requires g in Step(s, op).reservations
    ensures !Below(Step(s, op).reservations, g, id)
  {
    var t := Step(s, op);
    StepEvolves(s, op);
    EvolvedLinks(s, t);
    LinkedParents(s);
    var known := g;
    if g !in s.reservations {
      NewRow(s, op, g);
      if t.reservations[g].parent.None? {
        if Below(t.reservations, g, id) {
          HasParent(t.reservations, g, id);
        }
      } else {
        BelowByLink(t.reservations, g, id);
        known := t.reservations[g].parent.value;
        NewRow(s, op, id);
      }
    }
    if known in s.reservations {
      BelowKept(s.reservations, t.reservations, id, known);
      if Below(s.reservations, known, id) {
        BelowIsKnown(s.reservations, id, known);
      }
    }
  }

  // ----- The operations -----

  lemma RowEntries(s: Ledger, op: Op, d: Dimension)
    requires EnvelopeInv(s) && Disciplined(s, op)
    requires !op.SetProgram? && Decide(s, op).Success? && Decide(s, op).value.Write?
    ensures Writable(s, Decide(s, op).value)
    ensures ParentEntry(s, Decide(s, op).value)
    ensures Decide(s, op).value.row.parent.Some? ==> Balances(s, Decide(s, op).value, d)
    ensures Unfinished(Decide(s, op).value.row.state) && Decide(s, op).value.id in s.reservations ==>
              Unfinished(s.reservations[Decide(s, op).value.id].state) && Decide(s, op).value.parent.None?
              && Decide(s, op).value.row.remaining == s.reservations[Decide(s, op).value.id].remaining
  {
    DecisionWritable(s, op);
    match op
    case DoReserve(i) => ReserveRow(s, i); ReserveEntry(s, i, d);
    case DoActivate(id, expected, request) => TransitionRow(s, op);
    case DoMarkUncertain(id, expected) => TransitionRow(s, op);
    case DoRelease(id, expected) => ReleaseRow(s, id, expected); ReleaseEntry(s, id, expected, d);
    case DoSettle(i) => SettleRow(s, i); SettleEntry(s, i, d);
  }

  lemma ReserveEntry(s: Ledger, i: ReserveInput, d: Dimension)
    requires Reserve(s, i).Success? && Reserve(s, i).value.Write? && Writable(s, Reserve(s, i).value)
    ensures ParentEntry(s, Reserve(s, i).value)
    ensures i.parent.Some? ==> Balances(s, Reserve(s, i).value, d)
  {
    ReserveRow(s, i);
    if i.parent.Some? {
      assert Reserve(s, i) == ReserveUnderParent(s, i);
    }
  }

  /** The parent of a live row is live, unless it is a top-level reservation. */
  lemma LiveParent(s: Ledger, id: Id)
    requires AllLinked(s) && id in s.reservations && Unfinished(s.reservations[id].state) && s.reservations[id].parent.Some?
    requires s.reservations[id].parent.value in s.reservations ==> ChildIsClosed(s.reservations, s.reservations[id].parent.value)
    ensures s.reservations[id].parent.value in s.reservations
    ensures s.reservations[s.reservations[id].parent.value].parent.Some? ==>
              Unfinished(s.reservations[s.reservations[id].parent.value].state)
  {
  }

  lemma ReleaseEntry(s: Ledger, id: Id, expected: nat, d: Dimension)
    requires AllLinked(s) && forall j :: j in s.reservations ==> ChildIsClosed(s.reservations, j)
    requires Release(s, id, expected).Success? && Release(s, id, expected).value.Write? && Writable(s, Release(s, id, expected).value)
    ensures ParentEntry(s, Release(s, id, expected).value)
    ensures s.reservations[id].parent.Some? ==> Balances(s, Release(s, id, expected).value, d)
  {
    ReleaseRow(s, id, expected);
    if s.reservations[id].parent.Some? {
      LiveParent(s, id);
      assert Release(s, id, expected) == ReleaseToParent(s, id, s.reservations[id].parent.value);
    } else {
      assert Release(s, id, expected) == ReleaseToAccount(s, id);
    }
  }

  lemma SettleChildEntry(s: Ledger, i: SettleInput, p: Id, d: Dimension)
    requires Settleable(s, i) && Unfinished(s.reservations[i.reservation].state) && Untouched(s.reservations[i.reservation])
    requires s.reservations[i.reservation].parent == Some(p)
    requires SettleChild(s, i, p).Success? && Writable(s, SettleChild(s, i, p).value)
    ensures Balances(s, SettleChild(s, i, p).value, d)
  {
    assert At(s.reservations[i.reservation].remaining, d) == At(s.reservations[i.reservation].reserved, d);
    ChildRegains(s, i, p, d);
    FinishedBalances(s, SettleChild(s, i, p).value, d);
  }

  lemma FinishedBalances(s: Ledger, e: Effect, d: Dimension)
    requires e.Write? && Writable(s, e) && e.id in s.reservations && Unfinished(s.reservations[e.id].state)
    requires e.row.state == Settled && e.row.settled.Some?
    requires At(e.row.settled.value, d) + Regained(s, e, d) == At(s.reservations[e.id].remaining, d)
    ensures Balances(s, e, d)
  {
  }

  /** The parent regains what the child did not use. */
  lemma ChildRegains(s: Ledger, i: SettleInput, p: Id, d: Dimension)
    requires Settleable(s, i) && SettleChild(s, i, p).Success? && Writable(s, SettleChild(s, i, p).value)
    ensures Regained(s, SettleChild(s, i, p).value, d) == At(s.reservations[i.reservation].reserved, d) - At(i.actual, d)
  {
    var unused := Minus(s.reservations[i.reservation].reserved, i.actual);
    assert At(unused, d) == At(s.reservations[i.reservation].reserved, d) - At(i.actual, d);
    assert At(Plus(s.reservations[p].remaining, unused), d) == At(s.reservations[p].remaining, d) + At(unused, d);
  }

  lemma SettleEntry(s: Ledger, i: SettleInput, d: Dimension)
    requires WellFormed(s) && forall j :: j in s.reservations ==> ChildIsClosed(s.reservations, j)
    requires SettlementDiscipline(s, i)
    requires Settle(s, i).Success? && Settle(s, i).value.Write? && Writable(s, Settle(s, i).value)
    ensures ParentEntry(s, Settle(s, i).value)
    ensures Settle(s, i).value.row.parent.Some? ==> Balances(s, Settle(s, i).value, d)
  {
    SettleWrites(s, i);
    SettleBranches(s, i);
    assert Linked(s, i.reservation);
    var r := s.reservations[i.reservation];
    if SettlesNow(s, i) && r.parent.Some? {
      LiveParent(s, i.reservation);
      SettleChildEntry(s, i, r.parent.value, d);
    }
  }

  lemma StepEnvelope(s: Ledger, op: Op, p: Id, d: Dimension)
    requires EnvelopeInv(s) && Disciplined(s, op) && p in Step(s, op).reservations
    ensures EnvelopeFull(Step(s, op).reservations, p, d)
  {
    if p !in s.reservations {
      NewEnvelope(s, op, p, d);
    } else {
      assert EnvelopeFull(s.reservations, p, d);
      if !op.SetProgram? && Decide(s, op).Success? && Decide(s, op).value.Write? {
        var e := Decide(s, op).value;
        RowEntries(s, op, d);
        if Below(Commit(s, e).reservations, e.id, p) {
          HasParent(Commit(s, e).reservations, e.id, p);
        }
        if p != e.id {
          CommitEnvelopeAbove(s, e, p, d);
        } else if Unfinished(e.row.state) {
          StepAcyclic(s, op);
          assert SameReservation(s.reservations[p], e.row);
          DrawnMoves(s, e, p, Held(d));
        }
      }
    }
  }

  // ----- Settled children have no live children -----

  /** What was drawn from a child was drawn from its parent too. */
  lemma NothingHeldTwiceBelow(rs: Reservations, p: Id, g: Id, d: Dimension)
    requires g in rs && rs[g].parent == Some(p) && Total(Drawn(rs, p), Held(d)) == 0
    ensures Held(d)(rs[g]) == 0 && Total(Drawn(rs, g), Held(d)) == 0
  {
    BelowByLink(rs, g, p);
    TotalAtLeastOne(Drawn(rs, p), Held(d), g);
    forall h | h in Drawn(rs, g) ensures Held(d)(rs[h]) == 0 {
      var n: nat :| Above(rs, g, h, n);
      assert Above(rs, p, g, 1);
      AboveTransitive(rs, p, g, h, n, 1);
      TotalAtLeastOne(Drawn(rs, p), Held(d), h);
    }
    TotalZero(Drawn(rs, g), Held(d));
  }

  lemma NothingHeldBelow(s: Ledger, p: Id, g: Id)
    requires EnvelopeInv(s) && p in s.reservations && Unfinished(s.reservations[p].state) && Untouched(s.reservations[p])
    requires g in s.reservations && s.reservations[g].parent == Some(p)
    ensures !Unfinished(s.reservations[g].state)
  {
    var rs := s.reservations;
    if Unfinished(rs[g].state) {
      forall d ensures At(rs[g].reserved, d) == 0 {
        assert EnvelopeFull(rs, p, d) && EnvelopeFull(rs, g, d);
        assert At(rs[p].remaining, d) == At(rs[p].reserved, d);
        NothingHeldTwiceBelow(rs, p, g, d);
      }
      assert Linked(s, g);
      forall d | d in rs[g].reserved ensures rs[g].reserved[d] == 0 {
        assert At(rs[g].reserved, d) == 0;
      }
    }
  }

  lemma FinishesChild(s: Ledger, op: Op, id: Id)
    requires EnvelopeInv(s) && Disciplined(s, op) && id in s.reservations
    requires Unfinished(s.reservations[id].state) && s.reservations[id].parent.Some?
    requires id in Step(s, op).reservations && !Unfinished(Step(s, op).reservations[id].state)
    ensures !HasActiveChildren(s.reservations, id)
    ensures op.DoRelease? ==> op.id == id
    ensures op.DoRelease? || op.DoSettle?
  {
    if op.DoSettle? {
      if Settle(s, op.settle).Success? && Settle(s, op.settle).value.Write? {
        SettleRow(s, op.settle);
        assert op.settle.reservation == id;
        SettleWrites(s, op.settle);
        UntouchedIsEmpty(s, id);
      }
    } else {
      OnlyReleaseFinishes(s, op, id);
    }
  }

  /** Besides settling, only releasing a row finishes it, and only when nothing live is below it. */
  lemma OnlyReleaseFinishes(s: Ledger, op: Op, id: Id)
    requires !op.DoSettle? && id in s.reservations && Unfinished(s.reservations[id].state)
    requires id in Step(s, op).reservations && !Unfinished(Step(s, op).reservations[id].state)
    ensures op.DoRelease? && op.id == id && !HasActiveChildren(s.reservations, id)
  {
    if !op.SetProgram? && Decide(s, op).Success? && Decide(s, op).value.Write? {
      match op
      case DoReserve(i) => ReserveRow(s, i);
      case DoActivate(_, _, _) => TransitionRow(s, op);
      case DoMarkUncertain(_, _) => TransitionRow(s, op);
      case DoRelease(j, expected) => ReleaseRow(s, j, expected);
    }
  }

  /** Nothing live is below an untouched reservation. */
  lemma UntouchedIsEmpty(s: Ledger, id: Id)
    requires EnvelopeInv(s) && id in s.reservations && Unfinished(s.reservations[id].state) && Untouched(s.reservations[id])
    ensures !HasActiveChildren(s.reservations, id)
  {
    forall c | c in s.reservations && s.reservations[c].parent == Some(id) ensures !Unfinished(s.reservations[c].state) {
      NothingHeldBelow(s, id, c);
    }
  }

  lemma StepChildClosed(s: Ledger, op: Op, id: Id)
    requires EnvelopeInv(s) && Disciplined(s, op) && id in Step(s, op).reservations
    ensures ChildIsClosed(Step(s, op).reservations, id)
  {
    var t := Step(s, op);
    StepEvolves(s, op);
    if id !in s.reservations {
      NewRow(s, op, id);
    } else if t.reservations[id].parent.Some? && !Unfinished(t.reservations[id].state) {
      assert SameReservation(s.reservations[id], t.reservations[id]);
      assert ChildIsClosed(s.reservations, id);
      if Unfinished(s.reservations[id].state) {
        FinishesChild(s, op, id);
      }
      ChildrenStayFinished(s, op, id);
    }
  }

  lemma ChildrenStayFinished(s: Ledger, op: Op, id: Id)
    requires AllLinked(s) && id in s.reservations && !HasActiveChildren(s.reservations, id)
    requires op.DoReserve? ==> !Unfinished(s.reservations[id].state)
    ensures !HasActiveChildren(Step(s, op).reservations, id)
  {
    var t := Step(s, op);
    StepEvolves(s, op);
    forall c | c in t.reservations && t.reservations[c].parent == Some(id) ensures !Unfinished(t.reservations[c].state) {
      if c in s.reservations {
        assert SameReservation(s.reservations[c], t.reservations[c]);
        FinishedStays(s, op, c);
      } else {
        NewRow(s, op, c);
      }
    }
  }
}
