/**
 * Whether a program stays within its root limit. Reserving is checked against one account at a time
 * (src/budget/budget-ledger.ts), and the execution account and its children share one limit.
 */
module RootLimit {
  import opened Wrappers
  import opened Totals
  import opened BudgetVectors
  import opened LedgerModel
  import opened LedgerFrames
  import opened LedgerInvariants
  import opened AccountTree

  /** The tables of a program that has just been opened. */
  ghost predicate JustOpened(s: Ledger, rows: seq<Row>, program: Id) {
    && (forall i :: 0 <= i < |rows| ==> rows[i].id in s.accounts && s.accounts[rows[i].id] == rows[i].account)
    && s.reservations == map[]
    && program in s.programs && !Terminal(s.programs[program])
  }

  // ----- Nothing shared, nothing escapes -----

  lemma {:induction false} RunKeepsTree(s: Ledger, ops: seq<Op>, rows: seq<Row>, root: Id)
    requires Inv(s) && DisciplinedRun(s, ops) && HasTree(s, rows)
    requires root in s.accounts && s.accounts[root].kind == Root && NoReservationOn(s, root)
    ensures Inv(Run(s, ops)) && HasTree(Run(s, ops), rows) && NoReservationOn(Run(s, ops), root)
    decreases |ops|
  {
    if |ops| > 0 {
      StepKeepsInv(s, ops[0]);
      StepKeepsTree(s, ops[0], rows);
      StepAvoidsRoot(s, ops[0], root);
      StepEvolves(s, ops[0]);
      assert SameAccount(s.accounts[root], Step(s, ops[0]).accounts[root]);
      RunKeepsTree(Step(s, ops[0]), ops[1..], rows, root);
    }
  }

  lemma StaysWithin(s: Ledger, ops: seq<Op>, program: Id, digest: string, al: Allocation, d: Dimension)
    requires Inv(s) && BuildTree(program, digest, al).Success? && JustOpened(s, BuildTree(program, digest, al).value, program)
    requires DisciplinedRun(s, ops) && NothingLate(Run(s, ops)) && At(al.minimumDelivery, d) + At(al.upgradePool, d) == 0
    ensures var rows := BuildTree(program, digest, al).value;
            HasTree(Run(s, ops), rows) && ProgramCommitted(Run(s, ops), rows, d) <= At(rows[0].account.limit, d)
  {
    var rows := BuildTree(program, digest, al).value;
    RunKeepsTree(s, ops, rows, rows[0].id);
    ProgramBound(Run(s, ops), program, digest, al, d);
    WithinLimit(Run(s, ops), rows[2].id, d);
    assert At(rows[2].account.limit, d) == At(al.minimumDelivery, d) + At(al.upgradePool, d);
  }

  // ----- Filling every account -----

  /** A call that asks for the whole limit of an untouched account it may use. */
  ghost predicate AsksForWhole(s: Ledger, i: ReserveInput) {
    && i.account in s.accounts && i.parent.None? && i.id !in s.reservations && !KeyTaken(s.reservations, i.operationKey)
    && var a := s.accounts[i.account];
    && a.spent == map[] && a.reserved == map[] && a.limit == i.amount && a.program == i.program && a.kind in AllowedKinds(i.consumer)
    && !IsZero(i.amount) && i.program in s.programs && !Terminal(s.programs[i.program])
  }

  lemma WholeIsGranted(s: Ledger, i: ReserveInput)
    requires AsksForWhole(s, i)
    ensures AddFits(map[], i.amount)
    ensures Reserve(s, i) == Success(Write(i.id, NewReservation(i), Some(Balance(i.account, map[], Plus(map[], i.amount))), None, None))
  {
    assert AddFits(map[], map[]) && Plus(map[], map[]) == map[];
    assert forall e :: At(i.amount, e) <= At(Minus(i.amount, map[]), e);
    assert Reserve(s, i) == ReserveFromAccount(s, i);
  }

  /** The whole limit of an untouched account can be reserved. */
  lemma ReserveWhole(s: Ledger, i: ReserveInput, d: Dimension)
    requires AsksForWhole(s, i)
    ensures var t := Step(s, DoReserve(i));
            && t.accounts.Keys == s.accounts.Keys && t.programs == s.programs
            && (forall a :: a in s.accounts && a != i.account ==> t.accounts[a] == s.accounts[a])
            && CommittedOn(t, i.account, d) == At(i.amount, d)
            && t.reservations == s.reservations[i.id := NewReservation(i)]
  {
    WholeIsGranted(s, i);
  }

  function ConsumerOf(k: Kind): ConsumerClass {
    match k
    case Root => ForPlanning
    case Planning => ForPlanning
    case Validation => ForValidation
    case Contingency => ForContingency
    case Closeout => ForCloseout
    case _ => ForExecution
  }

  function Name(k: nat): Id {
    seq(k, i => 'x')
  }

  /** A call that reserves the whole limit of one account of the tree. */
  function WholeOf(k: nat, program: Id, row: Row): ReserveInput {
    ReserveInput(Name(k), program, row.id, None, "op-" + Name(k), row.account.limit, ConsumerOf(row.account.kind))
  }

  /** One such call for each account from the k-th on that has a limit at all. */
  function FillFrom(rows: seq<Row>, program: Id, k: nat): seq<Op>
    requires k <= |rows|
    decreases |rows| - k
  {
    if k == |rows| then []
    else if IsZero(rows[k].account.limit) then FillFrom(rows, program, k + 1)
    else [DoReserve(WholeOf(k, program, rows[k]))] + FillFrom(rows, program, k + 1)
  }

  /** The accounts of a tree that may be reserved on, untouched and of the program, come after the root. */
  ghost predicate Fillable(rows: seq<Row>, program: Id) {
    && (forall i, j :: 0 <= i < j < |rows| ==> rows[i].id != rows[j].id)
    && forall i :: 0 <= i < |rows| ==> Unused(rows[i].account, program, i == 0)
  }

  predicate Unused(a: Account, program: Id, isRoot: bool) {
    a.spent == map[] && a.reserved == map[] && a.program == program && (isRoot || a.kind in AllowedKinds(ConsumerOf(a.kind)))
  }

  /** The accounts after the root and before the k-th are full, and the others are as they were opened. */
  ghost predicate FilledTo(s: Ledger, rows: seq<Row>, program: Id, k: nat, d: Dimension) {
    && program in s.programs && !Terminal(s.programs[program])
    && (forall i :: 0 <= i < |rows| ==> rows[i].id in s.accounts)
    && (forall i :: 1 <= i < k && i < |rows| ==> CommittedOn(s, rows[i].id, d) == At(rows[i].account.limit, d))
    && (forall i :: 0 <= i < |rows| && (i == 0 || k <= i) ==> s.accounts[rows[i].id] == rows[i].account)
    && (forall id :: id in s.reservations ==> NamedBefore(s.reservations[id], id, k))
  }

  predicate NamedBefore(r: Reservation, id: Id, k: nat) {
    |id| < k && |r.operationKey| == 3 + |id| && r.state == Created
  }

  lemma NameIsFree(s: Ledger, k: nat)
    requires forall id :: id in s.reservations ==> NamedBefore(s.reservations[id], id, k)
    ensures Name(k) !in s.reservations && !KeyTaken(s.reservations, "op-" + Name(k))
  {
    assert |Name(k)| == k && |"op-" + Name(k)| == 3 + k;
  }

  lemma AsksForWholeOf(s: Ledger, rows: seq<Row>, program: Id, k: nat, d: Dimension)
    requires Fillable(rows, program) && 1 <= k < |rows| && FilledTo(s, rows, program, k, d) && !IsZero(rows[k].account.limit)
    ensures AsksForWhole(s, WholeOf(k, program, rows[k]))
  {
    NameIsFree(s, k);
    assert Unused(rows[k].account, program, false);
  }

  /** One account more is full, and nothing else has changed. */
  lemma FillsMore(s: Ledger, t: Ledger, rows: seq<Row>, program: Id, k: nat, d: Dimension)
    requires Fillable(rows, program) && 1 <= k < |rows| && FilledTo(s, rows, program, k, d)
    requires t.programs == s.programs && t.accounts.Keys == s.accounts.Keys
    requires forall a :: a in s.accounts && a != rows[k].id ==> t.accounts[a] == s.accounts[a]
    requires rows[k].id in t.accounts && CommittedOn(t, rows[k].id, d) == At(rows[k].account.limit, d)
    requires forall id :: id in t.reservations ==> NamedBefore(t.reservations[id], id, k + 1)
    ensures FilledTo(t, rows, program, k + 1, d)
  {
    forall i | 0 <= i < |rows| && i != k ensures rows[i].id in t.accounts && t.accounts[rows[i].id] == s.accounts[rows[i].id] {
      assert rows[i].id != rows[k].id;
    }
  }

  lemma FillsOne(s: Ledger, rows: seq<Row>, program: Id, k: nat, d: Dimension)
    requires Fillable(rows, program) && 1 <= k < |rows| && FilledTo(s, rows, program, k, d)
    ensures var t := if IsZero(rows[k].account.limit) then s else Step(s, DoReserve(WholeOf(k, program, rows[k])));
            FilledTo(t, rows, program, k + 1, d)
  {
    if IsZero(rows[k].account.limit) {
      assert Unused(rows[k].account, program, false);
      assert At(rows[k].account.limit, d) == 0;
      FillsMore(s, s, rows, program, k, d);
    } else {
      var i := WholeOf(k, program, rows[k]);
      AsksForWholeOf(s, rows, program, k, d);
      ReserveWhole(s, i, d);
      assert |Name(k)| == k && |"op-" + Name(k)| == 3 + k;
      FillsMore(s, Step(s, DoReserve(i)), rows, program, k, d);
    }
  }

  /** A run by its first call. */
  lemma RunFirst(s: Ledger, op: Op, rest: seq<Op>)
    requires Disciplined(s, op) && DisciplinedRun(Step(s, op), rest)
    ensures DisciplinedRun(s, [op] + rest) && Run(s, [op] + rest) == Run(Step(s, op), rest)
  {
    assert ([op] + rest)[1..] == rest;
  }

  lemma {:induction false} FillsAll(s: Ledger, rows: seq<Row>, program: Id, k: nat, d: Dimension)
    requires Fillable(rows, program) && 1 <= k <= |rows| && FilledTo(s, rows, program, k, d)
    ensures var ops := FillFrom(rows, program, k);
            DisciplinedRun(s, ops) && FilledTo(Run(s, ops), rows, program, |rows|, d)
    decreases |rows| - k
  {
    if k < |rows| {
      FillsOne(s, rows, program, k, d);
      if IsZero(rows[k].account.limit) {
        FillsAll(s, rows, program, k + 1, d);
      } else {
        var op := DoReserve(WholeOf(k, program, rows[k]));
        FillsAll(Step(s, op), rows, program, k + 1, d);
        RunFirst(s, op, FillFrom(rows, program, k + 1));
      }
    }
  }

  lemma TreeRowUnused(program: Id, digest: string, al: Allocation, i: nat)
    requires BuildTree(program, digest, al).Success? && i < 8
    ensures |BuildTree(program, digest, al).value| == 8
    ensures Unused(BuildTree(program, digest, al).value[i].account, program, i == 0)
  {
  }

  lemma TreeIsFillable(program: Id, digest: string, al: Allocation)
    requires BuildTree(program, digest, al).Success?
    ensures Fillable(BuildTree(program, digest, al).value, program) && |BuildTree(program, digest, al).value| == 8
  {
    TreeIdsDistinct(program, digest, al, Sum(Leaves(al)).value, Plus(al.minimumDelivery, al.upgradePool));
    TreeRowUnused(program, digest, al, 0);
    forall i: nat | i < 8 ensures Unused(BuildTree(program, digest, al).value[i].account, program, i == 0) {
      TreeRowUnused(program, digest, al, i);
    }
  }

  lemma TreeLimits(program: Id, digest: string, al: Allocation, d: Dimension)
    requires BuildTree(program, digest, al).Success?
    ensures var rows := BuildTree(program, digest, al).value;
            && |rows| == 8
            && At(rows[2].account.limit, d) == At(al.minimumDelivery, d) + At(al.upgradePool, d)
            && At(rows[0].account.limit, d) == At(rows[1].account.limit, d) + At(rows[2].account.limit, d)
               + At(rows[5].account.limit, d) + At(rows[6].account.limit, d) + At(rows[7].account.limit, d)
            && At(rows[2].account.limit, d) == At(rows[3].account.limit, d) + At(rows[4].account.limit, d)
  {
    SumOfLeaves(al, d);
    assert At(Sum(Leaves(al)).value, d) == SumAt(Leaves(al), d);
  }

  /** With every account full the program has committed its root limit and the execution limit besides. */
  lemma FullIsRootAndExecution(s: Ledger, rows: seq<Row>, program: Id, d: Dimension)
    requires |rows| == 8 && Fillable(rows, program) && FilledTo(s, rows, program, 8, d) && HasTree(s, rows)
    requires At(rows[0].account.limit, d) == At(rows[1].account.limit, d) + At(rows[2].account.limit, d)
             + At(rows[5].account.limit, d) + At(rows[6].account.limit, d) + At(rows[7].account.limit, d)
    requires At(rows[2].account.limit, d) == At(rows[3].account.limit, d) + At(rows[4].account.limit, d)
    ensures ProgramCommitted(s, rows, d) == At(rows[0].account.limit, d) + At(rows[2].account.limit, d)
  {
    assert Unused(rows[0].account, program, true);
    assert forall k :: 1 <= k < 8 ==> CommittedAt(s, rows, k, d) == At(rows[k].account.limit, d);
  }

  /** A run of seven calls that are all granted. */
  lemma CanBeFilled(s: Ledger, program: Id, digest: string, al: Allocation, d: Dimension) returns (ops: seq<Op>)
    requires Inv(s) && BuildTree(program, digest, al).Success? && JustOpened(s, BuildTree(program, digest, al).value, program)
    ensures var rows, t := BuildTree(program, digest, al).value, Run(s, ops);
            && DisciplinedRun(s, ops) && NothingLate(t) && HasTree(t, rows)
            && ProgramCommitted(t, rows, d) == At(rows[0].account.limit, d) + At(al.minimumDelivery, d) + At(al.upgradePool, d)
  {
    var rows := BuildTree(program, digest, al).value;
    TreeIsFillable(program, digest, al);
    TreeLimits(program, digest, al, d);
    assert rows[0].account.kind == Root;
    ops := Filling(s, rows, program, d);
  }

  lemma Filling(s: Ledger, rows: seq<Row>, program: Id, d: Dimension) returns (ops: seq<Op>)
    requires Inv(s) && |rows| == 8 && Fillable(rows, program) && JustOpened(s, rows, program) && rows[0].account.kind == Root
    requires At(rows[0].account.limit, d) == At(rows[1].account.limit, d) + At(rows[2].account.limit, d)
             + At(rows[5].account.limit, d) + At(rows[6].account.limit, d) + At(rows[7].account.limit, d)
    requires At(rows[2].account.limit, d) == At(rows[3].account.limit, d) + At(rows[4].account.limit, d)
    ensures var t := Run(s, ops);
            && DisciplinedRun(s, ops) && NothingLate(t) && HasTree(t, rows)
            && ProgramCommitted(t, rows, d) == At(rows[0].account.limit, d) + At(rows[2].account.limit, d)
  {
    ops := FillFrom(rows, program, 1);
    FillsAll(s, rows, program, 1, d);
    RunKeepsTree(s, ops, rows, rows[0].id);
    FullIsRootAndExecution(Run(s, ops), rows, program, d);
  }

  /**
   * Main result: over all disciplined runs without late usage the whole program stays within its
   * root limit, in a dimension, if and only if nothing is allocated to the children of the
   * execution account in that dimension.
   */
  lemma RootLimitHoldsExactly(s: Ledger, program: Id, digest: string, al: Allocation, d: Dimension)
    requires Inv(s) && BuildTree(program, digest, al).Success? && JustOpened(s, BuildTree(program, digest, al).value, program)
    ensures var rows := BuildTree(program, digest, al).value;
            (forall ops :: DisciplinedRun(s, ops) && NothingLate(Run(s, ops)) ==>
               HasTree(Run(s, ops), rows) && ProgramCommitted(Run(s, ops), rows, d) <= At(rows[0].account.limit, d))
            <==> At(al.minimumDelivery, d) + At(al.upgradePool, d) == 0
  {
    if At(al.minimumDelivery, d) + At(al.upgradePool, d) == 0 {
      forall ops | DisciplinedRun(s, ops) && NothingLate(Run(s, ops))
        ensures var rows := BuildTree(program, digest, al).value;
                HasTree(Run(s, ops), rows) && ProgramCommitted(Run(s, ops), rows, d) <= At(rows[0].account.limit, d)
      {
        StaysWithin(s, ops, program, digest, al, d);
      }
    } else {
      var ops := CanBeFilled(s, program, digest, al, d);
      assert DisciplinedRun(s, ops);
    }
  }
}
