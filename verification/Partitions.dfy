/**
 * The partitions of a program's tree (src/budget/budget-ledger.ts): what is kept for planning,
 * validation, contingency or closeout is drawn on by nobody else.
 */
module Partitions {
  import opened Wrappers
  import opened BudgetVectors
  import opened LedgerModel
  import opened LedgerFrames
  import opened AccountTree
  import opened LedgerEffects

  /** No call of the run reserves for this class. */
  ghost predicate NoneFor(ops: seq<Op>, c: ConsumerClass) {
    forall k :: 0 <= k < |ops| && ops[k].DoReserve? ==> ops[k].reserve.consumer != c
  }

  /** Every call that reserves does so for this class. */
  ghost predicate AllFor(ops: seq<Op>, c: ConsumerClass) {
    forall k :: 0 <= k < |ops| && ops[k].DoReserve? ==> ops[k].reserve.consumer == c
  }

  /** The class may not draw on this kind of account. */
  ghost predicate Foreign(k: Kind, c: ConsumerClass) {
    match k
    case Root => true
    case Planning => c != ForPlanning
    case Validation => c != ForValidation
    case Contingency => c != ForContingency
    case Closeout => c != ForCloseout
    case _ => c != ForExecution
  }

  ghost predicate AllForeign(ops: seq<Op>, k: Kind) {
    forall j :: 0 <= j < |ops| && ops[j].DoReserve? ==> Foreign(k, ops[j].reserve.consumer)
  }

  lemma StepLeavesForeign(s: Ledger, op: Op, a: Id)
    requires AllLinked(s) && a in s.accounts && NoReservationOn(s, a)
    requires op.DoReserve? ==> Foreign(s.accounts[a].kind, op.reserve.consumer)
    ensures var t := Step(s, op);
            a in t.accounts && t.accounts[a] == s.accounts[a] && NoReservationOn(t, a)
  {
    var t := Step(s, op);
    StepEvolves(s, op);
    if op.DoReserve? {
      ClassOwnsKind(op.reserve.consumer, s.accounts[a].kind);
    }
    forall id | id in t.reservations ensures t.reservations[id].account != a {
      if id in s.reservations {
        assert SameReservation(s.reservations[id], t.reservations[id]);
      } else {
        NewRow(s, op, id);
      }
    }
    if !op.SetProgram? && Decide(s, op).Success? && Decide(s, op).value.Write? {
      BalanceIsOfRow(s, op);
      RowWritten(s, op);
    }
  }

  /** An account nothing is reserved on stays as it is while only other classes reserve. */
  lemma {:induction false} RunLeavesForeign(s: Ledger, ops: seq<Op>, a: Id)
    requires WellFormed(s) && a in s.accounts && NoReservationOn(s, a) && AllForeign(ops, s.accounts[a].kind)
    ensures a in Run(s, ops).accounts && Run(s, ops).accounts[a] == s.accounts[a]
    decreases |ops|
  {
    if |ops| > 0 {
      StepLeavesForeign(s, ops[0], a);
      StepWellFormed(s, ops[0]);
      RunLeavesForeign(Step(s, ops[0]), ops[1..], a);
    }
  }

  /** The accounts of a built tree are there, and nothing is reserved on them yet. */
  ghost predicate Opened(s: Ledger, rows: seq<Row>) {
    forall i :: 0 <= i < |rows| ==> rows[i].id in s.accounts && s.accounts[rows[i].id] == rows[i].account && NoReservationOn(s, rows[i].id)
  }

  /** The account of this kind is as it was opened. */
  ghost predicate Intact(s: Ledger, t: Ledger, program: Id, digest: string, k: Kind) {
    var id := AccountId(program, digest, k);
    id in s.accounts && id in t.accounts && t.accounts[id] == s.accounts[id]
  }

  /** The eight accounts of a tree: whose they are, where they hang, what they may spend and which are protected. */
  lemma TreeRow(program: Id, digest: string, al: Allocation, i: nat)
    requires BuildTree(program, digest, al).Success? && i < 8
    ensures var rows := BuildTree(program, digest, al).value;
            var kinds := [Root, Planning, Execution, Minimum, UpgradePool, Validation, Contingency, Closeout];
            && |rows| == 8 && rows[i].id == AccountId(program, digest, kinds[i])
            && rows[i].account.program == program && rows[i].account.kind == kinds[i]
            && rows[i].account.spent == map[] && rows[i].account.reserved == map[] && rows[i].account.revision == 0
            && rows[i].account.parent == (if i == 0 then None
                                          else if i == 3 || i == 4 then Some(AccountId(program, digest, Execution))
                                          else Some(AccountId(program, digest, Root)))
            && (rows[i].account.isProtected <==> kinds[i] in {Planning, Validation, Contingency, Closeout})
  {
  }

  lemma TreeLimit(program: Id, digest: string, al: Allocation, d: Dimension)
    requires BuildTree(program, digest, al).Success?
    ensures var rows := BuildTree(program, digest, al).value;
            && |rows| == 8
            && rows[1].account.limit == al.planning && rows[3].account.limit == al.minimumDelivery
            && rows[4].account.limit == al.upgradePool && rows[5].account.limit == al.validation
            && rows[6].account.limit == al.contingency && rows[7].account.limit == al.closeout
            && At(rows[2].account.limit, d) == At(al.minimumDelivery, d) + At(al.upgradePool, d)
            && At(rows[0].account.limit, d) == At(al.planning, d) + At(al.minimumDelivery, d) + At(al.upgradePool, d)
                                               + At(al.validation, d) + At(al.contingency, d) + At(al.closeout, d)
  {
    SumOfLeaves(al, d);
    assert At(Sum(Leaves(al)).value, d) == SumAt(Leaves(al), d);
  }

  /** The account of one kind is there, and nothing is reserved on it. */
  ghost predicate Placed(s: Ledger, program: Id, digest: string, k: Kind) {
    var id := AccountId(program, digest, k);
    id in s.accounts && s.accounts[id].kind == k && NoReservationOn(s, id)
  }

  ghost predicate TreePlaced(s: Ledger, program: Id, digest: string) {
    && Placed(s, program, digest, Root) && Placed(s, program, digest, Planning) && Placed(s, program, digest, Execution)
    && Placed(s, program, digest, Minimum) && Placed(s, program, digest, UpgradePool) && Placed(s, program, digest, Validation)
    && Placed(s, program, digest, Contingency) && Placed(s, program, digest, Closeout)
  }

  lemma TreeIsPlaced(s: Ledger, program: Id, digest: string, al: Allocation)
    requires BuildTree(program, digest, al).Success? && Opened(s, BuildTree(program, digest, al).value)
    ensures TreePlaced(s, program, digest)
  {
    var kinds := [Root, Planning, Execution, Minimum, UpgradePool, Validation, Contingency, Closeout];
    forall i | 0 <= i < 8 ensures Placed(s, program, digest, kinds[i]) {
      TreeRow(program, digest, al, i);
    }
    assert kinds[0] == Root && kinds[1] == Planning && kinds[2] == Execution && kinds[3] == Minimum;
    assert kinds[4] == UpgradePool && kinds[5] == Validation && kinds[6] == Contingency && kinds[7] == Closeout;
  }

  lemma RowIntact(s: Ledger, ops: seq<Op>, program: Id, digest: string, k: Kind, c: ConsumerClass)
    requires WellFormed(s) && Placed(s, program, digest, k) && forall x :: x == c || Foreign(k, x)
    ensures NoneFor(ops, c) || Foreign(k, c) ==> Intact(s, Run(s, ops), program, digest, k)
  {
    if NoneFor(ops, c) || Foreign(k, c) {
      RunLeavesForeign(s, ops, AccountId(program, digest, k));
    }
  }

  /** Main result: every partition of an opened tree is changed only by calls for its own class, and the root by none. */
  lemma PartitionsAreKept(s: Ledger, ops: seq<Op>, program: Id, digest: string, al: Allocation)
    requires WellFormed(s) && BuildTree(program, digest, al).Success? && Opened(s, BuildTree(program, digest, al).value)
    ensures Intact(s, Run(s, ops), program, digest, Root)
    ensures NoneFor(ops, ForPlanning) ==> Intact(s, Run(s, ops), program, digest, Planning)
    ensures NoneFor(ops, ForValidation) ==> Intact(s, Run(s, ops), program, digest, Validation)
    ensures NoneFor(ops, ForContingency) ==> Intact(s, Run(s, ops), program, digest, Contingency)
    ensures NoneFor(ops, ForCloseout) ==> Intact(s, Run(s, ops), program, digest, Closeout)
    ensures NoneFor(ops, ForExecution) ==>
              && Intact(s, Run(s, ops), program, digest, Execution)
              && Intact(s, Run(s, ops), program, digest, Minimum)
              && Intact(s, Run(s, ops), program, digest, UpgradePool)
  {
    TreeIsPlaced(s, program, digest, al);
    PlacedAreKept(s, ops, program, digest);
  }

  lemma PlacedAreKept(s: Ledger, ops: seq<Op>, program: Id, digest: string)
    requires WellFormed(s) && TreePlaced(s, program, digest)
    ensures Intact(s, Run(s, ops), program, digest, Root)
    ensures NoneFor(ops, ForPlanning) ==> Intact(s, Run(s, ops), program, digest, Planning)
    ensures NoneFor(ops, ForValidation) ==> Intact(s, Run(s, ops), program, digest, Validation)
    ensures NoneFor(ops, ForContingency) ==> Intact(s, Run(s, ops), program, digest, Contingency)
    ensures NoneFor(ops, ForCloseout) ==> Intact(s, Run(s, ops), program, digest, Closeout)
    ensures NoneFor(ops, ForExecution) ==>
              && Intact(s, Run(s, ops), program, digest, Execution)
              && Intact(s, Run(s, ops), program, digest, Minimum)
              && Intact(s, Run(s, ops), program, digest, UpgradePool)
  {
    RowIntact(s, ops, program, digest, Root, ForPlanning);
    RowIntact(s, ops, program, digest, Planning, ForPlanning);
    RowIntact(s, ops, program, digest, Execution, ForExecution);
    RowIntact(s, ops, program, digest, Minimum, ForExecution);
    RowIntact(s, ops, program, digest, UpgradePool, ForExecution);
    RowIntact(s, ops, program, digest, Validation, ForValidation);
    RowIntact(s, ops, program, digest, Contingency, ForContingency);
    RowIntact(s, ops, program, digest, Closeout, ForCloseout);
  }

  /** So execution leaves planning, validation, contingency and closeout to their owners. */
  lemma ExecutionKeepsPartitions(s: Ledger, ops: seq<Op>, program: Id, digest: string, al: Allocation)
    requires WellFormed(s) && BuildTree(program, digest, al).Success? && Opened(s, BuildTree(program, digest, al).value)
    requires AllFor(ops, ForExecution)
    ensures forall k :: k in {Root, Planning, Validation, Contingency, Closeout} ==> Intact(s, Run(s, ops), program, digest, k)
  {
    PartitionsAreKept(s, ops, program, digest, al);
  }
}
