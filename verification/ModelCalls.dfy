/**
 * The life of one model call (src/budget/shadow-model-guard.ts, src/budget/model-call-service.ts,
 * src/budget/usage-reconciler.ts): a child reservation for its upper bound, then its settlement.
 *
 * Digests are injective labels, so an operation's reservation, operation key and source event are
 * named after the operation itself.
 */
module ModelCalls {
  import opened Wrappers
  import opened BudgetVectors
  import opened LedgerModel
  import opened LedgerFrames
  import opened LedgerInvariants
  import opened LedgerEnvelopes
  import opened LedgerEnvelopeRuns
  import opened LedgerEffects
  import opened BudgetLedgers
  import opened Pricing

  datatype Mode = Shadow | Soft

  datatype Reason = Allowed | InsufficientBudget | PricingChanged | ModelPriceMissing

  datatype CallError =
    | AlreadyDispatched | EnvelopeMissing | NotStarted | UsageConflict | ReservationMissing
    | Denied(why: Reason) | LedgerRefused(cause: LedgerError) | Priced(problem: PriceError)

  /** What the begin record keeps of a call: the reservation is absent in shadow mode. */
  datatype Call = Call(price: Price, reservation: Option<Id>)

  /** What the provider, or the runner, says about the usage of a call. */
  datatype Report = Found(event: Id, usage: Usage) | NotCalled | Unknown

  /** What reconciling a reservation did, with the row it left. */
  datatype Action = ReportSettled | ReportReleased | Conservative | AlreadyFinal
  datatype Reconciliation = Reconciliation(action: Action, row: Reservation)

  function ReservationOf(operation: Id): Id {
    "reservation:" + operation
  }

  function UsageEventOf(operation: Id): Id {
    "model-usage:" + operation
  }

  function ReconcileEventOf(reservation: Id): Id {
    "reconcile:" + reservation
  }

  function GuardInput(operation: Id, program: Id, account: Id, parent: Id, amount: Vector): ReserveInput {
    ReserveInput(ReservationOf(operation), program, account, Some(parent), "model:" + operation, amount, ForExecution)
  }

  // ----- Reconciling one reservation -----

  /** The ledger operation a report leads to; none when the reservation is final already. */
  ghost function ReportOp(s: Ledger, id: Id, price: Price, report: Report): Result<Option<Op>, CallError> {
    if id !in s.reservations then Failure(ReservationMissing)
    else if HasUsage(s.reservations[id].state) then Success(None)
    else
      match report
      case Found(event, usage) =>
        (match EstimateUsage(price, usage)
         case Failure(e) => Failure(Priced(e))
         case Success(actual) => Success(Some(DoSettle(SettleInput(id, event, actual)))))
      case NotCalled => Success(Some(DoRelease(id, s.reservations[id].revision)))
      case Unknown => Success(Some(DoSettle(SettleInput(id, ReconcileEventOf(id), s.reservations[id].reserved))))
  }

  ghost function AfterReport(s: Ledger, id: Id, price: Price, report: Report): Ledger {
    match ReportOp(s, id, price, report)
    case Failure(_) => s
    case Success(None) => s
    case Success(Some(op)) => Step(s, op)
  }

  ghost predicate ReportFails(s: Ledger, id: Id, price: Price, report: Report, e: CallError) {
    match ReportOp(s, id, price, report)
    case Failure(f) => e == f
    case Success(None) => false
    case Success(Some(op)) => !op.SetProgram? && Decide(s, op).Failure? && e == LedgerRefused(Decide(s, op).error)
  }

  /** The row that a successful settlement or release of one reservation returns is the row it leaves. */
  lemma ReturnedIsLeft(s: Ledger, op: Op, id: Id)
    requires AllLinked(s) && (op.DoRelease? || op.DoSettle?) && id == (if op.DoRelease? then op.id else op.settle.reservation)
    requires Decide(s, op).Success?
    ensures id in Step(s, op).reservations && Step(s, op).reservations[id] == Decide(s, op).value.row
  {
    if op.DoRelease? {
      ReleaseReturns(s, op.id, op.expected);
    } else {
      SettleReturns(s, op.settle);
    }
  }

  lemma ReleaseReturns(s: Ledger, id: Id, expected: nat)
    requires AllLinked(s) && Release(s, id, expected).Success?
    ensures id in Step(s, DoRelease(id, expected)).reservations
            && Step(s, DoRelease(id, expected)).reservations[id] == Release(s, id, expected).value.row
  {
    if Release(s, id, expected).value.Write? {
      ReleaseRow(s, id, expected);
    }
  }

  lemma SettleReturns(s: Ledger, i: SettleInput)
    requires AllLinked(s) && Settle(s, i).Success?
    ensures i.reservation in Step(s, DoSettle(i)).reservations
            && Step(s, DoSettle(i)).reservations[i.reservation] == Settle(s, i).value.row
  {
    if Settle(s, i).value.Write? {
      SettleWrites(s, i);
      SettleBranches(s, i);
    }
  }

  // ----- What a report costs -----

  /** The row records this usage, the account has spent as much more, and the parent has the rest back. */
  ghost predicate Spends(s: Ledger, t: Ledger, id: Id, usage: Vector) {
    && id in s.reservations && id in t.reservations && t.reservations[id].settled == Some(usage)
    && (t.reservations[id].state == Settled || t.reservations[id].state == Reconciled)
    && t.accounts.Keys == s.accounts.Keys && (forall a :: a in s.accounts && a != s.reservations[id].account ==> t.accounts[a] == s.accounts[a])
    && forall d :: SpendsIn(s, t, id, usage, d)
  }

  ghost predicate SpendsIn(s: Ledger, t: Ledger, id: Id, usage: Vector, d: Dimension)
    requires id in s.reservations
  {
    var r := s.reservations[id];
    && r.account in s.accounts && r.account in t.accounts
    && At(t.accounts[r.account].spent, d) == At(s.accounts[r.account].spent, d) + At(usage, d)
    && (r.state != Released && r.parent.Some? ==>
          && r.parent.value in s.reservations && r.parent.value in t.reservations
          && At(t.reservations[r.parent.value].remaining, d) + At(usage, d)
             == At(s.reservations[r.parent.value].remaining, d) + At(r.reserved, d))
  }

  /** Nothing was spent, and what was still held is back with the parent, or else with the account. */
  ghost predicate GivesBack(s: Ledger, t: Ledger, id: Id) {
    && id in s.reservations && id in t.reservations && t.reservations[id].state == Released && t.spends == s.spends
    && t.accounts.Keys == s.accounts.Keys && (forall a :: a in s.accounts ==> t.accounts[a].spent == s.accounts[a].spent)
    && forall d :: GivesBackIn(s, t, id, d)
  }

  ghost predicate GivesBackIn(s: Ledger, t: Ledger, id: Id, d: Dimension)
    requires id in s.reservations
  {
    var r := s.reservations[id];
    && r.account in s.accounts && r.account in t.accounts
    && (if r.parent.Some? then
          && t.accounts == s.accounts && r.parent.value in s.reservations && r.parent.value in t.reservations
          && At(t.reservations[r.parent.value].remaining, d) == At(s.reservations[r.parent.value].remaining, d) + At(r.remaining, d)
        else At(s.accounts[r.account].reserved, d) == At(t.accounts[r.account].reserved, d) + At(r.remaining, d))
  }

  /**
   * A reservation without usage yet: reported usage is priced and charged, usage nobody knows is charged
   * as all that was reserved, and a call that was never made is given back.
   */
  ghost predicate Accounted(s: Ledger, t: Ledger, id: Id, price: Price, report: Report)
    requires id in s.reservations
  {
    match report
    case Found(_, usage) => EstimateUsage(price, usage).Success? && Spends(s, t, id, EstimateUsage(price, usage).value)
    case Unknown => Spends(s, t, id, s.reservations[id].reserved)
    case NotCalled => if s.reservations[id].state == Released then t == s else GivesBack(s, t, id)
  }

  /** An event that is known belongs to a reservation with usage. */
  lemma UsageIsFirst(s: Ledger, i: SettleInput)
    requires Inv(s) && i.reservation in s.reservations && Settle(s, i).Success?
    requires s.reservations[i.reservation].state != Settled && s.reservations[i.reservation].state != Reconciled
    ensures FirstUsage(s, i)
  {
    assert forall e :: e in s.spends ==> EventMatches(s, e);
  }

  lemma FirstSpendsIn(s: Ledger, i: SettleInput, d: Dimension)
    requires AllLinked(s) && FirstUsage(s, i) && Settle(s, i).Success?
    ensures Charged(s, Step(s, DoSettle(i)), i, d) && SpendsIn(s, Step(s, DoSettle(i)), i.reservation, i.actual, d)
  {
    var r := s.reservations[i.reservation];
    if r.state == Released {
      SettleLateDoes(s, i, d);
    } else if r.parent.Some? {
      SettleChildDoes(s, i, d);
    } else {
      SettleTopDoes(s, i, d);
    }
  }

  lemma FirstSettlementSpends(s: Ledger, i: SettleInput)
    requires Inv(s) && i.reservation in s.reservations && Settle(s, i).Success?
    requires s.reservations[i.reservation].state != Settled && s.reservations[i.reservation].state != Reconciled
    ensures Spends(s, Step(s, DoSettle(i)), i.reservation, i.actual)
  {
    UsageIsFirst(s, i);
    ChargedSpends(s, Step(s, DoSettle(i)), i);
  }

  lemma ChargedSpends(s: Ledger, t: Ledger, i: SettleInput)
    requires AllLinked(s) && FirstUsage(s, i) && Settle(s, i).Success? && t == Step(s, DoSettle(i))
    ensures Spends(s, t, i.reservation, i.actual)
  {
    FirstSpendsIn(s, i, MoneyMicros);
    forall d ensures SpendsIn(s, t, i.reservation, i.actual, d) {
      FirstSpendsIn(s, i, d);
    }
  }

  lemma ReleaseGivesBack(s: Ledger, id: Id, expected: nat)
    requires AllLinked(s) && id in s.reservations && s.reservations[id].state != Released && Release(s, id, expected).Success?
    ensures GivesBack(s, Step(s, DoRelease(id, expected)), id)
  {
    var t, r := Step(s, DoRelease(id, expected)), s.reservations[id];
    forall d ensures GivesBackIn(s, t, id, d) && t.spends == s.spends && t.reservations.Keys == s.reservations.Keys {
      if r.parent.Some? {
        ReleaseToParentDoes(s, id, expected, d);
      } else {
        ReleaseToAccountDoes(s, id, expected, d);
      }
    }
    if r.parent.Some? {
      ReleaseToParentDoes(s, id, expected, MoneyMicros);
    } else {
      ReleaseToAccountDoes(s, id, expected, MoneyMicros);
    }
  }

  lemma ReportSucceeds(s: Ledger, id: Id, price: Price, report: Report)
    requires id in s.reservations && s.reservations[id].state != Settled && s.reservations[id].state != Reconciled
    requires forall e :: !ReportFails(s, id, price, report, e)
    ensures var op := ReportOp(s, id, price, report);
            op.Success? && op.value.Some? && !op.value.value.SetProgram? && Decide(s, op.value.value).Success?
  {
    var op := ReportOp(s, id, price, report);
    if op.Failure? {
      assert ReportFails(s, id, price, report, op.error);
    } else if Decide(s, op.value.value).Failure? {
      assert ReportFails(s, id, price, report, LedgerRefused(Decide(s, op.value.value).error));
    }
  }

  /** What each report comes to, for a reservation that has no usage yet. */
  lemma ReportsAreAccounted(s: Ledger, id: Id, price: Price, report: Report)
    requires Inv(s) && id in s.reservations && s.reservations[id].state != Settled && s.reservations[id].state != Reconciled
    requires forall e :: !ReportFails(s, id, price, report, e)
    ensures Accounted(s, AfterReport(s, id, price, report), id, price, report)
  {
    var op := ReportOp(s, id, price, report);
    ReportSucceeds(s, id, price, report);
    match report
    case Found(event, usage) => FirstSettlementSpends(s, op.value.value.settle);
    case Unknown => FirstSettlementSpends(s, op.value.value.settle);
    case NotCalled =>
      if s.reservations[id].state != Released {
        ReleaseGivesBack(s, id, s.reservations[id].revision);
      }
  }

  // ----- What beginning a call reserves -----

  /** The call holds its upper bound under its envelope, active and named after the operation; no account changes. */
  ghost predicate Escrowed(s: Ledger, t: Ledger, operation: Id, parent: Id, amount: Vector) {
    var id := "reservation:" + operation;
    && parent in s.reservations && parent in t.reservations && id in t.reservations
    && t.accounts == s.accounts && t.spends == s.spends
    && t.reservations[id].account == s.reservations[parent].account && t.reservations[id].parent == Some(parent)
    && t.reservations[id].operationKey == "model:" + operation && t.reservations[id].reserved == amount
    && t.reservations[id].state == Active && t.reservations[id].providerRequest == Some(operation)
    && forall d :: EscrowedIn(s, t, operation, parent, amount, d)
  }

  /** A new call takes its amount from the envelope; one that was reserved before takes nothing again. */
  ghost predicate EscrowedIn(s: Ledger, t: Ledger, operation: Id, parent: Id, amount: Vector, d: Dimension)
    requires parent in s.reservations && parent in t.reservations
  {
    var known := exists r :: r in s.reservations && s.reservations[r].operationKey == "model:" + operation;
    At(s.reservations[parent].remaining, d) == At(t.reservations[parent].remaining, d) + (if known then 0 else At(amount, d))
  }

  lemma GrantedReserves(s: Ledger, operation: Id, program: Id, parent: Id, amount: Vector, d: Dimension)
    requires AllLinked(s) && parent in s.reservations
    requires Granted(s, GuardInput(operation, program, s.reservations[parent].account, parent, amount), operation)
    ensures var i := GuardInput(operation, program, s.reservations[parent].account, parent, amount);
            var t := Step(s, DoReserve(i));
            && i.id == "reservation:" + operation && i.id in t.reservations && t.accounts == s.accounts && t.spends == s.spends
            && t.reservations[i.id].account == s.reservations[parent].account && t.reservations[i.id].parent == Some(parent)
            && t.reservations[i.id].operationKey == "model:" + operation && t.reservations[i.id].reserved == amount
            && t.reservations[i.id].state == Created && parent in t.reservations && parent != i.id
            && EscrowedIn(s, t, operation, parent, amount, d)
  {
    var i := GuardInput(operation, program, s.reservations[parent].account, parent, amount);
    if KeyTaken(s.reservations, i.operationKey) {
      assert Linked(s, ByKey(s.reservations, i.operationKey));
    } else {
      ReserveUnderParentDoes(s, i, d);
    }
  }

  lemma GrantedEscrows(s: Ledger, operation: Id, program: Id, parent: Id, amount: Vector)
    requires AllLinked(s) && parent in s.reservations
    requires Granted(s, GuardInput(operation, program, s.reservations[parent].account, parent, amount), operation)
    ensures var i := GuardInput(operation, program, s.reservations[parent].account, parent, amount);
            var t := Step(s, DoReserve(i));
            Escrowed(s, Step(t, DoActivate(i.id, t.reservations[i.id].revision, operation)), operation, parent, amount)
  {
    var i := GuardInput(operation, program, s.reservations[parent].account, parent, amount);
    var t := Step(s, DoReserve(i));
    GrantedReserves(s, operation, program, parent, amount, MoneyMicros);
    ActivateDoes(t, i.id, t.reservations[i.id].revision, operation);
    forall d ensures EscrowedIn(s, t, operation, parent, amount, d) {
      GrantedReserves(s, operation, program, parent, amount, d);
    }
  }

  /** The envelope is open, its account may be used for execution in a program that still runs, and it holds enough. */
  ghost predicate EnvelopeAdmits(s: Ledger, program: Id, parent: Id, amount: Vector)
    requires parent in s.reservations
  {
    var p := s.reservations[parent];
    && (p.state == Created || p.state == Active)
    && (exists d :: At(amount, d) > 0) && (forall d :: At(amount, d) <= At(p.remaining, d))
    && p.account in s.accounts && s.accounts[p.account].program == program
    && s.accounts[p.account].kind in {Execution, Minimum, UpgradePool, Standard, Stretch}
    && program in s.programs && s.programs[program] !in {"completed", "incomplete", "cancelled"}
  }

  /** A call that was never reserved is granted exactly when its envelope admits it. */
  lemma NewCallGrantedExactly(s: Ledger, operation: Id, program: Id, parent: Id, amount: Vector)
    requires AllLinked(s) && parent in s.reservations && "reservation:" + operation !in s.reservations
    requires forall r :: r in s.reservations ==> s.reservations[r].operationKey != "model:" + operation
    ensures Granted(s, GuardInput(operation, program, s.reservations[parent].account, parent, amount), operation)
            <==> EnvelopeAdmits(s, program, parent, amount)
  {
    var i := GuardInput(operation, program, s.reservations[parent].account, parent, amount);
    assert NewKey(s, i);
    ReserveChecks(s, i);
    if Admitted(s, i) {
      ReserveUnderParentExactly(s, i);
    }
    if Reserve(s, i).Success? {
      NewCallActivates(s, i, operation);
    }
  }

  lemma NewCallActivates(s: Ledger, i: ReserveInput, operation: Id)
    requires AllLinked(s) && NewKey(s, i) && Reserve(s, i).Success? && i.parent.Some?
    ensures Granted(s, i, operation)
  {
    ReserveUnderParentDoes(s, i, MoneyMicros);
    ActivateDoes(Step(s, DoReserve(i)), i.id, 0, operation);
  }

  // ----- The service -----

  /** The catalog still has the price that was frozen for the program. */
  predicate SamePrice(frozen: Option<Price>, current: Option<Price>, sameRevision: bool) {
    frozen.Some? && current.Some? && sameRevision && frozen == current
  }

  /** The reservation for a call is made, and is then one that can be activated. */
  ghost predicate Granted(s: Ledger, i: ReserveInput, operation: Id) {
    && Reserve(s, i).Success?
    && var t := Step(s, DoReserve(i));
       i.id in t.reservations && Activate(t, i.id, t.reservations[i.id].revision, operation).Success?
  }

  class ModelCallService {
    const ledger: BudgetLedger
    const mode: Mode
    /** The audit records of calls that were begun, by operation. */
    var begun: map<Id, Call>
    /** The audit records of calls that were finished, with the usage that was reported. */
    var finished: map<Id, Option<Usage>>

    constructor (ledger: BudgetLedger, mode: Mode)
      ensures this.ledger == ledger && this.mode == mode && begun == map[] && finished == map[]
    {
      this.ledger, this.mode := ledger, mode;
      begun, finished := map[], map[];
    }

    /** UsageReconciler.applyResult. */
    method ApplyResult(id: Id, price: Price, report: Report) returns (result: Result<Reconciliation, CallError>)
      requires ledger.Valid()
      modifies ledger
      ensures ledger.Valid() && ledger.State() == AfterReport(old(ledger.State()), id, price, report)
      ensures match result
              case Failure(e) => ReportFails(old(ledger.State()), id, price, report, e)
              case Success(done) =>
                && (forall e :: !ReportFails(old(ledger.State()), id, price, report, e))
                && id in old(ledger.reservations) && id in ledger.reservations && done.row == ledger.reservations[id]
                && (done.action == AlreadyFinal <==> HasUsage(old(ledger.reservations)[id].state))
                && (done.action != AlreadyFinal ==>
                      done.action == match report
                                     case Found(_, _) => ReportSettled
                                     case NotCalled => ReportReleased
                                     case Unknown => Conservative)
                && (done.action != AlreadyFinal && Inv(old(ledger.State())) ==>
                      Accounted(old(ledger.State()), ledger.State(), id, price, report))
                && (done.action == AlreadyFinal ==> ledger.State() == old(ledger.State()))
    {
      if id !in ledger.reservations {
        return Failure(ReservationMissing);
      }
      var r := ledger.reservations[id];
      if HasUsage(r.state) {
        return Success(Reconciliation(AlreadyFinal, r));
      }
      ghost var s := ledger.State();
      var res;
      var action;
      if report.Found? {
        var actual := PriceUsage(price, report.usage);
        if actual.Failure? {
          return Failure(Priced(actual.error));
        }
        res := ledger.Settle(SettleInput(id, report.event, actual.value));
        action := ReportSettled;
      } else if report.NotCalled? {
        res := ledger.Release(id, r.revision);
        action := ReportReleased;
      } else {
        res := ledger.Settle(SettleInput(id, ReconcileEventOf(id), r.reserved));
        action := Conservative;
      }
      if res.Failure? {
        return Failure(LedgerRefused(res.error));
      }
      ReturnedIsLeft(s, ReportOp(s, id, price, report).value.value, id);
      if Inv(s) {
        ReportsAreAccounted(s, id, price, report);
      }
      result := Success(Reconciliation(action, res.value));
    }

    /** The guard's decision on a call under a parent reservation, by the frozen price and the catalog's. */
    method Judge(parent: Id, frozen: Option<Price>, current: Option<Price>, sameRevision: bool, bound: Usage)
      returns (reason: Reason, amount: Result<Vector, PriceError>)
      requires parent in ledger.reservations
      ensures amount == if frozen.Some? then EstimateUsage(frozen.value, bound) else Success(map[])
      ensures amount.Success? ==>
                && (reason == ModelPriceMissing <==> frozen.None? || current.None?)
                && (reason == PricingChanged <==> frozen.Some? && current.Some? && (!sameRevision || frozen.value != current.value))
                && (reason == Allowed <==>
                      SamePrice(frozen, current, sameRevision) && Fits(amount.value, ledger.reservations[parent].remaining))
    {
      amount := Success(map[]);
      if frozen.Some? {
        amount := PriceUsage(frozen.value, bound);
      }
      reason := if frozen.None? || current.None? then ModelPriceMissing
                else if !sameRevision || frozen != current then PricingChanged
                else if amount.Success? && Fits(amount.value, ledger.reservations[parent].remaining) then Allowed
                else InsufficientBudget;
    }

    /** The reservation for a call that may go ahead, made and activated; all or nothing. */
    method ReserveCall(operation: Id, program: Id, parent: Id, amount: Vector) returns (error: Option<LedgerError>)
      requires ledger.Valid() && parent in ledger.reservations
      modifies ledger
      ensures ledger.Valid()
      ensures error.Some? ==> ledger.State() == old(ledger.State())
      ensures var s := old(ledger.State());
              var i := GuardInput(operation, program, s.reservations[parent].account, parent, amount);
              && (error.None? <==> Granted(s, i, operation))
              && (error.None? ==>
                    var t := Step(s, DoReserve(i));
                    ledger.State() == Step(t, DoActivate(i.id, t.reservations[i.id].revision, operation)))
    {
      var r := ledger.reservations[parent];
      var accounts0, reservations0, spends0 := ledger.accounts, ledger.reservations, ledger.spends;
      var i := GuardInput(operation, program, r.account, parent, amount);
      ReserveNamesRow(ledger.State(), i);
      var res := ledger.Reserve(i);
      if res.Failure? {
        return Some(res.error);
      }
      var activated := ledger.Activate(ReservationOf(operation), ledger.reservations[ReservationOf(operation)].revision, operation);
      if activated.Failure? {
        ledger.RollBack(accounts0, reservations0, spends0);
        return Some(activated.error);
      }
      error := None;
    }

    /** The call may be dispatched: always in shadow mode, otherwise at the frozen price and out of its envelope. */
    ghost predicate Dispatchable(
      operation: Id, program: Id, parent: Id, frozen: Option<Price>, current: Option<Price>, sameRevision: bool, bound: Usage)
      reads this, ledger
      requires ledger.Valid() && parent in ledger.reservations
    {
      var r := ledger.reservations[parent];
      mode == Shadow ||
      (&& SamePrice(frozen, current, sameRevision) && EstimateUsage(frozen.value, bound).Success?
       && var amount := EstimateUsage(frozen.value, bound).value;
          && Fits(amount, r.remaining)
          && Granted(ledger.State(), GuardInput(operation, program, r.account, parent, amount), operation))
    }

    /** The guard can be asked at all: the bound has a price and the account's totals can be added. */
    ghost predicate Estimable(parent: Id, frozen: Option<Price>, bound: Usage)
      reads ledger
      requires ledger.Valid() && parent in ledger.reservations
    {
      assert Linked(ledger.State(), parent);
      var account := ledger.accounts[ledger.reservations[parent].account];
      (frozen.Some? ==> EstimateUsage(frozen.value, bound).Success?) && AddFits(account.spent, account.reserved)
    }

    /** processCall at stage begin: at most once for each operation, and only inside an envelope. */
    method Begin(
      operation: Id, program: Id, parent: Id, frozen: Option<Price>, current: Option<Price>, sameRevision: bool, bound: Usage)
      returns (error: Option<CallError>)
      requires ledger.Valid() && this as object != ledger
      modifies this, ledger
      ensures ledger.Valid() && finished == old(finished)
      ensures error.Some? ==> begun == old(begun) && ledger.State() == old(ledger.State())
      ensures operation in old(begun) ==> error == Some(AlreadyDispatched)
      ensures operation !in old(begun) && parent !in old(ledger.reservations) ==> error == Some(EnvelopeMissing)
      ensures operation !in old(begun) && parent in old(ledger.reservations) ==>
                (error.None? <==>
                   old(Estimable(parent, frozen, bound)
                       && Dispatchable(operation, program, parent, frozen, current, sameRevision, bound)))
      ensures error.None? ==>
                && operation !in old(begun) && begun.Keys == old(begun).Keys + {operation}
                && (forall o <- old(begun).Keys :: begun[o] == old(begun)[o])
                && parent in old(ledger.reservations)
                && match begun[operation].reservation
                   case None => mode == Shadow && ledger.State() == old(ledger.State())
                   case Some(id) =>
                     && mode == Soft && Covered(ledger.State(), id, begun[operation].price, bound) && frozen == Some(begun[operation].price)
                     && Escrowed(old(ledger.State()), ledger.State(), operation, parent, EstimateUsage(begun[operation].price, bound).value)
    {
      if operation in begun {
        return Some(AlreadyDispatched);
      }
      if parent !in ledger.reservations {
        return Some(EnvelopeMissing);
      }
      var call := Consider(operation, program, parent, frozen, current, sameRevision, bound);
      if call.Failure? {
        return Some(call.error);
      }
      begun := begun[operation := call.value];
      error := None;
    }

    /** ShadowModelGuard.evaluate, and the activation of the reservation it made. */
    method Consider(
      operation: Id, program: Id, parent: Id, frozen: Option<Price>, current: Option<Price>, sameRevision: bool, bound: Usage)
      returns (call: Result<Call, CallError>)
      requires ledger.Valid() && parent in ledger.reservations
      modifies ledger
      ensures ledger.Valid()
      ensures call.Failure? ==> ledger.State() == old(ledger.State())
      ensures call.Success? <==>
                old(Estimable(parent, frozen, bound) && Dispatchable(operation, program, parent, frozen, current, sameRevision, bound))
      ensures call.Success? ==>
                match call.value.reservation
                case None => mode == Shadow && ledger.State() == old(ledger.State())
                case Some(id) =>
                  && mode == Soft && Covered(ledger.State(), id, call.value.price, bound) && frozen == Some(call.value.price)
                  && Escrowed(old(ledger.State()), ledger.State(), operation, parent, EstimateUsage(call.value.price, bound).value)
    {
      var reason, amount := Judge(parent, frozen, current, sameRevision, bound);
      if amount.Failure? {
        return Failure(Priced(amount.error));
      }
      assert Linked(ledger.State(), parent);
      var account := ledger.accounts[ledger.reservations[parent].account];
      if !AddFits(account.spent, account.reserved) {
        return Failure(LedgerRefused(BudgetOverflow));
      }
      if mode == Soft && reason != Allowed {
        return Failure(Denied(reason));
      }
      if mode == Shadow {
        return Success(Call(if frozen.Some? then frozen.value else Price(0, 0, 0, 0, 0), None));
      }
      var failed := CoverCall(operation, program, parent, frozen.value, bound, amount.value);
      if failed.Some? {
        return Failure(LedgerRefused(failed.value));
      }
      call := Success(Call(frozen.value, Some(ReservationOf(operation))));
    }

    /** The reservation of a call that was judged and allowed. */
    method CoverCall(operation: Id, program: Id, parent: Id, price: Price, bound: Usage, amount: Vector) returns (error: Option<LedgerError>)
      requires ledger.Valid() && parent in ledger.reservations && EstimateUsage(price, bound) == Success(amount)
      modifies ledger
      ensures ledger.Valid()
      ensures error.Some? ==> ledger.State() == old(ledger.State())
      ensures error.None? <==>
                old(Granted(ledger.State(), GuardInput(operation, program, ledger.reservations[parent].account, parent, amount), operation))
      ensures error.None? ==>
                && Covered(ledger.State(), ReservationOf(operation), price, bound)
                && Escrowed(old(ledger.State()), ledger.State(), operation, parent, amount)
    {
      ghost var s := ledger.State();
      error := ReserveCall(operation, program, parent, amount);
      if error.None? {
        CallIsCovered(s, ledger.State(), operation, program, parent, price, bound);
        GrantedEscrows(s, operation, program, parent, amount);
      }
    }

    /** processCall at stage finish: a repeat must report the same, and late usage is still accounted. */
    method Finish(operation: Id, usage: Option<Usage>) returns (error: Option<CallError>)
      requires ledger.Valid() && this as object != ledger
      modifies this, ledger
      ensures ledger.Valid() && begun == old(begun)
      ensures operation !in begun ==> error == Some(NotStarted) && ledger.State() == old(ledger.State())
      ensures operation in begun && operation in old(finished) && old(finished)[operation] != usage ==>
                error == Some(UsageConflict) && ledger.State() == old(ledger.State())
      ensures error.Some? ==> finished == old(finished)
      ensures error.None? ==> finished == (if operation in old(finished) then old(finished) else old(finished)[operation := usage])
      ensures operation in begun && (operation in old(finished) ==> old(finished)[operation] == usage) ==>
                match begun[operation].reservation
                case None => ledger.State() == old(ledger.State()) && error.None?
                case Some(id) =>
                  var report := if usage.Some? then Found(UsageEventOf(operation), usage.value) else Unknown;
                  && ledger.State() == AfterReport(old(ledger.State()), id, begun[operation].price, report)
                  && (match error
                      case Some(e) => ReportFails(old(ledger.State()), id, begun[operation].price, report, e)
                      case None => forall e :: !ReportFails(old(ledger.State()), id, begun[operation].price, report, e))
      ensures error.None? && Inv(old(ledger.State())) && begun[operation].reservation.Some? ==>
                var id := begun[operation].reservation.value;
                && id in old(ledger.reservations)
                && (if old(ledger.reservations)[id].state == Settled || old(ledger.reservations)[id].state == Reconciled
                    then ledger.State() == old(ledger.State())
                    else Accounted(old(ledger.State()), ledger.State(), id, begun[operation].price,
                                   if usage.Some? then Found("model-usage:" + operation, usage.value) else Unknown))
    {
      if operation !in begun {
        return Some(NotStarted);
      }
      if operation in finished && finished[operation] != usage {
        return Some(UsageConflict);
      }
      var call := begun[operation];
      if call.reservation.Some? {
        var report := if usage.Some? then Found(UsageEventOf(operation), usage.value) else Unknown;
        var result := ApplyResult(call.reservation.value, call.price, report);
        if result.Failure? {
          return Some(result.error);
        }
      }
      if operation !in finished {
        finished := finished[operation := usage];
      }
      error := None;
    }
  }

  // ----- Reported usage always fits -----

  /** The reservation holds the estimate of a call's upper bound. */
  ghost predicate Covered(s: Ledger, id: Id, price: Price, bound: Usage) {
    id in s.reservations && EstimateUsage(price, bound).Success? && s.reservations[id].reserved == EstimateUsage(price, bound).value
  }

  lemma ReserveNamesRow(s: Ledger, i: ReserveInput)
    requires AllLinked(s)
    ensures Reserve(s, i).Success? ==> i.id in Step(s, DoReserve(i)).reservations && Step(s, DoReserve(i)).reservations[i.id].reserved == i.amount
  {
    if Reserve(s, i).Success? && Reserve(s, i).value.Write? {
      ReserveRow(s, i);
    }
  }

  lemma CallIsCovered(s: Ledger, t: Ledger, operation: Id, program: Id, parent: Id, price: Price, bound: Usage)
    requires WellFormed(s) && parent in s.reservations && EstimateUsage(price, bound).Success?
    requires var i := GuardInput(operation, program, s.reservations[parent].account, parent, EstimateUsage(price, bound).value);
             var u := Step(s, DoReserve(i));
             Reserve(s, i).Success? && i.id in u.reservations && t == Step(u, DoActivate(i.id, u.reservations[i.id].revision, operation))
    ensures Covered(t, ReservationOf(operation), price, bound)
  {
    var i := GuardInput(operation, program, s.reservations[parent].account, parent, EstimateUsage(price, bound).value);
    var u := Step(s, DoReserve(i));
    ReserveNamesRow(s, i);
    StepWellFormed(s, DoReserve(i));
    StepEvolves(u, DoActivate(i.id, u.reservations[i.id].revision, operation));
    assert SameReservation(u.reservations[i.id], t.reservations[i.id]);
  }

  /** A reservation keeps covering its call whatever else happens to the ledger. */
  lemma CoverLasts(s: Ledger, ops: seq<Op>, id: Id, price: Price, bound: Usage)
    requires WellFormed(s) && Covered(s, id, price, bound)
    ensures WellFormed(Run(s, ops)) && Covered(Run(s, ops), id, price, bound)
  {
    RunEvolves(s, ops);
    assert SameReservation(s.reservations[id], Run(s, ops).reservations[id]);
  }

  /**
   * Main result: a call begun with an upper bound and finished, after any other ledger operations,
   * with usage at or below it is priced, and its settlement is never refused as exceeding.
   */
  lemma ReportedUsageNeverExceeds(s: Ledger, ops: seq<Op>, id: Id, price: Price, bound: Usage, usage: Usage, event: Id)
    requires WellFormed(s) && Covered(s, id, price, bound) && UsageWithin(usage, bound)
    ensures EstimateUsage(price, usage).Success?
    ensures var i := SettleInput(id, event, EstimateUsage(price, usage).value);
            Settle(Run(s, ops), i) != Failure(Exceeded)
    ensures forall e :: e == LedgerRefused(Exceeded) || e.Priced? || e == ReservationMissing ==>
              !ReportFails(Run(s, ops), id, price, Found(event, usage), e)
  {
    CoverLasts(s, ops, id, price, bound);
    CoveredUsageSettles(Run(s, ops), id, price, bound, usage, event);
  }

  lemma CoveredUsageSettles(t: Ledger, id: Id, price: Price, bound: Usage, usage: Usage, event: Id)
    requires Covered(t, id, price, bound) && UsageWithin(usage, bound)
    ensures EstimateUsage(price, usage).Success?
    ensures Settle(t, SettleInput(id, event, EstimateUsage(price, usage).value)) != Failure(Exceeded)
    ensures forall e :: e == LedgerRefused(Exceeded) || e.Priced? || e == ReservationMissing ==>
              !ReportFails(t, id, price, Found(event, usage), e)
  {
    EstimateMonotone(price, usage, bound);
    NotExceeded(t, SettleInput(id, event, EstimateUsage(price, usage).value));
  }

  lemma NotExceeded(s: Ledger, i: SettleInput)
    requires i.reservation in s.reservations && Fits(i.actual, s.reservations[i.reservation].reserved)
    ensures Settle(s, i) != Failure(Exceeded)
  {
  }

  /** Nor is a conservative settlement, which charges all that was reserved. */
  lemma ConservativeNeverExceeds(s: Ledger, id: Id, price: Price)
    requires id in s.reservations
    ensures !ReportFails(s, id, price, Unknown, LedgerRefused(Exceeded))
  {
  }

  /** The calls of a service: nothing is drawn from a call's reservation, and only calls are settled. */
  ghost predicate OnlyCalls(ops: seq<Op>, calls: set<Id>) {
    forall k :: 0 <= k < |ops| ==> OnlyCall(ops[k], calls)
  }

  ghost predicate OnlyCall(op: Op, calls: set<Id>) {
    && (op.DoReserve? && op.reserve.parent.Some? ==> op.reserve.parent.value !in calls)
    && (op.DoSettle? ==> op.settle.reservation in calls)
  }

  ghost predicate CallsAreLeaves(rs: Reservations, calls: set<Id>) {
    forall id :: id in calls ==> IsLeaf(rs, id)
  }

  lemma StepKeepsLeaves(s: Ledger, op: Op, calls: set<Id>)
    requires AllLinked(s) && OnlyCall(op, calls) && CallsAreLeaves(s.reservations, calls)
    ensures CallsAreLeaves(Step(s, op).reservations, calls)
  {
    var t := Step(s, op);
    StepEvolves(s, op);
    forall id, c | id in calls && c in t.reservations ensures t.reservations[c].parent != Some(id) {
      assert IsLeaf(s.reservations, id);
      if c in s.reservations {
        assert SameReservation(s.reservations[c], t.reservations[c]);
      } else {
        NewRow(s, op, c);
      }
    }
  }

  /**
   * Main result: reserving envelopes and calls, activating, releasing, and settling calls keeps all
   * the books and all the envelopes; the service owes the ledger no other care.
   */
  lemma {:induction false} CallsKeepBooks(s: Ledger, ops: seq<Op>, calls: set<Id>)
    requires Inv(s) && EnvelopeInv(s) && OnlyCalls(ops, calls) && CallsAreLeaves(s.reservations, calls)
    ensures LeafRun(s, ops) && Inv(Run(s, ops)) && EnvelopeInv(Run(s, ops))
    decreases |ops|
  {
    if |ops| > 0 {
      assert OnlyCall(ops[0], calls);
      assert SettlesLeaf(s, ops[0]);
      LeafRunKeepsBooks(s, [ops[0]]);
      assert Run(s, [ops[0]]) == Step(s, ops[0]) by {
        assert [ops[0]][1..] == [];
        assert Run(Step(s, ops[0]), []) == Step(s, ops[0]);
      }
      StepKeepsLeaves(s, ops[0], calls);
      CallsKeepBooks(Step(s, ops[0]), ops[1..], calls);
    }
  }
}
