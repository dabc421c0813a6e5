/**
 * The budget ledger as a state machine (src/budget/budget-ledger.ts).
 *
 * A ledger value is the content of the tables budget_accounts, budget_reservations, spend_events
 * and programs.  Each operation of BudgetLedger is one transaction: it either returns a row and
 * the new tables, or throws and leaves the tables as they were.
 */
module LedgerModel {
  import opened Wrappers
  import opened BudgetVectors

  type Id = string

  datatype Kind =
    | Root | Planning | Execution | Minimum | UpgradePool | Standard | Stretch
    | Validation | Contingency | Closeout

  datatype ConsumerClass = ForPlanning | ForExecution | ForValidation | ForContingency | ForCloseout

  datatype ReservationState =
    | Created | Active | Settled | Released | Uncertain | Reconciled | Rejected | Expired

  datatype Account = Account(
    program: Id, parent: Option<Id>, kind: Kind,
    limit: Vector, spent: Vector, reserved: Vector, isProtected: bool, revision: nat)

  datatype Reservation = Reservation(
    program: Id, account: Id, parent: Option<Id>, operationKey: Id, state: ReservationState,
    reserved: Vector, settled: Option<Vector>, remaining: Vector, providerRequest: Option<Id>, revision: nat)

  datatype Spend = Spend(reservation: Id, actual: Vector)

  type Accounts = map<Id, Account>
  type Reservations = map<Id, Reservation>

  datatype Ledger = Ledger(
    accounts: Accounts, reservations: Reservations, spends: map<Id, Spend>, programs: map<Id, string>)

  datatype LedgerError =
    | NotFound | Conflict | Exceeded | ProtectedPartition | InvalidState | ActiveChildren
    | BudgetOverflow | BudgetUnderflow | StorageConstraint

  datatype ReserveInput = ReserveInput(
    id: Id, program: Id, account: Id, parent: Option<Id>, operationKey: Id, amount: Vector, consumer: ConsumerClass)

  datatype SettleInput = SettleInput(reservation: Id, sourceEvent: Id, actual: Vector)

  /**
   * What a transaction that does not throw commits: either nothing, because the call repeats an
   * earlier one, or one row with its side effects on the account, the parent and the spend events.
   */
  datatype Effect =
    | Existing(row: Reservation)
    | Write(id: Id, row: Reservation, balance: Option<Balance>, parent: Option<Returned>, event: Option<SpendEvent>)

  datatype Balance = Balance(account: Id, spent: Vector, reserved: Vector)
  datatype Returned = Returned(reservation: Id, remaining: Vector)
  datatype SpendEvent = SpendEvent(source: Id, spend: Spend)

  type Decision = Result<Effect, LedgerError>

  // ----- Small predicates of the source -----

  function AllowedKinds(c: ConsumerClass): set<Kind> {
    match c
    case ForPlanning => {Planning}
    case ForExecution => {Execution, Minimum, UpgradePool, Standard, Stretch}
    case ForValidation => {Validation}
    case ForContingency => {Contingency}
    case ForCloseout => {Closeout}
  }

  predicate Terminal(status: string) {
    status == "completed" || status == "incomplete" || status == "cancelled"
  }

  /** The states release accepts, and the states in which a child keeps its parent from being released. */
  predicate Unfinished(st: ReservationState) {
    st == Created || st == Active || st == Uncertain || st == Expired
  }

  /** The states in which usage has been recorded. */
  predicate HasUsage(st: ReservationState) {
    st == Settled || st == Reconciled
  }

  ghost predicate KeyTaken(rs: Reservations, key: Id) {
    exists id :: id in rs && rs[id].operationKey == key
  }

  /** The row with this operation key, the column being declared UNIQUE. */
  ghost function ByKey(rs: Reservations, key: Id): (id: Id)
    requires KeyTaken(rs, key)
    ensures id in rs && rs[id].operationKey == key
  {
    var id :| id in rs && rs[id].operationKey == key;
    id
  }

  ghost predicate HasActiveChildren(rs: Reservations, id: Id) {
    exists c :: c in rs && rs[c].parent == Some(id) && Unfinished(rs[c].state)
  }

  function NewReservation(i: ReserveInput): Reservation {
    Reservation(i.program, i.account, i.parent, i.operationKey, Created, i.amount, None, i.amount, None, 0)
  }

  function Finalized(r: Reservation, st: ReservationState, settled: Vector): Reservation {
    r.(state := st, settled := Some(settled), remaining := map[], revision := r.revision + 1)
  }

  function WithRemaining(r: Reservation, remaining: Vector): Reservation {
    r.(remaining := remaining, revision := r.revision + 1)
  }

  function WithBalance(a: Account, spent: Vector, reserved: Vector): Account {
    a.(spent := spent, reserved := reserved, revision := a.revision + 1)
  }

  // ----- reserve -----

  ghost function Reserve(s: Ledger, i: ReserveInput): Decision {
    if IsZero(i.amount) then Failure(Conflict)
    else if KeyTaken(s.reservations, i.operationKey) then
      var taken := ByKey(s.reservations, i.operationKey);
      var row := s.reservations[taken];
      if taken != i.id || row.account != i.account || row.parent != i.parent || row.reserved != i.amount
      then Failure(Conflict)
      else Success(Existing(row))
    else if i.account !in s.accounts || s.accounts[i.account].program != i.program then Failure(NotFound)
    else if i.program !in s.programs || Terminal(s.programs[i.program]) then Failure(InvalidState)
    else if s.accounts[i.account].kind !in AllowedKinds(i.consumer) then Failure(ProtectedPartition)
    else if i.parent.Some? then ReserveUnderParent(s, i)
    else ReserveFromAccount(s, i)
  }

  function ReserveUnderParent(s: Ledger, i: ReserveInput): Decision
    requires i.parent.Some?
  {
    var p := i.parent.value;
    if p !in s.reservations || s.reservations[p].account != i.account
       || (s.reservations[p].state != Created && s.reservations[p].state != Active)
    then Failure(InvalidState)
    else if !Fits(i.amount, s.reservations[p].remaining) then Failure(Exceeded)
    else if i.id in s.reservations then Failure(StorageConstraint)
    else
      Success(Write(i.id, NewReservation(i), None,
                    Some(Returned(p, Minus(s.reservations[p].remaining, i.amount))), None))
  }

  function ReserveFromAccount(s: Ledger, i: ReserveInput): Decision
    requires i.account in s.accounts
  {
    var a := s.accounts[i.account];
    if !AddFits(a.spent, a.reserved) then Failure(BudgetOverflow)
    else if !Fits(Plus(a.spent, a.reserved), a.limit) then Failure(BudgetUnderflow)
    else if !Fits(i.amount, Minus(a.limit, Plus(a.spent, a.reserved))) then Failure(Exceeded)
    else if !AddFits(a.reserved, i.amount) then Failure(BudgetOverflow)
    else if i.id in s.reservations then Failure(StorageConstraint)
    else
      Success(Write(i.id, NewReservation(i), Some(Balance(i.account, a.spent, Plus(a.reserved, i.amount))), None, None))
  }

  // ----- activate, markUncertain -----

  function Transition(s: Ledger, id: Id, expected: nat, allowed: set<ReservationState>, next: ReservationState,
                      request: Option<Id>): Decision {
    if id !in s.reservations then Failure(NotFound)
    else
      var r := s.reservations[id];
      if r.revision != expected then Failure(Conflict)
      else if r.state !in allowed then Failure(InvalidState)
      else
        Success(Write(id, r.(state := next, revision := r.revision + 1,
                             providerRequest := if request.Some? then request else r.providerRequest),
                      None, None, None))
  }

  function Activate(s: Ledger, id: Id, expected: nat, request: Id): Decision {
    Transition(s, id, expected, {Created}, Active, Some(request))
  }

  function MarkUncertain(s: Ledger, id: Id, expected: nat): Decision {
    Transition(s, id, expected, {Created, Active}, Uncertain, None)
  }

  // ----- release -----

  ghost function Release(s: Ledger, id: Id, expected: nat): Decision {
    if id !in s.reservations then Failure(NotFound)
    else
      var r := s.reservations[id];
      if r.revision != expected then Failure(Conflict)
      else if r.state == Released then Success(Existing(r))
      else if !Unfinished(r.state) then Failure(InvalidState)
      else if HasActiveChildren(s.reservations, id) then Failure(ActiveChildren)
      else if r.account !in s.accounts then Failure(NotFound)
      else if r.parent.Some? then ReleaseToParent(s, id, r.parent.value)
      else ReleaseToAccount(s, id)
  }

  function ReleaseToParent(s: Ledger, id: Id, p: Id): Decision
    requires id in s.reservations
  {
    var r := s.reservations[id];
    if p !in s.reservations then Failure(NotFound)
    else if !AddFits(s.reservations[p].remaining, r.remaining) then Failure(BudgetOverflow)
    else
      Success(Write(id, Finalized(r, Released, map[]), None,
                    Some(Returned(p, Plus(s.reservations[p].remaining, r.remaining))), None))
  }

  function ReleaseToAccount(s: Ledger, id: Id): Decision
    requires id in s.reservations && s.reservations[id].account in s.accounts
  {
    var r := s.reservations[id];
    var a := s.accounts[r.account];
    if !Fits(r.remaining, a.reserved) then Failure(BudgetUnderflow)
    else
      Success(Write(id, Finalized(r, Released, map[]),
                    Some(Balance(r.account, a.spent, Minus(a.reserved, r.remaining))), None, None))
  }

  // ----- settle -----

  function Settle(s: Ledger, i: SettleInput): Decision {
    if i.sourceEvent in s.spends then
      var seen := s.spends[i.sourceEvent];
      if seen.reservation != i.reservation || seen.actual != i.actual then Failure(Conflict)
      else if i.reservation !in s.reservations then Failure(NotFound)
      else Success(Existing(s.reservations[i.reservation]))
    else if i.reservation !in s.reservations then Failure(NotFound)
    else
      var r := s.reservations[i.reservation];
      if HasUsage(r.state) then
        if r.settled != Some(i.actual) then Failure(Conflict) else Success(Existing(r))
      else if !Fits(i.actual, r.reserved) then Failure(Exceeded)
      else if r.account !in s.accounts then Failure(NotFound)
      else if r.state == Released then SettleLate(s, i)
      else if r.parent.Some? then SettleChild(s, i, r.parent.value)
      else SettleTop(s, i)
  }

  predicate Settleable(s: Ledger, i: SettleInput) {
    && i.reservation in s.reservations
    && s.reservations[i.reservation].account in s.accounts
    && Fits(i.actual, s.reservations[i.reservation].reserved)
  }

  function Usage(i: SettleInput): Option<SpendEvent> {
    Some(SpendEvent(i.sourceEvent, Spend(i.reservation, i.actual)))
  }

  /** Usage reported after a release: the spend is recorded, the reserved total is not touched. */
  function SettleLate(s: Ledger, i: SettleInput): Decision
    requires Settleable(s, i)
  {
    var r := s.reservations[i.reservation];
    var a := s.accounts[r.account];
    if !AddFits(a.spent, i.actual) then Failure(BudgetOverflow)
    else
      Success(Write(i.reservation, Finalized(r, Reconciled, i.actual),
                    Some(Balance(r.account, Plus(a.spent, i.actual), a.reserved)), None, Usage(i)))
  }

  /** A child gives the unused part of its reservation back to its parent. */
  function SettleChild(s: Ledger, i: SettleInput, p: Id): Decision
    requires Settleable(s, i)
  {
    var r := s.reservations[i.reservation];
    var a := s.accounts[r.account];
    if p !in s.reservations then Failure(NotFound)
    else if !AddFits(s.reservations[p].remaining, Minus(r.reserved, i.actual)) then Failure(BudgetOverflow)
    else if !AddFits(a.spent, i.actual) then Failure(BudgetOverflow)
    else if !Fits(i.actual, a.reserved) then Failure(BudgetUnderflow)
    else
      Success(Write(i.reservation, Finalized(r, Settled, i.actual),
                    Some(Balance(r.account, Plus(a.spent, i.actual), Minus(a.reserved, i.actual))),
                    Some(Returned(p, Plus(s.reservations[p].remaining, Minus(r.reserved, i.actual)))), Usage(i)))
  }

  /** A top-level reservation gives its whole remainder back to the account. */
  function SettleTop(s: Ledger, i: SettleInput): Decision
    requires Settleable(s, i)
  {
    var r := s.reservations[i.reservation];
    var a := s.accounts[r.account];
    if !AddFits(a.spent, i.actual) then Failure(BudgetOverflow)
    else if !Fits(r.remaining, a.reserved) then Failure(BudgetUnderflow)
    else
      Success(Write(i.reservation, Finalized(r, Settled, i.actual),
                    Some(Balance(r.account, Plus(a.spent, i.actual), Minus(a.reserved, r.remaining))), None, Usage(i)))
  }

  // ----- Committing -----

  function CommitAccounts(accounts: Accounts, b: Option<Balance>): Accounts {
    if b.Some? && b.value.account in accounts
    then accounts[b.value.account := WithBalance(accounts[b.value.account], b.value.spent, b.value.reserved)]
    else accounts
  }

  function CommitParent(rs: Reservations, p: Option<Returned>): Reservations {
    if p.Some? && p.value.reservation in rs
    then rs[p.value.reservation := WithRemaining(rs[p.value.reservation], p.value.remaining)]
    else rs
  }

  function CommitEvent(spends: map<Id, Spend>, e: Option<SpendEvent>): map<Id, Spend> {
    if e.Some? then spends[e.value.source := e.value.spend] else spends
  }

  function Commit(s: Ledger, e: Effect): Ledger {
    match e
    case Existing(_) => s
    case Write(id, row, balance, parent, event) =>
      Ledger(CommitAccounts(s.accounts, balance), CommitParent(s.reservations, parent)[id := row],
             CommitEvent(s.spends, event), s.programs)
  }

  // ----- Runs -----

  datatype Op =
    | DoReserve(reserve: ReserveInput)
    | DoActivate(id: Id, expected: nat, request: Id)
    | DoMarkUncertain(id: Id, expected: nat)
    | DoRelease(id: Id, expected: nat)
    | DoSettle(settle: SettleInput)
    | SetProgram(program: Id, status: string)

  ghost function Decide(s: Ledger, op: Op): Decision
    requires !op.SetProgram?
  {
    match op
    case DoReserve(i) => Reserve(s, i)
    case DoActivate(id, expected, request) => Activate(s, id, expected, request)
    case DoMarkUncertain(id, expected) => MarkUncertain(s, id, expected)
    case DoRelease(id, expected) => Release(s, id, expected)
    case DoSettle(i) => Settle(s, i)
  }

  /** One call: an operation that throws is rolled back. */
  ghost function Step(s: Ledger, op: Op): Ledger {
    if op.SetProgram? then s.(programs := s.programs[op.program := op.status])
    else
      match Decide(s, op)
      case Failure(_) => s
      case Success(e) => Commit(s, e)
  }

  ghost function Run(s: Ledger, ops: seq<Op>): Ledger
    decreases |ops|
  {
    if |ops| == 0 then s else Run(Step(s, ops[0]), ops[1..])
  }
}
