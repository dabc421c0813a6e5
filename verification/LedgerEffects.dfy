/**
 * What each call of the ledger does to the tables, amount by amount, and when it is refused
 * (src/budget/budget-ledger.ts).
 */
module LedgerEffects {
  import opened Wrappers
  import opened BudgetVectors
  import opened LedgerModel
  import opened LedgerFrames
  import opened LedgerInvariants
  import opened LedgerTheorems

  // ----- reserve -----

  /** No reservation has this operation key yet. */
  ghost predicate NewKey(s: Ledger, i: ReserveInput) {
    forall id :: id in s.reservations ==> s.reservations[id].operationKey != i.operationKey
  }

  /** Each kind of account is owned by one class of consumers; the root by none. */
  lemma ClassOwnsKind(c: ConsumerClass, k: Kind)
    ensures k in AllowedKinds(c) <==>
              match k
              case Root => false
              case Planning => c == ForPlanning
              case Validation => c == ForValidation
              case Contingency => c == ForContingency
              case Closeout => c == ForCloseout
              case _ => c == ForExecution
  {
  }

  /** The checks before any amount is looked at, in the order of the code. */
  lemma ReserveChecks(s: Ledger, i: ReserveInput)
    requires NewKey(s, i)
    ensures (forall d :: At(i.amount, d) == 0) ==> Reserve(s, i) == Failure(Conflict)
    ensures (exists d :: At(i.amount, d) > 0) ==>
              (i.account !in s.accounts || s.accounts[i.account].program != i.program <==> Reserve(s, i) == Failure(NotFound))
    ensures (exists d :: At(i.amount, d) > 0) && i.account in s.accounts && s.accounts[i.account].program == i.program ==>
              && (i.program !in s.programs || s.programs[i.program] in {"completed", "incomplete", "cancelled"} ==>
                    Reserve(s, i) == Failure(InvalidState))
              && (i.program in s.programs && s.programs[i.program] !in {"completed", "incomplete", "cancelled"} ==>
                    (Reserve(s, i) == Failure(ProtectedPartition) <==>
                       match s.accounts[i.account].kind
                       case Root => true
                       case Planning => i.consumer != ForPlanning
                       case Validation => i.consumer != ForValidation
                       case Contingency => i.consumer != ForContingency
                       case Closeout => i.consumer != ForCloseout
                       case _ => i.consumer != ForExecution))
  {
    ZeroMeans(i.amount);
    if i.account in s.accounts {
      ClassOwnsKind(i.consumer, s.accounts[i.account].kind);
    }
  }

  lemma ZeroMeans(v: Vector)
    ensures IsZero(v) <==> forall d :: At(v, d) == 0
  {
    if forall d :: At(v, d) == 0 {
      forall d | d in v.Keys ensures v[d] == 0 {
        assert At(v, d) == 0;
      }
    }
  }

  /** The account exists, belongs to a program that still runs, and is one the class may use. */
  ghost predicate Admitted(s: Ledger, i: ReserveInput) {
    && (exists d :: At(i.amount, d) > 0)
    && i.account in s.accounts && s.accounts[i.account].program == i.program
    && i.program in s.programs && s.programs[i.program] !in {"completed", "incomplete", "cancelled"}
    && s.accounts[i.account].kind in AllowedKinds(i.consumer)
  }

  /** A new call without a parent is granted exactly when what is spent, reserved and asked for fits the limit. */
  lemma ReserveOnAccountExactly(s: Ledger, i: ReserveInput)
    requires NewKey(s, i) && Admitted(s, i) && i.parent.None? && i.id !in s.reservations
    ensures var a := s.accounts[i.account];
            && (Reserve(s, i).Success? <==> forall d :: At(a.spent, d) + At(a.reserved, d) + At(i.amount, d) <= At(a.limit, d))
            && (Reserve(s, i) == Failure(Exceeded) <==>
                  && (forall d :: At(a.spent, d) + At(a.reserved, d) <= At(a.limit, d))
                  && exists d :: At(a.spent, d) + At(a.reserved, d) + At(i.amount, d) > At(a.limit, d))
            && (Reserve(s, i) == Failure(BudgetOverflow) <==> exists d :: At(a.spent, d) + At(a.reserved, d) > MAX_SAFE_INTEGER)
            && (Reserve(s, i).Failure? ==> Reserve(s, i).error in {Exceeded, BudgetOverflow, BudgetUnderflow})
  {
    var a := s.accounts[i.account];
    ZeroMeans(i.amount);
    AddFitsMeans(a.spent, a.reserved);
    AddFitsMeans(a.reserved, i.amount);
    assert Reserve(s, i) == ReserveFromAccount(s, i);
    if forall d :: At(a.spent, d) + At(a.reserved, d) + At(i.amount, d) <= At(a.limit, d) {
      assert forall d :: At(Plus(a.spent, a.reserved), d) <= At(a.limit, d);
      assert forall d :: At(i.amount, d) <= At(Minus(a.limit, Plus(a.spent, a.reserved)), d);
    }
  }

  /** Under a parent, exactly when the parent is open on the same account and holds enough. */
  lemma ReserveUnderParentExactly(s: Ledger, i: ReserveInput)
    requires NewKey(s, i) && Admitted(s, i) && i.parent.Some? && i.id !in s.reservations
    ensures var p := i.parent.value;
            var open := p in s.reservations && s.reservations[p].account == i.account
                        && (s.reservations[p].state == Created || s.reservations[p].state == Active);
            && (Reserve(s, i).Success? <==> open && forall d :: At(i.amount, d) <= At(s.reservations[p].remaining, d))
            && (Reserve(s, i) == Failure(InvalidState) <==> !open)
            && (Reserve(s, i) == Failure(Exceeded) <==> open && exists d :: At(i.amount, d) > At(s.reservations[p].remaining, d))
  {
    ZeroMeans(i.amount);
    assert Reserve(s, i) == ReserveUnderParent(s, i);
  }

  /** No account but this one changes, and it only in its amounts. */
  ghost predicate AccountsKept(s: Ledger, t: Ledger, account: Id) {
    && t.accounts.Keys == s.accounts.Keys
    && (forall a :: a in s.accounts && a != account ==> t.accounts[a] == s.accounts[a])
    && (account in s.accounts ==>
          var x, y := s.accounts[account], t.accounts[account];
          y == x.(spent := y.spent, reserved := y.reserved, revision := y.revision) && x.revision <= y.revision <= x.revision + 1)
  }

  /** No reservation changes but the one that is written and its parent, and that only in what it holds. */
  ghost predicate RowsKept(s: Ledger, t: Ledger, id: Id, parent: Option<Id>) {
    && t.reservations.Keys == s.reservations.Keys + {id}
    && (forall r :: r in s.reservations && r != id && parent != Some(r) ==> t.reservations[r] == s.reservations[r])
    && (parent.Some? && parent.value in s.reservations && parent.value != id ==>
          var x, y := s.reservations[parent.value], t.reservations[parent.value];
          y == x.(remaining := y.remaining, revision := x.revision + 1))
  }

  lemma CommitKeepsAccounts(s: Ledger, e: Effect, account: Id)
    requires e.Write? && (e.balance.Some? ==> e.balance.value.account == account)
    ensures AccountsKept(s, Commit(s, e), account) && Commit(s, e).programs == s.programs
    ensures e.balance.None? ==> Commit(s, e).accounts == s.accounts
    ensures account in s.accounts && e.balance.Some? ==>
              var b := Commit(s, e).accounts[account];
              b.spent == e.balance.value.spent && b.reserved == e.balance.value.reserved && b.revision == s.accounts[account].revision + 1
  {
  }

  lemma CommitKeepsRows(s: Ledger, e: Effect, parent: Option<Id>)
    requires e.Write? && Writable(s, e) && (if e.parent.Some? then Some(e.parent.value.reservation) else None) == parent
    ensures RowsKept(s, Commit(s, e), e.id, parent) && Commit(s, e).reservations[e.id] == e.row
    ensures parent.Some? ==> parent.value in s.reservations && Commit(s, e).reservations[parent.value].remaining == e.parent.value.remaining
    ensures Commit(s, e).spends == (if e.event.Some? then s.spends[e.event.value.source := e.event.value.spend] else s.spends)
  {
  }

  /** A call granted on an account adds one created row and reserves its amount there. */
  lemma ReserveOnAccountDoes(s: Ledger, i: ReserveInput, d: Dimension)
    requires AllLinked(s) && NewKey(s, i) && Reserve(s, i).Success? && i.parent.None?
    ensures var t := Step(s, DoReserve(i));
            && AccountsKept(s, t, i.account) && RowsKept(s, t, i.id, None) && t.spends == s.spends && t.programs == s.programs
            && i.id in t.reservations && t.reservations[i.id]
               == Reservation(i.program, i.account, None, i.operationKey, Created, i.amount, None, i.amount, None, 0)
            && i.account in s.accounts && t.accounts[i.account].spent == s.accounts[i.account].spent
            && t.accounts[i.account].revision == s.accounts[i.account].revision + 1
            && At(t.accounts[i.account].reserved, d) == At(s.accounts[i.account].reserved, d) + At(i.amount, d)
  {
    ReserveWritable(s, i);
    var e := Reserve(s, i).value;
    assert Reserve(s, i) == ReserveFromAccount(s, i);
    CommitKeepsAccounts(s, e, i.account);
    CommitKeepsRows(s, e, None);
  }

  /** A call granted under a parent adds one created row and takes its amount from the parent; no account changes. */
  lemma ReserveUnderParentDoes(s: Ledger, i: ReserveInput, d: Dimension)
    requires AllLinked(s) && NewKey(s, i) && Reserve(s, i).Success? && i.parent.Some?
    ensures var t, p := Step(s, DoReserve(i)), i.parent.value;
            && t.accounts == s.accounts && RowsKept(s, t, i.id, i.parent) && t.spends == s.spends && t.programs == s.programs
            && i.id in t.reservations && t.reservations[i.id]
               == Reservation(i.program, i.account, i.parent, i.operationKey, Created, i.amount, None, i.amount, None, 0)
            && p in s.reservations && p in t.reservations
            && At(s.reservations[p].remaining, d) == At(t.reservations[p].remaining, d) + At(i.amount, d)
  {
    ReserveWritable(s, i);
    var e := Reserve(s, i).value;
    assert Reserve(s, i) == ReserveUnderParent(s, i);
    CommitKeepsAccounts(s, e, i.account);
    CommitKeepsRows(s, e, i.parent);
  }

  // ----- activate, markUncertain -----

  lemma ActivateDoes(s: Ledger, id: Id, expected: nat, request: Id)
    ensures var op := DoActivate(id, expected, request);
            && (Decide(s, op).Success? <==> id in s.reservations && s.reservations[id].revision == expected && s.reservations[id].state == Created)
            && (Decide(s, op) == Failure(NotFound) <==> id !in s.reservations)
            && (Decide(s, op) == Failure(Conflict) <==> id in s.reservations && s.reservations[id].revision != expected)
            && (Decide(s, op) == Failure(InvalidState) <==>
                  id in s.reservations && s.reservations[id].revision == expected && s.reservations[id].state != Created)
            && (Decide(s, op).Success? ==>
                  Step(s, op) == s.(reservations := s.reservations[
                    id := s.reservations[id].(state := Active, providerRequest := Some(request), revision := expected + 1)]))
  {
  }

  lemma MarkUncertainDoes(s: Ledger, id: Id, expected: nat)
    ensures var op := DoMarkUncertain(id, expected);
            && (Decide(s, op).Success? <==>
                  && id in s.reservations && s.reservations[id].revision == expected
                  && (s.reservations[id].state == Created || s.reservations[id].state == Active))
            && (Decide(s, op) == Failure(NotFound) <==> id !in s.reservations)
            && (Decide(s, op) == Failure(Conflict) <==> id in s.reservations && s.reservations[id].revision != expected)
            && (Decide(s, op) == Failure(InvalidState) <==>
                  && id in s.reservations && s.reservations[id].revision == expected
                  && s.reservations[id].state != Created && s.reservations[id].state != Active)
            && (Decide(s, op).Success? ==>
                  Step(s, op) == s.(reservations := s.reservations[id := s.reservations[id].(state := Uncertain, revision := expected + 1)]))
  {
  }

  // ----- release -----

  /** Something was reserved under this row and is not finished. */
  ghost predicate HasOpenChild(s: Ledger, id: Id) {
    exists c :: c in s.reservations && s.reservations[c].parent == Some(id)
                && (s.reservations[c].state == Created || s.reservations[c].state == Active
                    || s.reservations[c].state == Uncertain || s.reservations[c].state == Expired)
  }

  lemma ReleaseAnswers(s: Ledger, id: Id, expected: nat)
    requires Inv(s)
    ensures Release(s, id, expected) == Failure(NotFound) <==> id !in s.reservations
    ensures Release(s, id, expected) == Failure(Conflict) <==> id in s.reservations && s.reservations[id].revision != expected
    ensures id in s.reservations && s.reservations[id].revision == expected ==>
              var st := s.reservations[id].state;
              && (Release(s, id, expected) == Failure(InvalidState) <==> st == Settled || st == Reconciled)
              && (Release(s, id, expected) == Failure(ActiveChildren) <==> st != Settled && st != Reconciled && st != Released && HasOpenChild(s, id))
              && (st == Released ==> Step(s, DoRelease(id, expected)) == s)
  {
    if id in s.reservations {
      assert Linked(s, id);
      ReleaseSucceedsExactly(s, id, expected);
    }
  }

  lemma ReleaseSteps(s: Ledger, id: Id, expected: nat)
    requires AllLinked(s) && Release(s, id, expected).Success? && s.reservations[id].state != Released
    ensures s.reservations[id].account in s.accounts
    ensures var r := s.reservations[id];
            var branch := if r.parent.Some? then ReleaseToParent(s, id, r.parent.value) else ReleaseToAccount(s, id);
            branch.Success? && Writable(s, branch.value) && Step(s, DoRelease(id, expected)) == Commit(s, branch.value)
  {
    assert Linked(s, id);
    ReleaseWritable(s, id, expected);
  }

  /** What a top-level reservation still held is no longer reserved on the account; nothing is spent. */
  lemma ReleaseToAccountDoes(s: Ledger, id: Id, expected: nat, d: Dimension)
    requires AllLinked(s) && Release(s, id, expected).Success? && s.reservations[id].state != Released && s.reservations[id].parent.None?
    ensures var t, r := Step(s, DoRelease(id, expected)), s.reservations[id];
            && AccountsKept(s, t, r.account) && RowsKept(s, t, id, None) && t.spends == s.spends && t.programs == s.programs
            && id in t.reservations
            && t.reservations[id] == r.(state := Released, settled := Some(map[]), remaining := map[], revision := r.revision + 1)
            && r.account in s.accounts && t.accounts[r.account].spent == s.accounts[r.account].spent
            && t.accounts[r.account].revision == s.accounts[r.account].revision + 1
            && At(s.accounts[r.account].reserved, d) == At(t.accounts[r.account].reserved, d) + At(r.remaining, d)
  {
    ReleaseSteps(s, id, expected);
    ToAccountCommits(s, id, d);
  }

  lemma ToAccountCommits(s: Ledger, id: Id, d: Dimension)
    requires id in s.reservations && s.reservations[id].account in s.accounts
    requires ReleaseToAccount(s, id).Success? && Writable(s, ReleaseToAccount(s, id).value)
    ensures var t, r := Commit(s, ReleaseToAccount(s, id).value), s.reservations[id];
            && AccountsKept(s, t, r.account) && RowsKept(s, t, id, None) && t.spends == s.spends && t.programs == s.programs
            && id in t.reservations
            && t.reservations[id] == r.(state := Released, settled := Some(map[]), remaining := map[], revision := r.revision + 1)
            && t.accounts[r.account].spent == s.accounts[r.account].spent
            && t.accounts[r.account].revision == s.accounts[r.account].revision + 1
            && At(s.accounts[r.account].reserved, d) == At(t.accounts[r.account].reserved, d) + At(r.remaining, d)
  {
    CommitKeepsAccounts(s, ReleaseToAccount(s, id).value, s.reservations[id].account);
    CommitKeepsRows(s, ReleaseToAccount(s, id).value, None);
  }

  /** What a child still held goes back to its parent; no account changes. */
  lemma ReleaseToParentDoes(s: Ledger, id: Id, expected: nat, d: Dimension)
    requires AllLinked(s) && Release(s, id, expected).Success? && s.reservations[id].state != Released && s.reservations[id].parent.Some?
    ensures var t, r := Step(s, DoRelease(id, expected)), s.reservations[id];
            && t.accounts == s.accounts && RowsKept(s, t, id, r.parent) && t.spends == s.spends && t.programs == s.programs
            && id in t.reservations
            && t.reservations[id] == r.(state := Released, settled := Some(map[]), remaining := map[], revision := r.revision + 1)
            && r.parent.value in s.reservations && r.parent.value in t.reservations
            && At(t.reservations[r.parent.value].remaining, d) == At(s.reservations[r.parent.value].remaining, d) + At(r.remaining, d)
  {
    ReleaseSteps(s, id, expected);
    ToParentCommits(s, id, s.reservations[id].parent.value, d);
  }

  lemma ToParentCommits(s: Ledger, id: Id, p: Id, d: Dimension)
    requires id in s.reservations && ReleaseToParent(s, id, p).Success? && Writable(s, ReleaseToParent(s, id, p).value)
    ensures var t, r := Commit(s, ReleaseToParent(s, id, p).value), s.reservations[id];
            && t.accounts == s.accounts && RowsKept(s, t, id, Some(p)) && t.spends == s.spends && t.programs == s.programs
            && id in t.reservations
            && t.reservations[id] == r.(state := Released, settled := Some(map[]), remaining := map[], revision := r.revision + 1)
            && p in s.reservations && p in t.reservations
            && At(t.reservations[p].remaining, d) == At(s.reservations[p].remaining, d) + At(r.remaining, d)
  {
    CommitKeepsRows(s, ReleaseToParent(s, id, p).value, Some(p));
  }

  // ----- settle -----

  /** The first usage reported for a reservation. */
  ghost predicate FirstUsage(s: Ledger, i: SettleInput) {
    && i.sourceEvent !in s.spends && i.reservation in s.reservations
    && s.reservations[i.reservation].state != Settled && s.reservations[i.reservation].state != Reconciled
  }

  /** Anything else is a repeat, which must agree with what is recorded. */
  lemma RepeatedUsage(s: Ledger, i: SettleInput)
    requires i.reservation in s.reservations && !FirstUsage(s, i)
    ensures Settle(s, i).Success? <==>
              if i.sourceEvent in s.spends
              then s.spends[i.sourceEvent].reservation == i.reservation && s.spends[i.sourceEvent].actual == i.actual
              else s.reservations[i.reservation].settled == Some(i.actual)
    ensures Settle(s, i).Failure? ==> Settle(s, i).error == Conflict
    ensures Step(s, DoSettle(i)) == s
  {
  }

  /** An event recorded for something else, and a reservation that does not exist. */
  lemma UnknownUsage(s: Ledger, i: SettleInput)
    ensures i.sourceEvent in s.spends && s.spends[i.sourceEvent] != Spend(i.reservation, i.actual) ==> Settle(s, i) == Failure(Conflict)
    ensures (i.sourceEvent in s.spends ==> s.spends[i.sourceEvent] == Spend(i.reservation, i.actual)) && i.reservation !in s.reservations ==>
              Settle(s, i) == Failure(NotFound)
  {
  }

  /** Nothing overflows: the account's spend, and below a parent what the parent regains. */
  ghost predicate UsageAddsUp(s: Ledger, i: SettleInput)
    requires i.reservation in s.reservations && s.reservations[i.reservation].account in s.accounts
  {
    var r := s.reservations[i.reservation];
    && (forall d :: At(s.accounts[r.account].spent, d) + At(i.actual, d) <= MAX_SAFE_INTEGER)
    && (r.state != Released && r.parent.Some? && r.parent.value in s.reservations ==>
          forall d :: At(s.reservations[r.parent.value].remaining, d) + At(r.reserved, d) - At(i.actual, d) <= MAX_SAFE_INTEGER)
  }

  /** The account has reserved what is to be freed: nothing when late, the usage of a child, the remainder of any other. */
  ghost predicate UsageIsReserved(s: Ledger, i: SettleInput)
    requires i.reservation in s.reservations && s.reservations[i.reservation].account in s.accounts
  {
    var r := s.reservations[i.reservation];
    r.state != Released ==>
      forall d :: (if r.parent.Some? then At(i.actual, d) else At(r.remaining, d)) <= At(s.accounts[r.account].reserved, d)
  }

  /** When a first settlement succeeds, and what it is refused for, whatever happened before. */
  lemma FirstUsageExactly(s: Ledger, i: SettleInput)
    requires AllLinked(s) && FirstUsage(s, i) && forall d :: At(i.actual, d) <= At(s.reservations[i.reservation].reserved, d)
    ensures s.reservations[i.reservation].account in s.accounts
    ensures Settle(s, i).Success? <==> UsageAddsUp(s, i) && UsageIsReserved(s, i)
    ensures Settle(s, i) == Failure(BudgetOverflow) <==> !UsageAddsUp(s, i)
    ensures Settle(s, i) == Failure(BudgetUnderflow) <==> UsageAddsUp(s, i) && !UsageIsReserved(s, i)
  {
    assert Linked(s, i.reservation);
    var r := s.reservations[i.reservation];
    var a := s.accounts[r.account];
    AddFitsMeans(a.spent, i.actual);
    if r.state != Released && r.parent.Some? {
      assert Fits(i.actual, r.reserved);
      AddFitsMeans(s.reservations[r.parent.value].remaining, Minus(r.reserved, i.actual));
    }
  }

  lemma UsageBeyondReservation(s: Ledger, i: SettleInput)
    requires AllLinked(s) && FirstUsage(s, i)
    ensures Settle(s, i) == Failure(Exceeded) <==> exists d :: At(i.actual, d) > At(s.reservations[i.reservation].reserved, d)
  {
    assert Linked(s, i.reservation);
  }

  /** First usage is recorded on the row and as an event, and charged to the account in full. */
  ghost predicate Charged(s: Ledger, t: Ledger, i: SettleInput, d: Dimension)
    requires i.reservation in s.reservations
  {
    var r := s.reservations[i.reservation];
    && AccountsKept(s, t, r.account) && t.programs == s.programs
    && i.reservation in t.reservations
    && t.reservations[i.reservation]
       == r.(state := if r.state == Released then Reconciled else Settled, settled := Some(i.actual), remaining := map[], revision := r.revision + 1)
    && t.spends == s.spends[i.sourceEvent := Spend(i.reservation, i.actual)]
    && r.account in s.accounts && t.accounts[r.account].revision == s.accounts[r.account].revision + 1
    && At(t.accounts[r.account].spent, d) == At(s.accounts[r.account].spent, d) + At(i.actual, d)
  }

  lemma SettleTakes(s: Ledger, i: SettleInput)
    requires AllLinked(s) && FirstUsage(s, i) && Settle(s, i).Success?
    ensures Settleable(s, i)
    ensures var r := s.reservations[i.reservation];
            Settle(s, i) == if r.state == Released then SettleLate(s, i)
                            else if r.parent.Some? then SettleChild(s, i, r.parent.value) else SettleTop(s, i)
  {
    SettleBranches(s, i);
  }

  lemma SettleCommits(s: Ledger, i: SettleInput)
    requires Settle(s, i).Success?
    ensures Step(s, DoSettle(i)) == Commit(s, Settle(s, i).value)
  {
  }

  /** The branch a first settlement takes. */
  lemma SettleSteps(s: Ledger, i: SettleInput)
    requires AllLinked(s) && FirstUsage(s, i) && Settle(s, i).Success?
    ensures Settleable(s, i)
    ensures var r := s.reservations[i.reservation];
            var branch := if r.state == Released then SettleLate(s, i)
                          else if r.parent.Some? then SettleChild(s, i, r.parent.value) else SettleTop(s, i);
            branch.Success? && Writable(s, branch.value) && Step(s, DoSettle(i)) == Commit(s, branch.value)
  {
    SettleWritable(s, i);
    SettleTakes(s, i);
    SettleCommits(s, i);
  }

  /** Late usage frees nothing. */
  lemma SettleLateDoes(s: Ledger, i: SettleInput, d: Dimension)
    requires AllLinked(s) && FirstUsage(s, i) && Settle(s, i).Success? && s.reservations[i.reservation].state == Released
    ensures var t, a := Step(s, DoSettle(i)), s.reservations[i.reservation].account;
            Charged(s, t, i, d) && RowsKept(s, t, i.reservation, None) && t.accounts[a].reserved == s.accounts[a].reserved
  {
    SettleSteps(s, i);
    LateCommits(s, i, d);
  }

  lemma LateCommits(s: Ledger, i: SettleInput, d: Dimension)
    requires Settleable(s, i) && SettleLate(s, i).Success? && Writable(s, SettleLate(s, i).value)
    requires s.reservations[i.reservation].state == Released
    ensures var t, r := Commit(s, SettleLate(s, i).value), s.reservations[i.reservation];
            && Charged(s, t, i, d) && RowsKept(s, t, i.reservation, None)
            && t.accounts[r.account].reserved == s.accounts[r.account].reserved
  {
    CommitKeepsAccounts(s, SettleLate(s, i).value, s.reservations[i.reservation].account);
    CommitKeepsRows(s, SettleLate(s, i).value, None);
  }

  /** A top-level reservation frees what it still held. */
  lemma SettleTopDoes(s: Ledger, i: SettleInput, d: Dimension)
    requires AllLinked(s) && FirstUsage(s, i) && Settle(s, i).Success?
    requires s.reservations[i.reservation].state != Released && s.reservations[i.reservation].parent.None?
    ensures var t, r := Step(s, DoSettle(i)), s.reservations[i.reservation];
            && Charged(s, t, i, d) && RowsKept(s, t, i.reservation, None)
            && At(s.accounts[r.account].reserved, d) == At(t.accounts[r.account].reserved, d) + At(r.remaining, d)
  {
    SettleSteps(s, i);
    TopCommits(s, i, d);
  }

  lemma TopCommits(s: Ledger, i: SettleInput, d: Dimension)
    requires Settleable(s, i) && SettleTop(s, i).Success? && Writable(s, SettleTop(s, i).value)
    requires s.reservations[i.reservation].state != Released
    ensures var t, r := Commit(s, SettleTop(s, i).value), s.reservations[i.reservation];
            && Charged(s, t, i, d) && RowsKept(s, t, i.reservation, None)
            && At(s.accounts[r.account].reserved, d) == At(t.accounts[r.account].reserved, d) + At(r.remaining, d)
  {
    CommitKeepsAccounts(s, SettleTop(s, i).value, s.reservations[i.reservation].account);
    CommitKeepsRows(s, SettleTop(s, i).value, None);
  }

  /** A child frees what it used and gives its parent what it did not. */
  lemma SettleChildDoes(s: Ledger, i: SettleInput, d: Dimension)
    requires AllLinked(s) && FirstUsage(s, i) && Settle(s, i).Success?
    requires s.reservations[i.reservation].state != Released && s.reservations[i.reservation].parent.Some?
    ensures var t, r := Step(s, DoSettle(i)), s.reservations[i.reservation];
            var p := r.parent.value;
            && Charged(s, t, i, d) && RowsKept(s, t, i.reservation, r.parent)
            && At(s.accounts[r.account].reserved, d) == At(t.accounts[r.account].reserved, d) + At(i.actual, d)
            && p in s.reservations && p in t.reservations
            && At(t.reservations[p].remaining, d) + At(i.actual, d) == At(s.reservations[p].remaining, d) + At(r.reserved, d)
  {
    SettleSteps(s, i);
    ChildCommits(s, i, s.reservations[i.reservation].parent.value, d);
  }

  lemma ChildCommits(s: Ledger, i: SettleInput, p: Id, d: Dimension)
    requires Settleable(s, i) && SettleChild(s, i, p).Success? && Writable(s, SettleChild(s, i, p).value)
    requires s.reservations[i.reservation].state != Released
    ensures var t, r := Commit(s, SettleChild(s, i, p).value), s.reservations[i.reservation];
            && Charged(s, t, i, d) && RowsKept(s, t, i.reservation, Some(p))
            && At(s.accounts[r.account].reserved, d) == At(t.accounts[r.account].reserved, d) + At(i.actual, d)
            && p in s.reservations && p in t.reservations
            && At(t.reservations[p].remaining, d) + At(i.actual, d) == At(s.reservations[p].remaining, d) + At(r.reserved, d)
  {
    ChildEntries(s, i, p, d);
    CommitKeepsAccounts(s, SettleChild(s, i, p).value, s.reservations[i.reservation].account);
    CommitKeepsRows(s, SettleChild(s, i, p).value, Some(p));
  }

  lemma ChildEntries(s: Ledger, i: SettleInput, p: Id, d: Dimension)
    requires Settleable(s, i) && SettleChild(s, i, p).Success?
    ensures var e, r := SettleChild(s, i, p).value, s.reservations[i.reservation];
            && e.Write? && e.balance.Some? && e.parent.Some? && p in s.reservations
            && At(e.balance.value.spent, d) == At(s.accounts[r.account].spent, d) + At(i.actual, d)
            && At(s.accounts[r.account].reserved, d) == At(e.balance.value.reserved, d) + At(i.actual, d)
            && At(e.parent.value.remaining, d) + At(i.actual, d) == At(s.reservations[p].remaining, d) + At(r.reserved, d)
  {
  }
}
