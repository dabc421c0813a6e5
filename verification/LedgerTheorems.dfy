/**
 * Consequences of the ledger invariants: which calls can throw, exactly when a settlement keeps
 * the books, and what goes wrong without the discipline.
 */
module LedgerTheorems {
  import opened Wrappers
  import opened Totals
  import opened BudgetVectors
  import opened LedgerModel
  import opened LedgerFrames
  import opened LedgerInvariants

  // ----- Room in the sums -----

  /** What one reservation holds is part of what its account has reserved. */
  lemma HeldByAccount(s: Ledger, id: Id, d: Dimension)
    requires AllLinked(s) && Books(s) && id in s.reservations
    ensures s.reservations[id].account in s.accounts
    ensures At(s.reservations[id].remaining, d) <= At(s.accounts[s.reservations[id].account].reserved, d)
  {
    assert Linked(s, id);
    var a := s.reservations[id].account;
    assert BooksAt(s, a, d);
    TotalAtLeastOne(s.reservations, RemainingOn(a, d), id);
  }

  /** A child and its parent hold their amounts separately. */
  lemma HeldByTwo(s: Ledger, id: Id, d: Dimension)
    requires AllLinked(s) && Books(s) && id in s.reservations && s.reservations[id].parent.Some?
    ensures s.reservations[id].parent.value in s.reservations
    ensures At(s.reservations[id].remaining, d) + At(s.reservations[s.reservations[id].parent.value].remaining, d) <= MAX_SAFE_INTEGER
  {
    assert Linked(s, id);
    var a, p := s.reservations[id].account, s.reservations[id].parent.value;
    assert BooksAt(s, a, d);
    TotalAtLeastTwo(s.reservations, RemainingOn(a, d), id, p);
  }

  // ----- Which calls throw -----

  /** The reservations release accepts. */
  ghost predicate Releasable(s: Ledger, id: Id, expected: nat) {
    && id in s.reservations && s.reservations[id].revision == expected
    && (s.reservations[id].state == Released
        || (Unfinished(s.reservations[id].state) && !HasActiveChildren(s.reservations, id)))
  }

  /** Release throws only for the reasons a caller can see: no arithmetic error is possible. */
  lemma ReleaseSucceedsExactly(s: Ledger, id: Id, expected: nat)
    requires Inv(s)
    ensures Release(s, id, expected).Success? <==> Releasable(s, id, expected)
    ensures Release(s, id, expected).Failure? ==>
              Release(s, id, expected).error in {NotFound, Conflict, InvalidState, ActiveChildren}
  {
    if id in s.reservations {
      var r := s.reservations[id];
      assert Linked(s, id);
      forall d ensures At(r.remaining, d) <= At(s.accounts[r.account].reserved, d) {
        HeldByAccount(s, id, d);
      }
      if r.parent.Some? {
        forall d ensures At(s.reservations[r.parent.value].remaining, d) + At(r.remaining, d) <= MAX_SAFE_INTEGER {
          HeldByTwo(s, id, d);
        }
        AddFitsMeans(s.reservations[r.parent.value].remaining, r.remaining);
      }
    }
  }

  /** The recorded spend of the reservation's account would leave the safe integer range. */
  ghost predicate SpendOverflows(s: Ledger, i: SettleInput)
    requires i.reservation in s.reservations && s.reservations[i.reservation].account in s.accounts
  {
    exists d :: At(s.accounts[s.reservations[i.reservation].account].spent, d) + At(i.actual, d) > MAX_SAFE_INTEGER
  }

  lemma TopSettles(s: Ledger, i: SettleInput)
    requires Inv(s) && SettlesNow(s, i) && s.reservations[i.reservation].parent.None? && Settleable(s, i)
    ensures SettleTop(s, i).Success? <==> !SpendOverflows(s, i)
    ensures SettleTop(s, i).Failure? ==> SettleTop(s, i).error == BudgetOverflow
  {
    var r := s.reservations[i.reservation];
    AddFitsMeans(s.accounts[r.account].spent, i.actual);
    forall d ensures At(r.remaining, d) <= At(s.accounts[r.account].reserved, d) {
      HeldByAccount(s, i.reservation, d);
    }
  }

  lemma ChildSettles(s: Ledger, i: SettleInput)
    requires Inv(s) && SettlesNow(s, i) && s.reservations[i.reservation].parent.Some? && Settleable(s, i)
    requires Untouched(s.reservations[i.reservation])
    ensures var p := s.reservations[i.reservation].parent.value;
            && (SettleChild(s, i, p).Success? <==> !SpendOverflows(s, i))
            && (SettleChild(s, i, p).Failure? ==> SettleChild(s, i, p).error == BudgetOverflow)
  {
    var r := s.reservations[i.reservation];
    var p := r.parent.value;
    assert Linked(s, i.reservation);
    AddFitsMeans(s.accounts[r.account].spent, i.actual);
    forall d ensures At(i.actual, d) <= At(s.accounts[r.account].reserved, d) {
      HeldByAccount(s, i.reservation, d);
      assert At(r.remaining, d) == At(r.reserved, d);
    }
    var unused := Minus(r.reserved, i.actual);
    forall d ensures At(s.reservations[p].remaining, d) + At(unused, d) <= MAX_SAFE_INTEGER {
      HeldByTwo(s, i.reservation, d);
      assert At(r.remaining, d) == At(r.reserved, d);
    }
    AddFitsMeans(s.reservations[p].remaining, unused);
  }

  /**
   * A disciplined first settlement throws in two cases only: the usage exceeds the hard
   * reservation, or the account's recorded spend would overflow.  It never underflows.
   */
  lemma SettleSucceedsExactly(s: Ledger, i: SettleInput)
    requires Inv(s) && SettlesNow(s, i) && SettlementDiscipline(s, i)
    ensures s.reservations[i.reservation].account in s.accounts
    ensures Settle(s, i).Success? <==> Fits(i.actual, s.reservations[i.reservation].reserved) && !SpendOverflows(s, i)
    ensures Settle(s, i).Failure? ==> Settle(s, i).error in {Exceeded, BudgetOverflow}
  {
    assert Linked(s, i.reservation);
    if Settleable(s, i) {
      if s.reservations[i.reservation].parent.Some? {
        ChildSettles(s, i);
      } else {
        TopSettles(s, i);
      }
    }
  }

  /** Without late usage on the account, a disciplined settlement within the reservation cannot throw. */
  lemma SettleWithinReservation(s: Ledger, i: SettleInput)
    requires Inv(s) && SettlesNow(s, i) && SettlementDiscipline(s, i)
    requires Fits(i.actual, s.reservations[i.reservation].reserved)
    requires forall id :: id in s.reservations && s.reservations[id].account == s.reservations[i.reservation].account
                          ==> s.reservations[id].state != Reconciled
    ensures Settle(s, i).Success?
  {
    SettleSucceedsExactly(s, i);
    var r := s.reservations[i.reservation];
    forall d ensures At(s.accounts[r.account].spent, d) + At(i.actual, d) <= MAX_SAFE_INTEGER {
      HeldByAccount(s, i.reservation, d);
      assert BooksAt(s, r.account, d);
      TotalZero(s.reservations, LateOn(r.account, d));
      if r.parent.Some? {
        assert At(r.remaining, d) == At(r.reserved, d);
      } else {
        assert At(i.actual, d) <= At(r.remaining, d);
      }
    }
  }

  // ----- Exactly when a settlement keeps the books -----

  ghost function Committed(s: Ledger, a: Id, d: Dimension): int
    requires a in s.accounts
  {
    At(s.accounts[a].spent, d) + At(s.accounts[a].reserved, d)
  }

  lemma ChildMoves(s: Ledger, i: SettleInput, d: Dimension)
    requires AllLinked(s) && SettlesNow(s, i) && Settle(s, i).Success? && s.reservations[i.reservation].parent.Some?
    requires s.reservations[i.reservation].account in s.accounts && Conserved(s, s.reservations[i.reservation].account, d)
    ensures var r, t := s.reservations[i.reservation], Commit(s, Settle(s, i).value);
            && r.account in t.accounts
            && Committed(t, r.account, d) == Committed(s, r.account, d)
            && At(t.accounts[r.account].reserved, d) - Total(t.reservations, RemainingOn(r.account, d))
                 == At(r.remaining, d) - At(r.reserved, d)
  {
    SettleBranches(s, i);
    SettleWritable(s, i);
    assert Linked(s, i.reservation);
    ChildEffect(s, i, s.reservations[i.reservation].parent.value, d);
  }

  lemma ChildEffect(s: Ledger, i: SettleInput, p: Id, d: Dimension)
    requires Settleable(s, i) && SettleChild(s, i, p).Success? && Writable(s, SettleChild(s, i, p).value)
    requires p in s.reservations && s.reservations[p].account == s.reservations[i.reservation].account
    requires Conserved(s, s.reservations[i.reservation].account, d)
    ensures var r, t := s.reservations[i.reservation], Commit(s, SettleChild(s, i, p).value);
            && r.account in t.accounts
            && Committed(t, r.account, d) == Committed(s, r.account, d)
            && At(t.accounts[r.account].reserved, d) - Total(t.reservations, RemainingOn(r.account, d))
                 == At(r.remaining, d) - At(r.reserved, d)
  {
    CommitMoves(s, SettleChild(s, i, p).value, RemainingOn(s.reservations[i.reservation].account, d));
  }

  lemma StepCommits(s: Ledger, i: SettleInput)
    requires Settle(s, i).Success?
    ensures Step(s, DoSettle(i)) == Commit(s, Settle(s, i).value)
  {
  }

  lemma ChildConservedExactly(s: Ledger, i: SettleInput, t: Ledger, d: Dimension)
    requires Inv(s) && SettlesNow(s, i) && Settle(s, i).Success? && s.reservations[i.reservation].parent.Some?
    requires t == Commit(s, Settle(s, i).value)
    ensures var r := s.reservations[i.reservation];
            r.account in t.accounts && (Conserved(t, r.account, d) <==> At(r.remaining, d) == At(r.reserved, d))
  {
    assert Linked(s, i.reservation) && BooksAt(s, s.reservations[i.reservation].account, d);
    ChildMoves(s, i, d);
  }

  /** A child's settlement keeps escrow conservation if and only if nothing was drawn from the child. */
  lemma ChildSettlementExact(s: Ledger, i: SettleInput)
    requires Inv(s) && SettlesNow(s, i) && Settle(s, i).Success? && s.reservations[i.reservation].parent.Some?
    ensures s.reservations[i.reservation].account in Step(s, DoSettle(i)).accounts
    ensures (forall d :: Conserved(Step(s, DoSettle(i)), s.reservations[i.reservation].account, d))
            <==> Untouched(s.reservations[i.reservation])
  {
    var r, t := s.reservations[i.reservation], Step(s, DoSettle(i));
    StepCommits(s, i);
    forall d ensures r.account in t.accounts && (Conserved(t, r.account, d) <==> At(r.remaining, d) == At(r.reserved, d)) {
      ChildConservedExactly(s, i, t, d);
    }
  }

  lemma TopMoves(s: Ledger, i: SettleInput, d: Dimension)
    requires AllLinked(s) && SettlesNow(s, i) && Settle(s, i).Success? && s.reservations[i.reservation].parent.None?
    requires s.reservations[i.reservation].account in s.accounts && Conserved(s, s.reservations[i.reservation].account, d)
    ensures var r, t := s.reservations[i.reservation], Commit(s, Settle(s, i).value);
            && r.account in t.accounts && Conserved(t, r.account, d)
            && Committed(t, r.account, d) == Committed(s, r.account, d) + At(i.actual, d) - At(r.remaining, d)
  {
    SettleBranches(s, i);
    SettleWritable(s, i);
    CommitMoves(s, Settle(s, i).value, RemainingOn(s.reservations[i.reservation].account, d));
  }

  /**
   * A top-level settlement always keeps escrow conservation; it leaves the committed total of the
   * account at or below what it was if and only if the usage fits what the reservation still holds.
   */
  lemma TopSettlementExact(s: Ledger, i: SettleInput)
    requires Inv(s) && SettlesNow(s, i) && Settle(s, i).Success? && s.reservations[i.reservation].parent.None?
    ensures var a, t := s.reservations[i.reservation].account, Step(s, DoSettle(i));
            && a in s.accounts && a in t.accounts
            && (forall d :: Conserved(t, a, d))
            && ((forall d :: Committed(t, a, d) <= Committed(s, a, d)) <==> Fits(i.actual, s.reservations[i.reservation].remaining))
  {
    assert Linked(s, i.reservation);
    var r, t := s.reservations[i.reservation], Commit(s, Settle(s, i).value);
    assert Step(s, DoSettle(i)) == t;
    forall d
      ensures r.account in t.accounts && Conserved(t, r.account, d)
      ensures Committed(t, r.account, d) <= Committed(s, r.account, d) <==> At(i.actual, d) <= At(r.remaining, d)
    {
      assert BooksAt(s, r.account, d);
      TopMoves(s, i, d);
    }
  }

  lemma TopLateUnmoved(s: Ledger, i: SettleInput, a: Id, d: Dimension)
    requires Settleable(s, i) && SettleTop(s, i).Success? && Writable(s, SettleTop(s, i).value)
    requires s.reservations[i.reservation].state != Reconciled
    ensures Moved(s, SettleTop(s, i).value, LateOn(a, d)) == 0
  {
  }

  lemma ChildLateUnmoved(s: Ledger, i: SettleInput, p: Id, a: Id, d: Dimension)
    requires Settleable(s, i) && SettleChild(s, i, p).Success? && Writable(s, SettleChild(s, i, p).value)
    requires s.reservations[i.reservation].state != Reconciled
    ensures Moved(s, SettleChild(s, i, p).value, LateOn(a, d)) == 0
  {
  }

  /** A settlement that is not late leaves the late total as it was. */
  lemma NowLateUnmoved(s: Ledger, i: SettleInput, a: Id, d: Dimension)
    requires AllLinked(s) && SettlesNow(s, i) && Settle(s, i).Success?
    ensures Total(Commit(s, Settle(s, i).value).reservations, LateOn(a, d)) == Total(s.reservations, LateOn(a, d))
  {
    SettleBranches(s, i);
    SettleWritable(s, i);
    var r, e := s.reservations[i.reservation], Settle(s, i).value;
    if r.parent.Some? {
      ChildLateUnmoved(s, i, r.parent.value, a, d);
    } else {
      TopLateUnmoved(s, i, a, d);
    }
    CommitMoves(s, e, LateOn(a, d));
  }

  /** What a settlement that is not late does to the committed total. */
  lemma NowMovesBound(s: Ledger, i: SettleInput, d: Dimension)
    requires Inv(s) && SettlesNow(s, i) && Settle(s, i).Success? && s.reservations[i.reservation].account in s.accounts
    ensures var r, t := s.reservations[i.reservation], Commit(s, Settle(s, i).value);
            && r.account in t.accounts
            && Committed(t, r.account, d)
               == Committed(s, r.account, d) + (if r.parent.Some? then 0 else At(i.actual, d) - At(r.remaining, d))
  {
    var r := s.reservations[i.reservation];
    assert BooksAt(s, r.account, d);
    if r.parent.Some? {
      ChildMoves(s, i, d);
    } else {
      TopMoves(s, i, d);
    }
  }

  /** Late usage raises both totals by the same amount. */
  lemma LateMovesBound(s: Ledger, i: SettleInput, d: Dimension)
    requires Inv(s) && SettlesLate(s, i) && Settle(s, i).Success? && s.reservations[i.reservation].account in s.accounts
    ensures var r, t := s.reservations[i.reservation], Commit(s, Settle(s, i).value);
            && r.account in t.accounts
            && Total(t.reservations, LateOn(r.account, d)) == Total(s.reservations, LateOn(r.account, d)) + At(i.actual, d)
            && Committed(t, r.account, d) == Committed(s, r.account, d) + At(i.actual, d)
  {
    SettleBranches(s, i);
    SettleWritable(s, i);
    CommitMoves(s, Settle(s, i).value, LateOn(s.reservations[i.reservation].account, d));
  }

  /**
   * Exactly when a settlement keeps the overspend bound: always, except that the usage of a
   * top-level reservation beyond what it still holds must fit the room the bound leaves.
   */
  lemma BoundKeptExactly(s: Ledger, i: SettleInput, d: Dimension)
    requires Inv(s) && (SettlesNow(s, i) || SettlesLate(s, i)) && Settle(s, i).Success?
    ensures var r, t := s.reservations[i.reservation], Step(s, DoSettle(i));
            && r.account in s.accounts && r.account in t.accounts
            && (Bounded(t, r.account, d) <==>
                  (SettlesNow(s, i) && r.parent.None? ==>
                     Committed(s, r.account, d) + At(i.actual, d) - At(r.remaining, d)
                     <= At(s.accounts[r.account].limit, d) + Total(s.reservations, LateOn(r.account, d))))
  {
    assert Linked(s, i.reservation);
    assert BooksAt(s, s.reservations[i.reservation].account, d);
    StepCommits(s, i);
    StepEvolves(s, DoSettle(i));
    assert SameAccount(s.accounts[s.reservations[i.reservation].account],
                       Step(s, DoSettle(i)).accounts[s.reservations[i.reservation].account]);
    if SettlesNow(s, i) {
      NowMovesBound(s, i, d);
      NowLateUnmoved(s, i, s.reservations[i.reservation].account, d);
    } else {
      LateMovesBound(s, i, d);
    }
  }

  // ----- Without the discipline -----

  function Money(n: Amount): Vector {
    map[MoneyMicros := n]
  }

  function EmptyAccount(): Account {
    Account("program", None, Minimum, Money(10), map[], map[], false, 0)
  }

  function OneAccount(): Ledger {
    Ledger(map["minimum" := EmptyAccount()], map[], map[], map["program" := "running"])
  }

  const ENVELOPE := ReserveInput("envelope", "program", "minimum", None, "op-1", map[MoneyMicros := 10], ForExecution)
  const CALL := ReserveInput("call", "program", "minimum", Some("envelope"), "op-2", map[MoneyMicros := 10], ForExecution)

  const USAGE := SettleInput("envelope", "usage-1", map[MoneyMicros := 10])

  /** An envelope of 10, a call that draws all of it, then the envelope settled at 10. */
  function DoubleSpend(): seq<Op> {
    [DoReserve(ENVELOPE), DoReserve(CALL), DoSettle(USAGE)]
  }

  function AfterEnvelope(): Ledger {
    Ledger(map["minimum" := WithBalance(EmptyAccount(), map[], Money(10))],
           map["envelope" := NewReservation(ENVELOPE)], map[], map["program" := "running"])
  }

  function AfterCall(): Ledger {
    AfterEnvelope().(reservations :=
      map["envelope" := WithRemaining(NewReservation(ENVELOPE), map[]), "call" := NewReservation(CALL)])
  }

  lemma TenFromNothing()
    ensures AddFits(map[], map[]) && Plus(map[], map[]) == map[]
    ensures Minus(Money(10), map[]) == Money(10)
    ensures AddFits(map[], Money(10)) && Plus(map[], Money(10)) == Money(10)
  {
  }

  lemma ReserveEnvelope()
    ensures Step(OneAccount(), DoReserve(ENVELOPE)) == AfterEnvelope()
  {
    var s := OneAccount();
    TenFromNothing();
    assert !IsZero(ENVELOPE.amount) by {
      assert MoneyMicros in ENVELOPE.amount;
    }
    assert Reserve(s, ENVELOPE) == ReserveFromAccount(s, ENVELOPE);
  }

  lemma ReserveCall()
    ensures Step(AfterEnvelope(), DoReserve(CALL)) == AfterCall()
  {
    var s := AfterEnvelope();
    CanonicalIsUnique(Minus(Money(10), Money(10)), map[]);
    assert !IsZero(CALL.amount) by {
      assert MoneyMicros in CALL.amount;
    }
    assert !KeyTaken(s.reservations, "op-2");
    assert Reserve(s, CALL) == ReserveUnderParent(s, CALL);
  }

  /** The envelope holds nothing any more, and yet settling it at 10 is accepted. */
  lemma SettleEnvelope()
    ensures !SettlementDiscipline(AfterCall(), USAGE)
    ensures Settle(AfterCall(), USAGE) ==
            Success(Write("envelope", Finalized(AfterCall().reservations["envelope"], Settled, Money(10)),
                          Some(Balance("minimum", Money(10), Money(10))), None, Usage(USAGE)))
  {
    var s := AfterCall();
    CanonicalIsUnique(Plus(map[], Money(10)), Money(10));
    CanonicalIsUnique(Minus(Money(10), map[]), Money(10));
    assert At(Money(10), MoneyMicros) > At(s.reservations["envelope"].remaining, MoneyMicros);
    assert Settle(s, USAGE) == SettleTop(s, USAGE);
  }

  /** After it the account has 10 spent and 10 still reserved. */
  lemma AfterUsage()
    ensures var t := Step(AfterCall(), DoSettle(USAGE));
            && t.accounts == map["minimum" := WithBalance(AfterCall().accounts["minimum"], Money(10), Money(10))]
            && t.reservations.Keys == {"envelope", "call"}
            && t.reservations["envelope"].state == Settled && t.reservations["call"].state == Created
  {
    SettleEnvelope();
  }

  lemma TwentyOfTen()
    ensures var t := Step(AfterCall(), DoSettle(USAGE));
            && "minimum" in t.accounts
            && Committed(t, "minimum", MoneyMicros) == 20 && At(t.accounts["minimum"].limit, MoneyMicros) == 10
            && (forall id :: id in t.reservations ==> t.reservations[id].state != Released && t.reservations[id].state != Reconciled)
  {
    AfterUsage();
  }

  lemma RunOfThree(s: Ledger, x: Op, y: Op, z: Op)
    ensures Run(s, [x, y, z]) == Step(Step(Step(s, x), y), z)
    ensures DisciplinedRun(s, [x, y, z]) ==> Disciplined(Step(Step(s, x), y), z)
  {
    assert [x, y, z][1..] == [y, z] && [y, z][1..] == [z] && [z][1..] == [];
    assert Run(Step(s, x), [y, z]) == Run(Step(Step(s, x), y), [z]);
    assert Run(Step(Step(s, x), y), [z]) == Run(Step(Step(Step(s, x), y), z), []);
    assert DisciplinedRun(s, [x, y, z]) ==> DisciplinedRun(Step(s, x), [y, z]);
    assert DisciplinedRun(Step(s, x), [y, z]) ==> DisciplinedRun(Step(Step(s, x), y), [z]);
  }

  lemma WitnessStartsSound()
    ensures Inv(OneAccount())
  {
  }

  /**
   * The overspend bound is false of the code without the discipline: this run of two reservations
   * and one settlement, with nothing released, commits 20 against a limit of 10.
   */
  lemma OverspendWithoutDiscipline()
    ensures !DisciplinedRun(OneAccount(), DoubleSpend())
    ensures var t := Run(OneAccount(), DoubleSpend());
            && "minimum" in t.accounts
            && Committed(t, "minimum", MoneyMicros) == 20 && At(t.accounts["minimum"].limit, MoneyMicros) == 10
            && (forall id :: id in t.reservations ==> t.reservations[id].state != Released && t.reservations[id].state != Reconciled)
  {
    ReserveEnvelope();
    ReserveCall();
    SettleEnvelope();
    TwentyOfTen();
    RunOfThree(OneAccount(), DoReserve(ENVELOPE), DoReserve(CALL), DoSettle(USAGE));
  }
}
