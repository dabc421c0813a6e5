/**
 * Activating a collection (src/memory/zvec-index-migration.ts, src/memory/zvec-index-registry.ts).
 *
 * The manifests, the registry and the active pointer are separate files.  Each file is replaced
 * atomically, and the process may stop between any two writes; a budget of writes says when.
 */
module Activation {
  import opened Wrappers

  type Revision = string
  type Time = string

  datatype IndexState = Building | Ready | Active | Retired | Failed

  datatype Entry = Entry(
    embedding: string, state: IndexState, watermark: Option<Time>, count: nat, createdAt: Time,
    readyAt: Option<Time>, activatedAt: Option<Time>, retiredAt: Option<Time>)

  datatype Manifest = Manifest(
    embedding: string, state: IndexState, count: nat, createdAt: Time, readyAt: Option<Time>, lastRebuildAt: Option<Time>)

  type Registry = map<Revision, Entry>

  datatype Pointer = Pointer(revision: Revision, activatedAt: Time)

  datatype Files = Files(manifests: map<Revision, Manifest>, registry: Registry, pointer: Option<Pointer>)

  // ----- The schemas -----

  predicate Live(st: IndexState) {
    st == Ready || st == Active
  }

  predicate ValidEntry(e: Entry) {
    && (e.state == Building ==> e.readyAt.None? && e.activatedAt.None? && e.retiredAt.None?)
    && (e.state == Ready || e.state == Active || e.state == Retired ==> e.readyAt.Some?)
    && (e.state == Active || e.state == Retired ==> e.activatedAt.Some?)
    && (e.state == Retired <==> e.retiredAt.Some?)
  }

  predicate AtMostOne(r: Registry, st: IndexState) {
    forall a, b :: a in r && b in r && r[a].state == st && r[b].state == st ==> a == b
  }

  predicate ValidRegistry(r: Registry) {
    (forall rev :: rev in r ==> ValidEntry(r[rev])) && AtMostOne(r, Active) && AtMostOne(r, Building)
  }

  predicate ValidManifest(m: Manifest) {
    && (m.state == Building ==> m.readyAt.None?)
    && (m.state == Ready || m.state == Active || m.state == Retired ==> m.readyAt.Some?)
  }

  // ----- lifecycleEntry, lifecycleManifest -----

  function OrElse(a: Option<Time>, b: Time): Option<Time> {
    if a.Some? then a else Some(b)
  }

  function LifecycleManifest(m: Manifest, st: IndexState, at: Time, count: nat): Manifest {
    m.(state := st, count := count,
       readyAt := if st == Building || st == Failed then None else OrElse(m.readyAt, at),
       lastRebuildAt := if st == Ready then Some(at) else m.lastRebuildAt)
  }

  function LifecycleEntry(e: Entry, st: IndexState, at: Time, count: nat, watermark: Option<Time>): Entry {
    e.(state := st, watermark := watermark, count := count,
       readyAt := if st == Building || st == Failed then None else OrElse(e.readyAt, at),
       activatedAt := if st == Active || st == Retired then OrElse(e.activatedAt, at) else None,
       retiredAt := if st == Retired then Some(at) else None)
  }

  // ----- finalizePointer -----

  datatype Outcome = Done | Crashed | Threw

  datatype Attempt = Attempt(files: Files, outcome: Outcome, left: nat)

  function NextState(e: Entry, rev: Revision, target: Revision): IndexState {
    if rev == target then Active else if e.state == Active then Retired else e.state
  }

  /** The entries whose state the activation changes, and the target in any case. */
  predicate Touched(r: Registry, rev: Revision, target: Revision) {
    rev in r && (NextState(r[rev], rev, target) != r[rev].state || NextState(r[rev], rev, target) == Active)
  }

  function FinalManifest(r: Registry, m: Manifest, rev: Revision, target: Revision, at: Time): Manifest {
    if Touched(r, rev, target) then LifecycleManifest(m, NextState(r[rev], rev, target), at, r[rev].count) else m
  }

  function FinalEntry(r: Registry, rev: Revision, target: Revision, at: Time): Entry
    requires rev in r
  {
    if Touched(r, rev, target)
    then LifecycleEntry(r[rev], NextState(r[rev], rev, target), at, r[rev].count, r[rev].watermark)
    else r[rev]
  }

  function FinalRegistry(r: Registry, target: Revision, at: Time): Registry {
    map rev | rev in r :: FinalEntry(r, rev, target, at)
  }

  /** The manifest of a collection can be read: it exists and satisfies its schema. */
  predicate Readable(f: Files, rev: Revision) {
    rev in f.manifests && ValidManifest(f.manifests[rev])
  }

  /** The loop over the registry entries, then the registry itself. */
  function FinalizeLoop(f: Files, target: Revision, at: Time, order: seq<Revision>, budget: nat): Attempt
    decreases |order|
  {
    if |order| == 0 then
      var final := FinalRegistry(f.registry, target, at);
      if !ValidRegistry(final) then Attempt(f, Threw, budget)
      else if budget == 0 then Attempt(f, Crashed, 0)
      else Attempt(f.(registry := final), Done, budget - 1)
    else
      var rev := order[0];
      if !Touched(f.registry, rev, target) then FinalizeLoop(f, target, at, order[1..], budget)
      else if !Readable(f, rev) then Attempt(f, Threw, budget)
      else if budget == 0 then Attempt(f, Crashed, 0)
      else
        FinalizeLoop(f.(manifests := f.manifests[rev := FinalManifest(f.registry, f.manifests[rev], rev, target, at)]),
                     target, at, order[1..], budget - 1)
  }

  function Finalize(f: Files, at: Time, order: seq<Revision>, budget: nat): Attempt {
    if f.pointer.None? then Attempt(f, Threw, budget)
    else
      var target := f.pointer.value.revision;
      if target !in f.registry || !Live(f.registry[target].state) then Attempt(f, Threw, budget)
      else FinalizeLoop(f, target, at, order, budget)
  }

  // ----- activate, recoverActivation -----

  /** writeActiveIndexPointer refuses a collection that is not live in both files. */
  predicate MayPoint(f: Files, rev: Revision) {
    && rev in f.registry && Live(f.registry[rev].state)
    && Readable(f, rev) && Live(f.manifests[rev].state) && f.manifests[rev].embedding == f.registry[rev].embedding
  }

  function Activate(f: Files, rev: Revision, at: Time, order: seq<Revision>, budget: nat): Attempt {
    if !MayPoint(f, rev) then Attempt(f, Threw, budget)
    else if budget == 0 then Attempt(f, Crashed, 0)
    else Finalize(f.(pointer := Some(Pointer(rev, at))), at, order, budget - 1)
  }

  predicate NeedsFinalizing(f: Files)
    requires f.pointer.Some? && f.pointer.value.revision in f.registry
  {
    var target := f.pointer.value.revision;
    f.registry[target].state != Active || exists rev :: rev in f.registry && f.registry[rev].state == Active && rev != target
  }

  function Recover(f: Files, order: seq<Revision>, budget: nat): Attempt {
    if f.pointer.None? then Attempt(f, Done, budget)
    else if f.pointer.value.revision !in f.registry then Attempt(f, Threw, budget)
    else if NeedsFinalizing(f) then Finalize(f, f.pointer.value.activatedAt, order, budget)
    else Attempt(f, Done, budget)
  }

  /** A listing of the registry, in any order. */
  ghost predicate Lists(order: seq<Revision>, r: Registry) {
    && (forall i :: 0 <= i < |order| ==> order[i] in r)
    && (forall rev :: rev in r ==> rev in order)
    && Distinct(order)
  }

  // ----- Files that recovery can repair -----

  /** The manifest agrees with the registry, or an interrupted activation has already written it. */
  ghost predicate HalfWay(f: Files, rev: Revision)
    requires rev in f.registry && rev in f.manifests
  {
    || f.manifests[rev].state == f.registry[rev].state
    || (f.pointer.Some? && Touched(f.registry, rev, f.pointer.value.revision)
        && f.manifests[rev] == FinalManifest(f.registry, f.manifests[rev], rev, f.pointer.value.revision, f.pointer.value.activatedAt))
  }

  ghost predicate SameIdentity(f: Files, rev: Revision)
    requires rev in f.registry
  {
    && Readable(f, rev) && f.manifests[rev].embedding == f.registry[rev].embedding
    && f.manifests[rev].count == f.registry[rev].count
  }

  ghost predicate Kept(f: Files, rev: Revision)
    requires rev in f.registry
  {
    SameIdentity(f, rev) && HalfWay(f, rev)
  }

  ghost predicate Recoverable(f: Files) {
    && ValidRegistry(f.registry)
    && (forall rev :: rev in f.registry ==> Kept(f, rev))
    && (f.pointer.Some? ==> f.pointer.value.revision in f.registry && Live(f.registry[f.pointer.value.revision].state))
  }

  /** Manifests and registry agree. */
  ghost predicate Consistent(f: Files) {
    && ValidRegistry(f.registry)
    && forall rev :: rev in f.registry ==> SameIdentity(f, rev) && f.manifests[rev].state == f.registry[rev].state
  }

  /** No activation is under way: what is active is exactly what the active file points to. */
  ghost predicate Settled(f: Files) {
    && Consistent(f)
    && (forall rev :: rev in f.registry ==> (f.registry[rev].state == Active <==> f.pointer.Some? && f.pointer.value.revision == rev))
    && (f.pointer.Some? ==> f.pointer.value.revision in f.registry)
  }

  /** Where recovery leads: the activation that was pointed to, completed. */
  ghost function Goal(f: Files): Files {
    if f.pointer.None? then f
    else
      var target, at := f.pointer.value.revision, f.pointer.value.activatedAt;
      Files(map rev | rev in f.manifests :: FinalManifest(f.registry, f.manifests[rev], rev, target, at),
            FinalRegistry(f.registry, target, at), f.pointer)
  }

  lemma FinalEntryValid(r: Registry, rev: Revision, target: Revision, at: Time)
    requires ValidRegistry(r) && rev in r && target in r && Live(r[target].state)
    ensures ValidEntry(FinalEntry(r, rev, target, at))
    ensures FinalEntry(r, rev, target, at).state == NextState(r[rev], rev, target)
    ensures FinalEntry(r, rev, target, at).embedding == r[rev].embedding && FinalEntry(r, rev, target, at).count == r[rev].count
  {
  }

  lemma FinalRegistryValid(r: Registry, target: Revision, at: Time)
    requires ValidRegistry(r) && target in r && Live(r[target].state)
    ensures ValidRegistry(FinalRegistry(r, target, at))
    ensures forall rev :: rev in r ==> (FinalRegistry(r, target, at)[rev].state == Active <==> rev == target)
  {
    var final := FinalRegistry(r, target, at);
    forall rev | rev in r
      ensures ValidEntry(final[rev]) && final[rev].state == NextState(r[rev], rev, target)
    {
      FinalEntryValid(r, rev, target, at);
    }
    assert forall rev :: rev in r && final[rev].state == Building ==> r[rev].state == Building;
  }

  lemma FinalManifestFits(f: Files, rev: Revision)
    requires Recoverable(f) && f.pointer.Some? && rev in f.registry
    ensures rev in Goal(f).manifests && SameIdentity(Goal(f), rev)
    ensures Goal(f).manifests[rev].state == Goal(f).registry[rev].state
  {
  }

  /** A completed activation is settled, the pointer's collection is the only active one, and only what was active is retired. */
  lemma GoalIsSettled(f: Files)
    requires Recoverable(f) && f.pointer.Some?
    ensures Settled(Goal(f)) && Goal(f).pointer == f.pointer && Goal(f).registry.Keys == f.registry.Keys
    ensures forall rev :: rev in f.registry && rev != f.pointer.value.revision ==>
              if f.registry[rev].state == Active then Goal(f).registry[rev].state == Retired
              else Goal(f).registry[rev] == f.registry[rev] && Goal(f).manifests[rev] == f.manifests[rev]
  {
    FinalRegistryValid(f.registry, f.pointer.value.revision, f.pointer.value.activatedAt);
    forall rev | rev in f.registry
      ensures rev in Goal(f).manifests && SameIdentity(Goal(f), rev) && Goal(f).manifests[rev].state == Goal(f).registry[rev].state
      ensures Kept(f, rev)
    {
      FinalManifestFits(f, rev);
    }
  }

  /** When nothing needs finalizing, the activation is complete already. */
  lemma GoalWhenFinal(f: Files)
    requires Recoverable(f) && (f.pointer.Some? ==> !NeedsFinalizing(f))
    ensures Goal(f) == f
  {
  }

  lemma SettledIsRecoverable(f: Files)
    requires Settled(f)
    ensures Recoverable(f) && Goal(f) == f
  {
  }

  // ----- One write of the loop -----

  ghost function WithManifest(f: Files, rev: Revision): Files
    requires f.pointer.Some? && rev in f.manifests
  {
    f.(manifests := f.manifests[rev :=
      FinalManifest(f.registry, f.manifests[rev], rev, f.pointer.value.revision, f.pointer.value.activatedAt)])
  }

  /** Writing one manifest early keeps the files recoverable, and recovery leads to the same place. */
  lemma ManifestWritten(f: Files, rev: Revision)
    requires Recoverable(f) && f.pointer.Some? && rev in f.registry
    ensures rev in f.manifests && Recoverable(WithManifest(f, rev)) && Goal(WithManifest(f, rev)) == Goal(f)
  {
    assert Kept(f, rev);
    var g := WithManifest(f, rev);
    forall r | r in g.registry ensures Kept(g, r) {
      assert Kept(f, r);
    }
    assert Goal(g).manifests == Goal(f).manifests;
  }

  /** What an attempt that may crash leaves behind. */
  ghost predicate Survives(f: Files, a: Attempt) {
    && a.outcome != Threw && Recoverable(a.files) && a.files.pointer == f.pointer && Goal(a.files) == Goal(f)
    && (a.outcome == Done ==> a.files == Goal(f))
  }

  lemma {:induction false} LoopSurvives(f: Files, order: seq<Revision>, budget: nat)
    requires Recoverable(f) && f.pointer.Some? && Distinct(order) && (forall rev <- order :: rev in f.registry)
    ensures var a := FinalizeLoop(f, f.pointer.value.revision, f.pointer.value.activatedAt, order, budget);
            && a.outcome != Threw
            && (a.outcome == Crashed ==> Recoverable(a.files) && a.files.pointer == f.pointer && Goal(a.files) == Goal(f))
            && (budget > |order| ==> a.outcome == Done)
    decreases |order|
  {
    var target, at := f.pointer.value.revision, f.pointer.value.activatedAt;
    if |order| == 0 {
      FinalRegistryValid(f.registry, target, at);
    } else {
      var rev := order[0];
      assert Kept(f, rev);
      if !Touched(f.registry, rev, target) {
        LoopSurvives(f, order[1..], budget);
      } else if budget > 0 {
        ManifestWritten(f, rev);
        LoopSurvives(WithManifest(f, rev), order[1..], budget - 1);
      }
    }
  }

  /** A loop that is not interrupted writes the manifests it lists and the final registry. */
  lemma {:induction false} LoopWrites(f: Files, target: Revision, at: Time, order: seq<Revision>, budget: nat)
    requires Distinct(order) && FinalizeLoop(f, target, at, order, budget).outcome == Done
    ensures var g := FinalizeLoop(f, target, at, order, budget).files;
            && g.registry == FinalRegistry(f.registry, target, at)
            && g.pointer == f.pointer && g.manifests.Keys == f.manifests.Keys
            && forall rev :: rev in f.manifests ==>
                 g.manifests[rev] == if rev in order then FinalManifest(f.registry, f.manifests[rev], rev, target, at) else f.manifests[rev]
    decreases |order|
  {
    if |order| > 0 {
      var rev := order[0];
      if Touched(f.registry, rev, target) {
        LoopWrites(f.(manifests := f.manifests[rev := FinalManifest(f.registry, f.manifests[rev], rev, target, at)]),
                   target, at, order[1..], budget - 1);
      } else {
        LoopWrites(f, target, at, order[1..], budget);
      }
    }
  }

  lemma FinalizeSurvives(f: Files, order: seq<Revision>, budget: nat)
    requires Recoverable(f) && f.pointer.Some? && Lists(order, f.registry)
    ensures var a := Finalize(f, f.pointer.value.activatedAt, order, budget);
            Survives(f, a) && (budget > |order| ==> a.outcome == Done)
  {
    var a := Finalize(f, f.pointer.value.activatedAt, order, budget);
    LoopSurvives(f, order, budget);
    if a.outcome == Done {
      LoopWrites(f, f.pointer.value.revision, f.pointer.value.activatedAt, order, budget);
      assert a.files.manifests == Goal(f).manifests;
      GoalIsSettled(f);
      SettledIsRecoverable(Goal(f));
    }
  }

  // ----- Crashes and recoveries -----

  lemma RecoverSurvives(f: Files, order: seq<Revision>, budget: nat)
    requires Recoverable(f) && Lists(order, f.registry)
    ensures var a := Recover(f, order, budget);
            Survives(f, a) && (budget > |order| ==> a.outcome == Done)
  {
    if f.pointer.Some? && NeedsFinalizing(f) {
      FinalizeSurvives(f, order, budget);
    } else {
      GoalWhenFinal(f);
    }
  }

  /** Pointing consistent files at a live collection makes them recoverable towards it. */
  lemma PointedIsRecoverable(f: Files, rev: Revision, at: Time)
    requires Consistent(f) && MayPoint(f, rev)
    ensures Recoverable(f.(pointer := Some(Pointer(rev, at))))
  {
  }

  lemma ActivateSurvives(f: Files, rev: Revision, at: Time, order: seq<Revision>, budget: nat)
    requires Consistent(f) && MayPoint(f, rev) && Lists(order, f.registry)
    ensures var a := Activate(f, rev, at, order, budget);
            if budget == 0 then a == Attempt(f, Crashed, 0)
            else Survives(f.(pointer := Some(Pointer(rev, at))), a)
  {
    if budget > 0 {
      PointedIsRecoverable(f, rev, at);
      FinalizeSurvives(f.(pointer := Some(Pointer(rev, at))), order, budget - 1);
    }
  }

  datatype Try = Try(order: seq<Revision>, budget: nat)

  /** Recoveries one after the other, each of which may crash. */
  function RecoverAgain(f: Files, tries: seq<Try>): Files
    decreases |tries|
  {
    if |tries| == 0 then f else RecoverAgain(Recover(f, tries[0].order, tries[0].budget).files, tries[1..])
  }

  ghost predicate AllList(tries: seq<Try>, keys: set<Revision>) {
    forall i :: 0 <= i < |tries| ==> ListsKeys(tries[i].order, keys)
  }

  ghost predicate ListsKeys(order: seq<Revision>, keys: set<Revision>) {
    (forall rev :: rev in order <==> rev in keys) && Distinct(order)
  }

  lemma {:induction false} RecoverAgainSurvives(f: Files, tries: seq<Try>)
    requires Recoverable(f) && AllList(tries, f.registry.Keys)
    ensures var g := RecoverAgain(f, tries);
            Recoverable(g) && g.pointer == f.pointer && Goal(g) == Goal(f) && g.registry.Keys == f.registry.Keys
    decreases |tries|
  {
    if |tries| > 0 {
      assert ListsKeys(tries[0].order, f.registry.Keys);
      assert Lists(tries[0].order, f.registry);
      RecoverSurvives(f, tries[0].order, tries[0].budget);
      var g := Recover(f, tries[0].order, tries[0].budget).files;
      SameKeys(f, g);
      forall i | 0 <= i < |tries[1..]| ensures ListsKeys(tries[1..][i].order, g.registry.Keys) {
        assert tries[1..][i] == tries[i + 1];
      }
      RecoverAgainSurvives(g, tries[1..]);
    }
  }

  lemma SameKeys(f: Files, g: Files)
    requires Goal(g) == Goal(f) && g.pointer == f.pointer
    ensures g.registry.Keys == f.registry.Keys
  {
    if f.pointer.Some? {
      assert Goal(f).registry.Keys == f.registry.Keys && Goal(g).registry.Keys == g.registry.Keys;
    }
  }

  /**
   * Main result: an activation that stops after any number of writes, then any number of recoveries
   * that stop after any number of writes, then one recovery that does not stop.  The last one
   * succeeds.  If the pointer had been written, the files are exactly those of an activation that
   * was never interrupted; if not, exactly those from before it.
   */
  lemma CrashSafe(f: Files, rev: Revision, at: Time, order: seq<Revision>, budget: nat, tries: seq<Try>, last: Try)
    requires Settled(f) && MayPoint(f, rev) && ListsKeys(order, f.registry.Keys)
    requires AllList(tries, f.registry.Keys) && ListsKeys(last.order, f.registry.Keys) && last.budget > |last.order|
    ensures var crashed := Activate(f, rev, at, order, budget).files;
            var end := Recover(RecoverAgain(crashed, tries), last.order, last.budget);
            var whole := Activate(f, rev, at, order, |order| + 2);
            && end.outcome == Done && Settled(end.files) && whole.outcome == Done
            && end.files == if budget > 0 then whole.files else f
    ensures budget > 0 ==>
              var files := Recover(RecoverAgain(Activate(f, rev, at, order, budget).files, tries), last.order, last.budget).files;
              && files.pointer == Some(Pointer(rev, at))
              && forall r :: r in files.registry ==> (files.registry[r].state == Active <==> r == rev)
  {
    var start := if budget > 0 then f.(pointer := Some(Pointer(rev, at))) else f;
    SettledIsRecoverable(f);
    UninterruptedActivation(f, rev, at, order);
    ActivateSurvives(f, rev, at, order, budget);
    RecoveryEnds(start, Activate(f, rev, at, order, budget).files, tries, last);
  }

  lemma UninterruptedActivation(f: Files, rev: Revision, at: Time, order: seq<Revision>)
    requires Settled(f) && MayPoint(f, rev) && ListsKeys(order, f.registry.Keys)
    ensures var pointed := f.(pointer := Some(Pointer(rev, at)));
            var whole := Activate(f, rev, at, order, |order| + 2);
            && whole.outcome == Done && whole.files == Goal(pointed) && Settled(whole.files)
            && whole.files.pointer == Some(Pointer(rev, at))
    ensures Lists(order, f.registry)
  {
    var pointed := f.(pointer := Some(Pointer(rev, at)));
    assert Lists(order, f.registry);
    PointedIsRecoverable(f, rev, at);
    FinalizeSurvives(pointed, order, |order| + 1);
    GoalIsSettled(pointed);
  }

  /** Recoveries end where the files were headed. */
  lemma RecoveryEnds(start: Files, crashed: Files, tries: seq<Try>, last: Try)
    requires Recoverable(crashed) && crashed.pointer == start.pointer && Goal(crashed) == Goal(start)
    requires AllList(tries, start.registry.Keys) && ListsKeys(last.order, start.registry.Keys) && last.budget > |last.order|
    ensures var end := Recover(RecoverAgain(crashed, tries), last.order, last.budget);
            end.outcome == Done && end.files == Goal(start)
  {
    SameKeys(start, crashed);
    RecoverAgainSurvives(crashed, tries);
    var again := RecoverAgain(crashed, tries);
    assert Lists(last.order, again.registry);
    RecoverSurvives(again, last.order, last.budget);
  }

  /** persistLifecycle, without a crash: manifest and registry of one collection move together. */
  function Persist(f: Files, rev: Revision, st: IndexState, at: Time, count: nat, watermark: Option<Time>): Attempt {
    if rev !in f.registry || !Readable(f, rev) then Attempt(f, Threw, 0)
    else
      var registry := f.registry[rev := LifecycleEntry(f.registry[rev], st, at, count, watermark)];
      var f' := f.(manifests := f.manifests[rev := LifecycleManifest(f.manifests[rev], st, at, count)]);
      if !ValidRegistry(registry) then Attempt(f', Threw, 0) else Attempt(f'.(registry := registry), Done, 0)
  }

  /** No other collection is building. */
  predicate FreeToBuild(r: Registry, rev: Revision) {
    forall x :: x in r && r[x].state == Building ==> x == rev
  }

  lemma PersistedRegistryValid(f: Files, rev: Revision, st: IndexState, at: Time, count: nat, watermark: Option<Time>)
    requires Settled(f) && rev in f.registry && f.registry[rev].state != Active && st != Active
    ensures ValidRegistry(f.registry[rev := LifecycleEntry(f.registry[rev], st, at, count, watermark)])
            <==> (st == Building ==> FreeToBuild(f.registry, rev))
  {
    var r := f.registry[rev := LifecycleEntry(f.registry[rev], st, at, count, watermark)];
    if st == Building && !FreeToBuild(f.registry, rev) {
      var x :| x in f.registry && f.registry[x].state == Building && x != rev;
      assert r[x].state == Building && r[rev].state == Building;
    }
  }

  /**
   * Moving a collection that is not active keeps the files settled exactly when it does not make it
   * building beside another: the manifest is written before the registry refuses.
   */
  lemma PersistSettledExactly(f: Files, rev: Revision, st: IndexState, at: Time, count: nat, watermark: Option<Time>)
    requires Settled(f) && rev in f.registry && f.registry[rev].state != Active && st != Active
    ensures Persist(f, rev, st, at, count, watermark).outcome == Done <==> (st == Building ==> FreeToBuild(f.registry, rev))
    ensures Settled(Persist(f, rev, st, at, count, watermark).files) <==> (st == Building ==> FreeToBuild(f.registry, rev))
  {
    assert SameIdentity(f, rev);
    PersistedRegistryValid(f, rev, st, at, count, watermark);
    var g := Persist(f, rev, st, at, count, watermark).files;
    if st == Building ==> FreeToBuild(f.registry, rev) {
      forall r | r in g.registry ensures SameIdentity(g, r) && g.manifests[r].state == g.registry[r].state {
        assert SameIdentity(f, r);
      }
    } else {
      var x :| x in f.registry && f.registry[x].state == Building && x != rev;
      assert g.manifests[rev].state == Building && g.registry[rev].state != Building;
    }
  }

  /** ZvecMemoryIndex.create: a new collection starts building, in both files. */
  function Create(f: Files, rev: Revision, embedding: string, count: nat, createdAt: Time): Files {
    f.(manifests := f.manifests[rev := Manifest(embedding, Building, count, createdAt, None, None)],
       registry := f.registry[rev := Entry(embedding, Building, None, count, createdAt, None, None, None)])
  }

  /** ZvecMemoryIndex.destroyRetired leaves the manifest where it is. */
  function Destroy(f: Files, rev: Revision): Files {
    f.(registry := f.registry - {rev})
  }

  lemma CreateKeepsSettled(f: Files, rev: Revision, embedding: string, count: nat, createdAt: Time)
    requires Settled(f) && rev !in f.registry && FreeToBuild(f.registry, rev)
    ensures Settled(Create(f, rev, embedding, count, createdAt))
  {
    var g := Create(f, rev, embedding, count, createdAt);
    forall r | r in g.registry ensures SameIdentity(g, r) && g.manifests[r].state == g.registry[r].state {
      if r != rev {
        assert SameIdentity(f, r);
      }
    }
  }

  lemma DestroyKeepsSettled(f: Files, rev: Revision)
    requires Settled(f) && rev in f.registry && (f.registry[rev].state == Retired || f.registry[rev].state == Failed)
    ensures Settled(Destroy(f, rev))
  {
    var g := Destroy(f, rev);
    forall r | r in g.registry ensures SameIdentity(g, r) && g.manifests[r].state == g.registry[r].state {
      assert SameIdentity(f, r);
    }
  }

  // ----- Many activations -----

  datatype Episode =
    | Prepare(rev: Revision, st: IndexState, at: Time, count: nat, watermark: Option<Time>)
    | Begin(rev: Revision, embedding: string, count: nat, at: Time)
    | Discard(rev: Revision)
    | Switch(rev: Revision, at: Time, order: seq<Revision>, budget: nat, tries: seq<Try>, last: Try)

  ghost predicate MayStart(f: Files, e: Episode) {
    match e
    case Prepare(rev, st, _, _, _) =>
      && rev in f.registry && f.registry[rev].state != Active && st != Active
      && (st == Building ==> FreeToBuild(f.registry, rev))
    case Begin(rev, _, _, _) => rev !in f.registry && FreeToBuild(f.registry, rev)
    case Discard(rev) => rev in f.registry && (f.registry[rev].state == Retired || f.registry[rev].state == Failed)
    case Switch(rev, _, order, _, tries, last) =>
      && MayPoint(f, rev) && ListsKeys(order, f.registry.Keys) && AllList(tries, f.registry.Keys)
      && ListsKeys(last.order, f.registry.Keys) && last.budget > |last.order|
  }

  /** A step of a collection's life outside activation, or an activation with its crashes and the recoveries after them. */
  function Ended(f: Files, e: Episode): Files {
    match e
    case Prepare(rev, st, at, count, watermark) => Persist(f, rev, st, at, count, watermark).files
    case Begin(rev, embedding, count, at) => Create(f, rev, embedding, count, at)
    case Discard(rev) => Destroy(f, rev)
    case Switch(rev, at, order, budget, tries, last) =>
      Recover(RecoverAgain(Activate(f, rev, at, order, budget).files, tries), last.order, last.budget).files
  }

  ghost predicate IsHistory(f: Files, es: seq<Episode>)
    decreases |es|
  {
    |es| == 0 || (MayStart(f, es[0]) && IsHistory(Ended(f, es[0]), es[1..]))
  }

  function History(f: Files, es: seq<Episode>): Files
    decreases |es|
  {
    if |es| == 0 then f else History(Ended(f, es[0]), es[1..])
  }

  /** Files stay settled over any number of activations, as long as each crash is recovered before the next. */
  lemma {:induction false} HistoryStaysSettled(f: Files, es: seq<Episode>)
    requires Settled(f) && IsHistory(f, es)
    ensures Settled(History(f, es))
    decreases |es|
  {
    if |es| > 0 {
      match es[0] {
        case Prepare(rev, st, at, count, watermark) => PersistSettledExactly(f, rev, st, at, count, watermark);
        case Begin(rev, embedding, count, at) => CreateKeepsSettled(f, rev, embedding, count, at);
        case Discard(rev) => DestroyKeepsSettled(f, rev);
        case Switch(rev, at, order, budget, tries, last) => CrashSafe(f, rev, at, order, budget, tries, last);
      }
      HistoryStaysSettled(Ended(f, es[0]), es[1..]);
    }
  }

  const NO_FILES: Files := Files(map[], map[], None)

  /** A build fails, another begins, and the first is resumed: its manifest is building and its entry still failed. */
  lemma ResumeBesideBuild(at: Time)
    ensures var es := [Begin("a", "e", 0, at), Prepare("a", Failed, at, 0, None), Begin("b", "e", 0, at)];
            && IsHistory(NO_FILES, es)
            && var resumed := Persist(History(NO_FILES, es), "a", Building, at, 0, None);
               resumed.outcome == Threw && !Settled(resumed.files)
  {
    var e1, e2, e3 := Begin("a", "e", 0, at), Prepare("a", Failed, at, 0, None), Begin("b", "e", 0, at);
    var f1 := Ended(NO_FILES, e1);
    var f2 := Ended(f1, e2);
    var f3 := Ended(f2, e3);
    assert "a"[0] != "b"[0];
    assert Settled(NO_FILES);
    CreateKeepsSettled(NO_FILES, "a", "e", 0, at);
    PersistSettledExactly(f1, "a", Failed, at, 0, None);
    CreateKeepsSettled(f2, "b", "e", 0, at);
    PersistSettledExactly(f3, "a", Building, at, 0, None);
    assert f3.registry["b"].state == Building && f3.registry["a"].state == Failed;
    assert [e1, e2, e3][1..] == [e2, e3] && [e2, e3][1..] == [e3] && [e3][1..] == [];
    assert History(f3, []) == f3 && IsHistory(f3, []);
    assert IsHistory(f2, [e3]) && History(f2, [e3]) == f3;
    assert IsHistory(f1, [e2, e3]) && History(f1, [e2, e3]) == f3;
  }

  // ----- What recovery cannot repair -----

  /** A recovery that is not interrupted succeeds exactly when the pointer is absent, final, or names a live collection. */
  lemma RecoverySucceedsExactly(f: Files, order: seq<Revision>, budget: nat)
    requires ValidRegistry(f.registry) && Lists(order, f.registry) && budget > |order|
    requires forall rev :: rev in f.registry ==> Readable(f, rev)
    ensures Recover(f, order, budget).outcome == Done <==>
              f.pointer.None? || (f.pointer.value.revision in f.registry && Live(f.registry[f.pointer.value.revision].state))
  {
    if f.pointer.Some? && f.pointer.value.revision in f.registry && Live(f.registry[f.pointer.value.revision].state) {
      LoopFinishes(f, f.pointer.value.revision, f.pointer.value.activatedAt, order, budget);
    }
  }

  lemma {:induction false} LoopFinishes(f: Files, target: Revision, at: Time, order: seq<Revision>, budget: nat)
    requires ValidRegistry(f.registry) && target in f.registry && Live(f.registry[target].state)
    requires (forall rev :: rev in f.registry ==> Readable(f, rev)) && (forall rev <- order :: rev in f.registry) && budget > |order|
    ensures FinalizeLoop(f, target, at, order, budget).outcome == Done
    decreases |order|
  {
    if |order| == 0 {
      FinalRegistryValid(f.registry, target, at);
    } else if Touched(f.registry, order[0], target) {
      var rev := order[0];
      var g := f.(manifests := f.manifests[rev := FinalManifest(f.registry, f.manifests[rev], rev, target, at)]);
      assert Readable(f, rev);
      forall r | r in g.registry ensures Readable(g, r) {
        assert Readable(f, r);
      }
      LoopFinishes(g, target, at, order[1..], budget - 1);
    } else {
      LoopFinishes(f, target, at, order[1..], budget);
    }
  }

  /**
   * An activation that is started over a crashed one, without recovering first, ends consistent
   * exactly when no manifest outside the new activation had been written ahead of the registry.
   */
  lemma SecondActivationExact(f: Files, rev: Revision, at: Time, order: seq<Revision>)
    requires Recoverable(f) && MayPoint(f, rev) && Lists(order, f.registry)
    ensures var a := Activate(f, rev, at, order, |order| + 2);
            && a.outcome == Done
            && (Consistent(a.files) <==>
                  forall r :: r in f.registry && !Touched(f.registry, r, rev) ==> f.manifests[r].state == f.registry[r].state)
  {
    SecondActivationWrites(f, rev, at, order);
    FinalRegistryValid(f.registry, rev, at);
    var h := Activate(f, rev, at, order, |order| + 2).files;
    forall r | r in f.registry
      ensures SameIdentity(h, r)
      ensures h.manifests[r].state == h.registry[r].state <==> Touched(f.registry, r, rev) || f.manifests[r].state == f.registry[r].state
    {
      assert Kept(f, r);
      FinalEntryValid(f.registry, r, rev, at);
    }
  }

  lemma SecondActivationWrites(f: Files, rev: Revision, at: Time, order: seq<Revision>)
    requires Recoverable(f) && MayPoint(f, rev) && Lists(order, f.registry)
    ensures var a := Activate(f, rev, at, order, |order| + 2);
            && a.outcome == Done && a.files.registry == FinalRegistry(f.registry, rev, at)
            && forall r :: r in f.registry ==>
                 r in f.manifests && r in a.files.manifests && a.files.manifests[r] == FinalManifest(f.registry, f.manifests[r], r, rev, at)
  {
    var g := f.(pointer := Some(Pointer(rev, at)));
    forall r | r in g.registry ensures Readable(g, r) {
      assert Kept(f, r);
    }
    LoopFinishes(g, rev, at, order, |order| + 1);
    LoopWrites(g, rev, at, order, |order| + 1);
  }

  /** Skipping the recovery does go wrong: stop after the new manifest of b, then activate c. */
  lemma UnrecoveredCrashShows(f: Files, b: Revision, c: Revision, at: Time, later: Time, order: seq<Revision>)
    requires Settled(f) && MayPoint(f, b) && MayPoint(f, c) && b != c && f.registry[b].state == Ready
    requires Lists(order, f.registry) && order[0] == b
    ensures var crashed := Activate(f, b, at, order, 2).files;
            && Recoverable(crashed) && MayPoint(crashed, c)
            && Activate(crashed, c, later, order, |order| + 2).outcome == Done
            && !Consistent(Activate(crashed, c, later, order, |order| + 2).files)
  {
    var pointed := f.(pointer := Some(Pointer(b, at)));
    var crashed := Activate(f, b, at, order, 2).files;
    ActivateSurvives(f, b, at, order, 2);
    CrashesAfterFirst(pointed, b, at, order);
    SecondActivationExact(crashed, c, later, order);
    assert !Touched(crashed.registry, b, c);
  }

  lemma CrashesAfterFirst(f: Files, target: Revision, at: Time, order: seq<Revision>)
    requires |order| > 0 && order[0] == target && target in f.registry && Live(f.registry[target].state) && Readable(f, target)
    requires ValidRegistry(f.registry) && Distinct(order) && forall rev <- order :: rev in f.registry && Readable(f, rev)
    ensures FinalizeLoop(f, target, at, order, 1)
            == Attempt(f.(manifests := f.manifests[target := FinalManifest(f.registry, f.manifests[target], target, target, at)]), Crashed, 0)
  {
    var g := f.(manifests := f.manifests[target := FinalManifest(f.registry, f.manifests[target], target, target, at)]);
    forall rev | rev in order[1..] ensures rev in g.registry && Readable(g, rev) {
      assert rev in order && Readable(f, rev);
    }
    StopsAtOnce(g, target, at, order[1..]);
  }

  lemma {:induction false} StopsAtOnce(f: Files, target: Revision, at: Time, order: seq<Revision>)
    requires ValidRegistry(f.registry) && target in f.registry && Live(f.registry[target].state)
    requires forall rev <- order :: rev in f.registry && Readable(f, rev)
    ensures FinalizeLoop(f, target, at, order, 0) == Attempt(f, Crashed, 0)
    decreases |order|
  {
    if |order| == 0 {
      FinalRegistryValid(f.registry, target, at);
    } else if !Touched(f.registry, order[0], target) {
      StopsAtOnce(f, target, at, order[1..]);
    }
  }
}
