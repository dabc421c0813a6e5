/**
 * What activation, preparation and creation write, field by field
 * (src/memory/zvec-index-migration.ts, src/memory/zvec-index-registry.ts).
 */
module ActivationEffects {
  import opened Wrappers
  import opened Activation

  // ----- The schemas -----

  lemma ManifestSchemaMeans(m: Manifest)
    ensures ValidManifest(m) <==>
              match m.state
              case Building => m.readyAt == None
              case Failed => true
              case _ => m.readyAt != None
  {
  }

  lemma EntrySchemaMeans(e: Entry)
    ensures ValidEntry(e) <==>
              match e.state
              case Building => e.readyAt == None && e.activatedAt == None && e.retiredAt == None
              case Ready => e.readyAt != None && e.retiredAt == None
              case Active => e.readyAt != None && e.activatedAt != None && e.retiredAt == None
              case Retired => e.readyAt != None && e.activatedAt != None && e.retiredAt != None
              case Failed => e.retiredAt == None
  {
  }

  /** Every entry fits, no two are active and no two are building. */
  lemma RegistrySchemaMeans(r: Registry)
    ensures ValidRegistry(r) <==>
              && (forall a :: a in r ==> ValidEntry(r[a]))
              && forall a, b :: a in r && b in r && a != b && r[a].state == r[b].state ==> r[a].state != Active && r[a].state != Building
  {
  }

  // ----- persistLifecycle -----

  function Stamp(known: Option<Time>, at: Time): Option<Time> {
    Some(if known.Some? then known.value else at)
  }

  /** The manifest after a move: a time of being ready is kept once set, and lost by building and failing. */
  ghost predicate ManifestMoved(m: Manifest, n: Manifest, st: IndexState, at: Time, count: nat) {
    n == match st
         case Building => Manifest(m.embedding, Building, count, m.createdAt, None, m.lastRebuildAt)
         case Ready => Manifest(m.embedding, Ready, count, m.createdAt, Stamp(m.readyAt, at), Some(at))
         case Active => Manifest(m.embedding, Active, count, m.createdAt, Stamp(m.readyAt, at), m.lastRebuildAt)
         case Retired => Manifest(m.embedding, Retired, count, m.createdAt, Stamp(m.readyAt, at), m.lastRebuildAt)
         case Failed => Manifest(m.embedding, Failed, count, m.createdAt, None, m.lastRebuildAt)
  }

  /** The entry after a move: only active and retired ones have been activated, only retired ones retired. */
  ghost predicate EntryMoved(e: Entry, n: Entry, st: IndexState, at: Time, count: nat, watermark: Option<Time>) {
    n == match st
         case Building => Entry(e.embedding, Building, watermark, count, e.createdAt, None, None, None)
         case Ready => Entry(e.embedding, Ready, watermark, count, e.createdAt, Stamp(e.readyAt, at), None, None)
         case Active => Entry(e.embedding, Active, watermark, count, e.createdAt, Stamp(e.readyAt, at), Stamp(e.activatedAt, at), None)
         case Retired => Entry(e.embedding, Retired, watermark, count, e.createdAt, Stamp(e.readyAt, at), Stamp(e.activatedAt, at), Some(at))
         case Failed => Entry(e.embedding, Failed, watermark, count, e.createdAt, None, None, None)
  }

  /** Known collections with a valid manifest move in both files, unless the registry then breaks its schema. */
  lemma PersistDoes(f: Files, rev: Revision, st: IndexState, at: Time, count: nat, watermark: Option<Time>)
    ensures var a := Persist(f, rev, st, at, count, watermark);
            && a.files.pointer == f.pointer
            && (rev !in f.registry || rev !in f.manifests || !ValidManifest(f.manifests[rev]) ==> a.outcome == Threw && a.files == f)
            && (rev in f.registry && rev in f.manifests && ValidManifest(f.manifests[rev]) ==>
                  && a.files.manifests.Keys == f.manifests.Keys && ManifestMoved(f.manifests[rev], a.files.manifests[rev], st, at, count)
                  && (forall r :: r in f.manifests && r != rev ==> a.files.manifests[r] == f.manifests[r])
                  && (a.outcome == Threw ==> a.files.registry == f.registry)
                  && (a.outcome == Done ==>
                        && ValidRegistry(a.files.registry) && a.files.registry.Keys == f.registry.Keys
                        && EntryMoved(f.registry[rev], a.files.registry[rev], st, at, count, watermark)
                        && forall r :: r in f.registry && r != rev ==> a.files.registry[r] == f.registry[r]))
  {
  }

  // ----- activate -----

  /** Ready or active in the registry and in a valid manifest of the same embedding. */
  ghost predicate CanBeActive(f: Files, rev: Revision) {
    && rev in f.registry && f.registry[rev].state in {Ready, Active}
    && rev in f.manifests && ValidManifest(f.manifests[rev]) && f.manifests[rev].state in {Ready, Active}
    && f.manifests[rev].embedding == f.registry[rev].embedding
  }

  /** A collection that cannot be active is refused before anything is written; for any other the pointer comes first. */
  lemma PointerComesFirst(f: Files, rev: Revision, at: Time, order: seq<Revision>, budget: nat)
    ensures !CanBeActive(f, rev) ==> Activate(f, rev, at, order, budget) == Attempt(f, Threw, budget)
    ensures CanBeActive(f, rev) && budget == 0 ==> Activate(f, rev, at, order, budget) == Attempt(f, Crashed, 0)
    ensures CanBeActive(f, rev) && budget > 0 ==> Activate(f, rev, at, order, budget).files.pointer == Some(Pointer(rev, at))
  {
    if CanBeActive(f, rev) && budget > 0 {
      LoopKeepsPointer(f.(pointer := Some(Pointer(rev, at))), rev, at, order, budget - 1);
    }
  }

  lemma {:induction false} LoopKeepsPointer(f: Files, target: Revision, at: Time, order: seq<Revision>, budget: nat)
    ensures FinalizeLoop(f, target, at, order, budget).files.pointer == f.pointer
    decreases |order|
  {
    if |order| > 0 {
      var rev := order[0];
      if !Touched(f.registry, rev, target) {
        LoopKeepsPointer(f, target, at, order[1..], budget);
      } else if Readable(f, rev) && budget > 0 {
        LoopKeepsPointer(f.(manifests := f.manifests[rev := FinalManifest(f.registry, f.manifests[rev], rev, target, at)]),
                         target, at, order[1..], budget - 1);
      }
    }
  }

  /** What an activation that is never interrupted leaves of one collection. */
  ghost predicate CollectionActivated(f: Files, g: Files, rev: Revision, at: Time, c: Revision)
    requires c in f.registry
  {
    && c in f.manifests && c in g.manifests && c in g.registry
    && if c == rev then
         && EntryMoved(f.registry[c], g.registry[c], Active, at, f.registry[c].count, f.registry[c].watermark)
         && ManifestMoved(f.manifests[c], g.manifests[c], Active, at, f.registry[c].count)
       else if f.registry[c].state == Active then
         && EntryMoved(f.registry[c], g.registry[c], Retired, at, f.registry[c].count, f.registry[c].watermark)
         && ManifestMoved(f.manifests[c], g.manifests[c], Retired, at, f.registry[c].count)
       else g.registry[c] == f.registry[c] && g.manifests[c] == f.manifests[c]
  }

  lemma EntryActivated(f: Files, rev: Revision, at: Time, c: Revision)
    requires c in f.registry
    ensures c in FinalRegistry(f.registry, rev, at)
    ensures var e, n := f.registry[c], FinalRegistry(f.registry, rev, at)[c];
            if c == rev then EntryMoved(e, n, Active, at, e.count, e.watermark)
            else if e.state == Active then EntryMoved(e, n, Retired, at, e.count, e.watermark) else n == e
  {
  }

  lemma ManifestActivated(f: Files, rev: Revision, at: Time, c: Revision)
    requires c in f.registry && c in f.manifests
    ensures var e, m, n := f.registry[c], f.manifests[c], FinalManifest(f.registry, f.manifests[c], c, rev, at);
            if c == rev then ManifestMoved(m, n, Active, at, e.count)
            else if e.state == Active then ManifestMoved(m, n, Retired, at, e.count) else n == m
  {
  }

  lemma GoalActivates(f: Files, rev: Revision, at: Time, c: Revision)
    requires c in f.registry && c in f.manifests
    ensures CollectionActivated(f, Goal(f.(pointer := Some(Pointer(rev, at)))), rev, at, c)
  {
    EntryActivated(f, rev, at, c);
    ManifestActivated(f, rev, at, c);
  }

  /**
   * Main result: an activation, crashed or not after its pointer was written, and recovered, makes
   * the collection active and the one that was active retired, stamps both, and changes nothing else.
   */
  lemma ActivationDoes(f: Files, rev: Revision, at: Time, order: seq<Revision>, budget: nat, tries: seq<Try>, last: Try)
    requires Settled(f) && CanBeActive(f, rev) && ListsKeys(order, f.registry.Keys) && budget > 0
    requires AllList(tries, f.registry.Keys) && ListsKeys(last.order, f.registry.Keys) && last.budget > |last.order|
    ensures var g := Recover(RecoverAgain(Activate(f, rev, at, order, budget).files, tries), last.order, last.budget).files;
            && g.pointer == Some(Pointer(rev, at)) && g.registry.Keys == f.registry.Keys
            && forall c :: c in f.registry ==> CollectionActivated(f, g, rev, at, c)
  {
    CrashSafe(f, rev, at, order, budget, tries, last);
    UninterruptedActivation(f, rev, at, order);
    var pointed := f.(pointer := Some(Pointer(rev, at)));
    forall c | c in f.registry ensures CollectionActivated(f, Goal(pointed), rev, at, c) {
      assert SameIdentity(f, c);
      GoalActivates(f, rev, at, c);
    }
  }

  /** Recovery writes nothing when the pointed collection is the only active one, or nothing is pointed at. */
  lemma RecoveryDoes(f: Files, order: seq<Revision>, budget: nat)
    ensures f.pointer == None ==> Recover(f, order, budget) == Attempt(f, Done, budget)
    ensures f.pointer.Some? && f.pointer.value.revision !in f.registry ==> Recover(f, order, budget) == Attempt(f, Threw, budget)
    ensures f.pointer.Some? && f.pointer.value.revision in f.registry ==>
              Recover(f, order, budget)
              == if forall c :: c in f.registry ==> (f.registry[c].state == Active <==> c == f.pointer.value.revision)
                 then Attempt(f, Done, budget) else Finalize(f, f.pointer.value.activatedAt, order, budget)
  {
  }

  // ----- create, destroyRetired -----

  /** A new collection has no time but that of its creation, and no other collection changes. */
  lemma CreateDoes(f: Files, rev: Revision, embedding: string, count: nat, createdAt: Time)
    ensures var g := Create(f, rev, embedding, count, createdAt);
            && g.pointer == f.pointer && g.manifests.Keys == f.manifests.Keys + {rev} && g.registry.Keys == f.registry.Keys + {rev}
            && g.registry[rev] == Entry(embedding, Building, None, count, createdAt, None, None, None)
            && g.manifests[rev] == Manifest(embedding, Building, count, createdAt, None, None)
            && (forall r :: r in f.manifests && r != rev ==> g.manifests[r] == f.manifests[r])
            && forall r :: r in f.registry && r != rev ==> g.registry[r] == f.registry[r]
  {
  }

  /** The entry goes; the manifest and the pointer stay. */
  lemma DestroyDoes(f: Files, rev: Revision)
    ensures var g := Destroy(f, rev);
            && g.manifests == f.manifests && g.pointer == f.pointer && rev !in g.registry
            && forall r :: r in f.registry && r != rev ==> r in g.registry && g.registry[r] == f.registry[r]
  {
  }
}
