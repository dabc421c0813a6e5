/** The writes of an activation one file at a time, stopping when the budget of writes is used up. */
module MigrationFiles {
  import opened Wrappers
  import opened Activation

  class IndexFiles {
    var manifests: map<Revision, Manifest>
    var registry: Registry
    var pointer: Option<Pointer>
    /** How many more files are written before the process stops. */
    var budget: nat

    ghost function State(): Files
      reads this
    {
      Files(manifests, registry, pointer)
    }

    /** What an attempt leaves, when it starts from the state before. */
    twostate predicate Follows(a: Attempt, outcome: Outcome)
      reads this
    {
      State() == a.files && outcome == a.outcome && budget == a.left
    }

    /** The writes of finalizePointer: the manifests that change, in registry order, then the registry. */
    method WriteLifecycle(target: Revision, at: Time, order: seq<Revision>) returns (outcome: Outcome)
      modifies this
      ensures Follows(FinalizeLoop(old(State()), target, at, order, old(budget)), outcome)
    {
      var i := 0;
      while i < |order|
        invariant 0 <= i <= |order| && registry == old(registry)
        invariant FinalizeLoop(State(), target, at, order[i..], budget) == FinalizeLoop(old(State()), target, at, order, old(budget))
      {
        var rev := order[i];
        if rev in registry {
          var entry := registry[rev];
          var next := if rev == target then Active else if entry.state == Active then Retired else entry.state;
          if next != entry.state || next == Active {
            if rev !in manifests || !ValidManifest(manifests[rev]) {
              return Threw;
            }
            if budget == 0 {
              return Crashed;
            }
            manifests := manifests[rev := LifecycleManifest(manifests[rev], next, at, entry.count)];
            budget := budget - 1;
          }
        }
        assert order[i..][1..] == order[i + 1..];
        i := i + 1;
      }
      assert order[i..] == [];
      var final := FinalRegistry(registry, target, at);
      var valid := CheckRegistry(final);
      if !valid {
        return Threw;
      }
      if budget == 0 {
        return Crashed;
      }
      registry := final;
      budget := budget - 1;
      outcome := Done;
    }

    /** The registry schema: every entry, and at most one active and one building collection. */
    method CheckRegistry(r: Registry) returns (ok: bool)
      ensures ok == ValidRegistry(r)
    {
      var active := set rev | rev in r && r[rev].state == Active;
      var building := set rev | rev in r && r[rev].state == Building;
      AtMostOneCounts(r, Active);
      AtMostOneCounts(r, Building);
      ok := (forall rev <- r.Keys :: ValidEntry(r[rev])) && |active| <= 1 && |building| <= 1;
    }

    method FinalizePointer(at: Time, order: seq<Revision>) returns (outcome: Outcome)
      modifies this
      ensures Follows(Finalize(old(State()), at, order, old(budget)), outcome)
    {
      if pointer.None? {
        return Threw;
      }
      var target := pointer.value.revision;
      if target !in registry || (registry[target].state != Ready && registry[target].state != Active) {
        return Threw;
      }
      outcome := WriteLifecycle(target, at, order);
    }

    method Activate(rev: Revision, at: Time, order: seq<Revision>) returns (outcome: Outcome)
      modifies this
      ensures Follows(Activation.Activate(old(State()), rev, at, order, old(budget)), outcome)
    {
      if !MayPoint(Files(manifests, registry, pointer), rev) {
        return Threw;
      }
      if budget == 0 {
        return Crashed;
      }
      pointer := Some(Pointer(rev, at));
      budget := budget - 1;
      outcome := FinalizePointer(at, order);
    }

    method RecoverActivation(order: seq<Revision>) returns (outcome: Outcome)
      modifies this
      ensures Follows(Recover(old(State()), order, old(budget)), outcome)
    {
      if pointer.None? {
        return Done;
      }
      var target := pointer.value.revision;
      if target !in registry {
        return Threw;
      }
      var others := set rev | rev in registry && registry[rev].state == Active && rev != target;
      assert others != {} <==> exists rev :: rev in registry && registry[rev].state == Active && rev != target by {
        if others != {} {
          var rev :| rev in others;
        }
        if rev :| rev in registry && registry[rev].state == Active && rev != target {
          assert rev in others;
        }
      }
      if registry[target].state != Active || others != {} {
        outcome := FinalizePointer(pointer.value.activatedAt, order);
      } else {
        outcome := Done;
      }
    }
  }

  /** Counting the entries in one state. */
  lemma AtMostOneCounts(r: Registry, st: IndexState)
    ensures AtMostOne(r, st) <==> |set rev | rev in r && r[rev].state == st| <= 1
  {
    var all := set rev | rev in r && r[rev].state == st;
    if |all| > 1 {
      var a :| a in all;
      assert |all - {a}| > 0;
      var b :| b in all - {a};
      assert a in r && b in r && a != b;
    } else {
      forall a, b | a in r && b in r && r[a].state == st && r[b].state == st ensures a == b {
        assert {a, b} <= all && all == (all - {a, b}) + {a, b};
        assert |all| == |all - {a, b}| + |{a, b}|;
      }
    }
  }
}
