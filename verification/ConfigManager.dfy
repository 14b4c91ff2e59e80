/**
 Transactions over the registry: apply, snapshot, persist, and roll back by
 clearing the shared registry and registering everything again.

 Operations run one after the other: each waits in a queue for the one before.
 */
module ConfigManager {
  import opened Base
  import opened Registry
  import opened Snapshot

  datatype Outcome =
    | Done
    | Refused(error: RegistryError)
    | PersistenceFailed
    | RestoreFailed

  /** What one operation does, given whether the save would succeed. */
  function Transact(rules: Rules, st: State, op: Op, saved: bool): (State, Outcome) {
    match Apply(rules, st, op)
    case Err(error) => (st, if Persistable(rules, st) then Refused(error) else RestoreFailed)
    case Ok(next) =>
      if saved then (next, Done)
      else if Persistable(rules, st) then (st, PersistenceFailed)
      else (next, RestoreFailed)
  }

  /** A store that validates refuses what a validation would refuse; any store may fail to write. */
  predicate Saves(rules: Rules, validates: bool, next: State, diskOk: bool) {
    diskOk && (validates ==> Persistable(rules, next))
  }

  // ----- the manager as the program runs it -----

  class JsonConfigStore {
    const rules: Rules
    const validates: bool
    var current: Option<Snapshot>

    constructor (rules: Rules, validates: bool)
      ensures this.rules == rules && this.validates == validates && current == None
    {
      this.rules, this.validates, current := rules, validates, None;
    }

    /** `diskOk` is the verdict of the file system. */
    method Save(snapshot: Snapshot, diskOk: bool) returns (ok: bool)
      modifies this
      ensures ok <==> diskOk && (validates ==> Accepts(rules, snapshot))
      ensures current == if ok then Some(snapshot) else old(current)
    {
      ok := diskOk;
      if validates {
        var valid := ValidateSnapshot(rules, snapshot);
        ok := ok && valid;
      }
      if ok {
        current := Some(snapshot);
      }
    }
  }

  class Manager {
    const registry: InMemoryProviderRegistry
    const store: JsonConfigStore

    constructor (registry: InMemoryProviderRegistry, store: JsonConfigStore)
      ensures this.registry == registry && this.store == store
    {
      this.registry, this.store := registry, store;
    }

    ghost predicate Valid()
      reads this, registry, store
    {
      registry.rules == store.rules && Integrity(registry.rules, registry.Value())
    }

    /** `#restore`: false when the snapshot cannot be rebuilt, and then nothing has been touched. */
    method Restore(snapshot: Snapshot, ghost target: State) returns (ok: bool)
      requires Integrity(registry.rules, target) && snapshot == SnapshotOf(target)
      requires Integrity(registry.rules, registry.Value())
      modifies registry
      ensures ok <==> Persistable(registry.rules, target)
      ensures registry.Value() == if ok then target else old(registry.Value())
    {
      hide Integrity;
      hide Accepts;
      hide Persistable;
      hide SnapshotOf;
      AcceptedExactlyWhen(registry.rules, target);
      SnapshotRoundTrip(registry.rules, target);
      var restored;
      restored, ok := CreateRegistry(registry.rules, snapshot);
      if !ok {
        return;
      }
      Clear();
      Refill(restored);
    }

    /** Routes first: a provider that a route still names cannot be removed. */
    method Clear()
      requires Integrity(registry.rules, registry.Value())
      modifies registry
      ensures registry.Value() == State(map[], map[])
    {
      var todo := registry.routes.Keys;
      while todo != {}
        invariant todo == registry.routes.Keys
        invariant registry.providers == old(registry.providers)
        decreases |todo|
      {
        var id :| id in todo;
        var error := registry.Drop(id);
        todo := todo - {id};
      }
      assert registry.routes == map[];
      todo := registry.providers.Keys;
      while todo != {}
        invariant todo == registry.providers.Keys
        invariant registry.routes == map[]
        decreases |todo|
      {
        var id :| id in todo;
        var error := registry.Remove(id);
        todo := todo - {id};
      }
      assert registry.providers == map[];
    }

    /** Providers first: a route needs the ones it names. */
    method Refill(restored: InMemoryProviderRegistry)
      requires restored != registry && registry.Value() == State(map[], map[])
      requires Integrity(registry.rules, restored.Value()) && Persistable(registry.rules, restored.Value())
      modifies registry
      ensures registry.Value() == restored.Value()
    {
      hide PutRoute;
      hide RegisterProvider;
      hide Integrity;
      hide Persistable;
      ghost var target := restored.Value();
      var todo := restored.providers.Keys;
      while todo != {}
        invariant todo <= restored.providers.Keys && restored.Value() == target
        invariant registry.Value() == State(target.providers - todo, map[])
        decreases |todo|
      {
        var id :| id in todo;
        ProviderFits(registry.rules, target, todo, id);
        var error := registry.Register(Shaped(restored.providers[id]));
        todo := todo - {id};
      }
      assert target.providers - {} == target.providers;
      todo := restored.routes.Keys;
      assert target.routes - todo == map[];
      while todo != {}
        invariant todo <= restored.routes.Keys && restored.Value() == target
        invariant registry.Value() == State(target.providers, target.routes - todo)
        decreases |todo|
      {
        var id :| id in todo;
        RouteFits(registry.rules, target, todo, id);
        var error := registry.Put(Shaped(restored.routes[id]), true);
        todo := todo - {id};
      }
      assert target.routes - {} == target.routes;
    }

    method ApplyOp(op: Op) returns (error: Option<RegistryError>)
      modifies registry
      ensures var spec := Apply(registry.rules, old(registry.Value()), op);
              if error.Some? then spec == Err(error.value) && registry.Value() == old(registry.Value()) else spec == Ok(registry.Value())
    {
      hide RegisterProvider;
      hide UpdateProvider;
      hide RemoveProvider;
      hide PutRoute;
      hide RemoveRoute;
      match op {
        case CreateProvider(input) => error := registry.Register(input);
        case ChangeProvider(input) => error := registry.Update(input);
        case DeleteProvider(id) => error := registry.Remove(id);
        case CreateRoute(input) => error := registry.Put(input, true);
        case ChangeRoute(input) => error := registry.Put(input, false);
        case DeleteRoute(id) => error := registry.Drop(id);
      }
    }

    /** One operation: snapshot, apply, persist; on any failure restore the snapshot. */
    method Mutate(op: Op, diskOk: bool) returns (outcome: Outcome)
      requires Valid()
      modifies registry, store
      ensures Valid()
      ensures var next := Apply(registry.rules, old(registry.Value()), op);
              var saved := next.Ok? && Saves(registry.rules, store.validates, next.value, diskOk);
              && (registry.Value(), outcome) == Transact(registry.rules, old(registry.Value()), op, saved)
              && store.current == if saved then Some(SnapshotOf(next.value)) else old(store.current)
    {
      hide Integrity;
      hide Accepts;
      hide Persistable;
      hide SnapshotOf;
      hide Apply;
      ghost var before := registry.Value();
      var snapshot := CreateSnapshot(registry);
      var error := ApplyOp(op);
      if error.Some? {
        var restored := Restore(snapshot, before);
        return if restored then Refused(error.value) else RestoreFailed;
      }
      OpsKeepIntegrity(registry.rules, before, op);
      AcceptedExactlyWhen(registry.rules, registry.Value());
      var changed := CreateSnapshot(registry);
      var saved := store.Save(changed, diskOk);
      if !saved {
        var restored := Restore(snapshot, before);
        return if restored then PersistenceFailed else RestoreFailed;
      }
      return Done;
    }
  }

  lemma ProviderFits(rules: Rules, target: State, todo: set<string>, id: string)
    requires Integrity(rules, target) && id in todo && id in target.providers
    ensures RegisterProvider(rules, State(target.providers - todo, map[]), Shaped(target.providers[id]))
         == Ok(State(target.providers - (todo - {id}), map[]))
  {
    hide ProviderOk;
    hide RouteOk;
    hide RouteLinked;
    assert (target.providers - todo)[id := target.providers[id]] == target.providers - (todo - {id});
  }

  lemma RouteFits(rules: Rules, target: State, todo: set<string>, id: string)
    requires Integrity(rules, target) && Persistable(rules, target) && id in todo && id in target.routes
    ensures PutRoute(rules, State(target.providers, target.routes - todo), Shaped(target.routes[id]), true)
         == Ok(State(target.providers, target.routes - (todo - {id})))
  {
    hide ProviderOk;
    hide RouteOk;
    hide PutRoute;
    var r, st := target.routes[id], State(target.providers, target.routes - todo);
    assert RouteLinked(target, r);
    LiveByProviders(target, st, r);
    LiveRouteFits(rules, st, r);
    assert (target.routes - todo)[id := r] == target.routes - (todo - {id});
  }

  // ----- whole runs -----

  /** What the manager has: its registry, what the store holds, and what it answered. */
  datatype Run = Run(st: State, stored: State, outcomes: seq<Outcome>)

  /** A run over operations, each with the verdict of the file system. */
  function RunOps(rules: Rules, validates: bool, st: State, stored: State, ops: seq<(Op, bool)>): Run {
    if ops == [] then Run(st, stored, [])
    else
      var before := RunOps(rules, validates, st, stored, ops[..|ops| - 1]);
      var (op, diskOk) := ops[|ops| - 1];
      var next := Apply(rules, before.st, op);
      var saved := next.Ok? && Saves(rules, validates, next.value, diskOk);
      var (after, outcome) := Transact(rules, before.st, op, saved);
      Run(after, if saved then next.value else before.stored, before.outcomes + [outcome])
  }

  /**
   From a registry that equals what is stored, every sequence of operations and
   every pattern of write failures keeps it so, and no restore ever fails.
   */
  lemma {:induction false} StoreFollowsRegistry(rules: Rules, st: State, ops: seq<(Op, bool)>)
    requires Integrity(rules, st) && Persistable(rules, st)
    ensures var run := RunOps(rules, true, st, st, ops);
            && Integrity(rules, run.st) && Persistable(rules, run.st)
            && run.stored == run.st
            && RestoreFailed !in run.outcomes
    decreases |ops|
  {
    hide Integrity;
    hide Persistable;
    hide Apply;
    if ops != [] {
      StoreFollowsRegistry(rules, st, ops[..|ops| - 1]);
      var before := RunOps(rules, true, st, st, ops[..|ops| - 1]);
      var (op, diskOk) := ops[|ops| - 1];
      if Apply(rules, before.st, op).Ok? {
        OpsKeepIntegrity(rules, before.st, op);
      }
    }
  }

  /** A failed operation of such a run leaves every entry as it was. */
  lemma FailureChangesNothing(rules: Rules, st: State, ops: seq<(Op, bool)>, op: Op, diskOk: bool)
    requires Integrity(rules, st) && Persistable(rules, st)
    ensures var before := RunOps(rules, true, st, st, ops);
            var after := RunOps(rules, true, st, st, ops + [(op, diskOk)]);
            after.outcomes[|after.outcomes| - 1] != Done ==> after.st == before.st && after.stored == before.stored
  {
    hide Integrity;
    hide Persistable;
    hide Apply;
    assert (ops + [(op, diskOk)])[..|ops + [(op, diskOk)]| - 1] == ops;
    StoreFollowsRegistry(rules, st, ops);
  }

  // ----- when a rollback is lost -----

  /**
   The accepted operations after which a registry cannot be written: a reference
   that looks like a secret, or disabling the primary of an enabled route.
   */
  predicate Harmful(rules: Rules, st: State, op: Op) {
    match op
    case CreateProvider(Shaped(p)) => SecretRef(rules, p)
    case ChangeProvider(Shaped(p)) =>
      SecretRef(rules, p) || (!p.enabled && exists id <- st.routes :: st.routes[id].enabled && st.routes[id].providerId == p.id)
    case _ => false
  }

  predicate SecretRef(rules: Rules, p: Provider) {
    p.credentialRef.Some? && rules.refLooksSecret(p.credentialRef.value)
  }

  /** From a registry that can be written, an accepted operation leads out exactly when it is harmful. */
  lemma HarmIsExact(rules: Rules, st: State, op: Op)
    requires Integrity(rules, st) && Persistable(rules, st) && Apply(rules, st, op).Ok?
    ensures Persistable(rules, Apply(rules, st, op).value) <==> !Harmful(rules, st, op)
  {
    hide ProviderOk, RouteOk;
    match op
    case CreateProvider(input) => HarmOfProvider(rules, st, input.value);
    case ChangeProvider(input) => HarmOfProvider(rules, st, input.value);
    case DeleteProvider(id) => RemovalHarmless(rules, st, id);
    case CreateRoute(input) => LinkProblemMeaning(st, input.value);
    case ChangeRoute(input) => LinkProblemMeaning(st, input.value);
    case DeleteRoute(id) =>
  }

  lemma HarmOfProvider(rules: Rules, st: State, p: Provider)
    requires Integrity(rules, st) && Persistable(rules, st)
    ensures Persistable(rules, st.(providers := st.providers[p.id := p])) <==>
              !SecretRef(rules, p) && (p.enabled || forall id <- st.routes :: !(st.routes[id].enabled && st.routes[id].providerId == p.id))
  {
    hide ProviderOk, RouteOk, RouteLinked;
    var next := st.(providers := st.providers[p.id := p]);
    assert next.providers[p.id] == p;
    forall id <- next.providers
      ensures id != p.id ==> next.providers[id] == st.providers[id]
    {
    }
  }

  lemma RemovalHarmless(rules: Rules, st: State, id: string)
    requires Persistable(rules, st) && RemoveProvider(st, id).Ok?
    ensures Persistable(rules, RemoveProvider(st, id).value)
  {
    forall r <- st.routes
      ensures st.routes[r].providerId != id
    {
      assert !References(st.routes[r], id);
    }
  }

  /** The k-th operation of a run is refused or not saved. */
  predicate FailsAt(rules: Rules, validates: bool, st: State, stored: State, ops: seq<(Op, bool)>, k: nat)
    requires k < |ops|
  {
    var next := Apply(rules, RunOps(rules, validates, st, stored, ops[..k]).st, ops[k].0);
    next.Err? || !Saves(rules, validates, next.value, ops[k].1)
  }

  lemma OneMoreOp(rules: Rules, validates: bool, st: State, stored: State, ops: seq<(Op, bool)>)
    requires ops != []
    ensures var n := |ops| - 1;
            var before, run := RunOps(rules, validates, st, stored, ops[..n]), RunOps(rules, validates, st, stored, ops);
            && |run.outcomes| == |before.outcomes| + 1 && run.outcomes[..|before.outcomes|] == before.outcomes
            && (run.outcomes[|before.outcomes|] == RestoreFailed <==>
                  !Persistable(rules, before.st) && FailsAt(rules, validates, st, stored, ops, n))
  {
    hide Persistable, Apply;
  }

  lemma {:induction false} OutcomeOfEach(rules: Rules, validates: bool, st: State, stored: State, ops: seq<(Op, bool)>)
    ensures var run := RunOps(rules, validates, st, stored, ops);
            && |run.outcomes| == |ops|
            && forall k :: 0 <= k < |ops| ==>
                 (run.outcomes[k] == RestoreFailed <==>
                    !Persistable(rules, RunOps(rules, validates, st, stored, ops[..k]).st) && FailsAt(rules, validates, st, stored, ops, k))
    decreases |ops|
  {
    hide RunOps, FailsAt, Persistable;
    if ops == [] {
      NoOutcomes(rules, validates, st, stored);
    } else {
      var n := |ops| - 1;
      var init := ops[..n];
      OutcomeOfEach(rules, validates, st, stored, init);
      OneMoreOp(rules, validates, st, stored, ops);
      var run := RunOps(rules, validates, st, stored, ops);
      forall k | 0 <= k < n
        ensures run.outcomes[k] == RunOps(rules, validates, st, stored, init).outcomes[k]
        ensures init[..k] == ops[..k]
        ensures FailsAt(rules, validates, st, stored, init, k) == FailsAt(rules, validates, st, stored, ops, k)
      {
        SameFailure(rules, validates, st, stored, ops, k);
      }
    }
  }

  lemma NoOutcomes(rules: Rules, validates: bool, st: State, stored: State)
    ensures RunOps(rules, validates, st, stored, []).outcomes == []
  {}

  lemma SameFailure(rules: Rules, validates: bool, st: State, stored: State, ops: seq<(Op, bool)>, k: nat)
    requires k < |ops| - 1
    ensures var init := ops[..|ops| - 1];
            init[..k] == ops[..k] && FailsAt(rules, validates, st, stored, init, k) == FailsAt(rules, validates, st, stored, ops, k)
  {
    assert ops[..|ops| - 1][..k] == ops[..k];
  }

  /**
   Over whole runs and for any store: some restore fails exactly when some
   operation fails while the registry is in a state that cannot be written.
   */
  lemma RestoreFailsExactlyWhen(rules: Rules, validates: bool, st: State, stored: State, ops: seq<(Op, bool)>)
    ensures RestoreFailed in RunOps(rules, validates, st, stored, ops).outcomes <==>
              exists k :: 0 <= k < |ops| && !Persistable(rules, RunOps(rules, validates, st, stored, ops[..k]).st)
                          && FailsAt(rules, validates, st, stored, ops, k)
  {
    hide RunOps, FailsAt, Persistable;
    OutcomeOfEach(rules, validates, st, stored, ops);
    var run := RunOps(rules, validates, st, stored, ops);
    if RestoreFailed in run.outcomes {
      var k :| 0 <= k < |run.outcomes| && run.outcomes[k] == RestoreFailed;
      assert !Persistable(rules, RunOps(rules, validates, st, stored, ops[..k]).st);
    }
  }

  /** No operation of the run is harmful at its turn, unless it is refused or not saved. */
  predicate Harmless(rules: Rules, validates: bool, st: State, stored: State, ops: seq<(Op, bool)>) {
    ops == [] ||
    (var n := |ops| - 1;
     Harmless(rules, validates, st, stored, ops[..n])
     && (FailsAt(rules, validates, st, stored, ops, n) || !Harmful(rules, RunOps(rules, validates, st, stored, ops[..n]).st, ops[n].0)))
  }

  /**
   With any store: a run without harmful operations, which a caller can tell
   before each of them, ends in a registry that can be written, equal to what is
   stored, and no restore in it fails.
   */
  lemma {:induction false} HarmlessRunsAreSafe(rules: Rules, validates: bool, st: State, ops: seq<(Op, bool)>)
    requires Integrity(rules, st) && Persistable(rules, st) && Harmless(rules, validates, st, st, ops)
    ensures var run := RunOps(rules, validates, st, st, ops);
            && Integrity(rules, run.st) && Persistable(rules, run.st)
            && run.stored == run.st
            && RestoreFailed !in run.outcomes
    decreases |ops|
  {
    hide Integrity, Persistable, Apply, Harmful;
    if ops != [] {
      var n := |ops| - 1;
      HarmlessRunsAreSafe(rules, validates, st, ops[..n]);
      var before := RunOps(rules, validates, st, st, ops[..n]).st;
      if Apply(rules, before, ops[n].0).Ok? {
        OpsKeepIntegrity(rules, before, ops[n].0);
        HarmIsExact(rules, before, ops[n].0);
      }
    }
  }

  /**
   The condition is exact for a store that does not validate: after a harmless
   run, a harmful operation that is accepted and saved makes the restore of the
   next failing operation fail, whatever that is.
   */
  lemma HarmLosesTheNextRollback(rules: Rules, st: State, ops: seq<(Op, bool)>, harm: Op, failing: (Op, bool))
    requires Integrity(rules, st) && Persistable(rules, st) && Harmless(rules, false, st, st, ops)
    requires var before := RunOps(rules, false, st, st, ops).st; Apply(rules, before, harm).Ok? && Harmful(rules, before, harm)
    requires FailsAt(rules, false, st, st, ops + [(harm, true), failing], |ops| + 1)
    ensures RunOps(rules, false, st, st, ops + [(harm, true), failing]).outcomes
         == RunOps(rules, false, st, st, ops).outcomes + [Done, RestoreFailed]
  {
    hide Integrity, Persistable, Apply, Harmful, Harmless;
    var one, two := ops + [(harm, true)], ops + [(harm, true), failing];
    assert one[..|one| - 1] == ops && two[..|two| - 1] == one;
    HarmlessRunsAreSafe(rules, false, st, ops);
    HarmIsExact(rules, RunOps(rules, false, st, st, ops).st, harm);
  }

  // ----- a run that shows it -----

  const CLAUDE := Provider("anthropic", "Anthropic", AnthropicMessages, "https://api.anthropic.com", None, ["claude-sonnet"], true)
  const CLAUDE_OFF := CLAUDE.(enabled := false)
  const MAIN := Route("main", "Main", "anthropic", "claude-sonnet", true, None)

  /** A provider and its route are created, the provider is disabled, and then deleting the route cannot be written. */
  const HISTORY: seq<(Op, bool)> :=
    [(CreateProvider(Shaped(CLAUDE)), true), (CreateRoute(Shaped(MAIN)), true), (ChangeProvider(Shaped(CLAUDE_OFF)), true), (DeleteRoute("main"), false)]

  /** Under any rules that allow these definitions: the deletion is reported as failed, the store still has the route, and the registry does not. */
  lemma RollbackLost(rules: Rules)
    requires ProviderOk(rules, CLAUDE) && RouteOk(rules, MAIN)
    ensures var run := RunOps(rules, false, EMPTY, EMPTY, HISTORY);
            && run.outcomes == [Done, Done, Done, RestoreFailed]
            && "main" in run.stored.routes && "main" !in run.st.routes
  {
    hide ProviderOk, RouteOk;
    var one := State(map["anthropic" := CLAUDE], map[]);
    var two := one.(routes := map["main" := MAIN]);
    var three := two.(providers := map["anthropic" := CLAUDE_OFF]);
    SameProviderOk(rules);
    assert HISTORY[..3][..2] == HISTORY[..2] && HISTORY[..2][..1] == HISTORY[..1] && HISTORY[..1][..0] == [];
    assert RunOps(rules, false, EMPTY, EMPTY, HISTORY[..1]) == Run(one, one, [Done]) by {
      assert Apply(rules, EMPTY, HISTORY[0].0) == Ok(one);
    }
    assert RunOps(rules, false, EMPTY, EMPTY, HISTORY[..2]) == Run(two, two, [Done, Done]) by {
      assert CLAUDE.models[0] == MAIN.model;
      assert Apply(rules, one, HISTORY[1].0) == Ok(two);
    }
    assert RunOps(rules, false, EMPTY, EMPTY, HISTORY[..3]) == Run(three, three, [Done, Done, Done]) by {
      assert CLAUDE_OFF.models[0] == MAIN.model;
      assert two.providers["anthropic" := CLAUDE_OFF] == three.providers;
      assert Apply(rules, two, HISTORY[2].0) == Ok(three);
    }
    assert three.routes["main"].enabled && !three.providers["anthropic"].enabled;
    assert !Persistable(rules, three);
    assert Apply(rules, three, HISTORY[3].0) == Ok(three.(routes := three.routes - {"main"}));
  }

  lemma SameProviderOk(rules: Rules)
    requires ProviderOk(rules, CLAUDE)
    ensures ProviderOk(rules, CLAUDE_OFF)
  {}

  /**
   From a registry that can be written, an operation is done exactly when it may be
   carried out and its result is saved; then its effect is what it asks for, and
   otherwise nothing has changed. A refusal names its error, a failed write does not.
   */
  lemma DoneExactlyWhen(rules: Rules, validates: bool, st: State, op: Op, diskOk: bool)
    requires Integrity(rules, st) && Persistable(rules, st)
    ensures var run := RunOps(rules, validates, st, st, [(op, diskOk)]);
            var intended := Intended(st, op);
            var allowed := intended.Some? && Integrity(rules, intended.value) && PutsLiveRoute(st, op);
            var saved := allowed && diskOk && (validates ==> Persistable(rules, intended.value));
            && run.outcomes != []
            && (run.outcomes[0] == Done <==> saved)
            && (run.outcomes[0] == PersistenceFailed <==> allowed && !saved)
            && (run.outcomes[0].Refused? <==> !allowed)
            && (if saved then run.st == intended.value && run.stored == intended.value else run.st == st && run.stored == st)
  {
    hide Integrity, Persistable, Apply, Intended, PutsLiveRoute;
    AppliesExactlyWhen(rules, st, op);
    var ops := [(op, diskOk)];
    assert ops[..|ops| - 1] == [];
    assert RunOps(rules, validates, st, st, []) == Run(st, st, []);
  }
}
