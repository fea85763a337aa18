/**
The waits for the dependencies of a service (tako-compose/src/rollout.rs): what they have
seen, and what of it still holds when they are over.
*/
module DependencyWaits {
  import opened Results
  import opened Planner
  import opened Engine
  import opened RolloutPlan

  // ----- What was seen -----

  /** The first `n` selected containers of a dependency were seen meeting its condition. */
  ghost predicate SeenUpTo(seen: seq<Container>, selected: seq<Container>, d: Dependency, n: nat)
    requires n <= |selected|
  {
    forall k | 0 <= k < n && selected[k].service == d.service :: SeenAs(seen, selected[k], d.condition)
  }

  ghost predicate SeenAs(seen: seq<Container>, c: Container, condition: Condition) {
    exists s | s in seen :: SameContainer(c, s) && Observe(s, Some(condition)).Pass?
  }

  ghost predicate AllSeen(seen: seq<Container>, selected: seq<Container>, deps: seq<Dependency>, n: nat)
    requires n <= |deps|
  {
    forall i | 0 <= i < n :: SeenUpTo(seen, selected, deps[i], |selected|)
  }

  lemma SeenGrows(seen: seq<Container>, more: seq<Container>, selected: seq<Container>, deps: seq<Dependency>, n: nat)
    requires n <= |deps| && AllSeen(seen, selected, deps, n) && seen <= more
    ensures AllSeen(more, selected, deps, n)
  {
    forall i | 0 <= i < n
      ensures SeenUpTo(more, selected, deps[i], |selected|)
    {
      OneSeenGrows(seen, more, selected, deps[i], |selected|);
    }
  }

  lemma OneSeenGrows(seen: seq<Container>, more: seq<Container>, selected: seq<Container>, d: Dependency, n: nat)
    requires n <= |selected| && SeenUpTo(seen, selected, d, n) && seen <= more
    ensures SeenUpTo(more, selected, d, n)
  {
    forall k | 0 <= k < n && selected[k].service == d.service
      ensures SeenAs(more, selected[k], d.condition)
    {
      assert SeenAs(seen, selected[k], d.condition);
      var s :| s in seen && SameContainer(selected[k], s) && Observe(s, Some(d.condition)).Pass?;
      assert s in more;
    }
  }

  lemma EarlierService(plan: seq<ServicePlan>, i: nat, d: Dependency, q: ServicePlan)
    requires DependenciesFirst(plan) && i < |plan| && d in plan[i].dependencies && q in plan && q.name == d.service
    ensures q in plan[..i]
  {
    assert Provided(plan, i);
    var j :| 0 <= j < i && plan[j].name == d.service;
    assert plan[j] == plan[..i][j];
    var k :| 0 <= k < |plan| && plan[k] == q;
  }

  /** When the waits for a service have passed, all planned replicas of its dependencies were seen. */
  lemma WaitsCoverPlan(plan: seq<ServicePlan>, i: nat, seen: seq<Container>, selected: seq<Container>)
    requires i < |plan| && Fills(Slots(plan[..i]), selected) && AllSeen(seen, selected, plan[i].dependencies, |plan[i].dependencies|)
    ensures DependenciesSeen(plan, plan[i], seen)
  {
    if DependenciesFirst(plan) {
      forall d, q, slot: nat | d in plan[i].dependencies && q in plan && q.name == d.service && slot < q.replicas
        ensures SlotSeen(seen, q, slot, d.condition)
      {
        EarlierService(plan, i, d, q);
        var k := SlotIsListed(plan[..i], q, slot);
        var at :| 0 <= at < |plan[i].dependencies| && plan[i].dependencies[at] == d;
        assert SeenUpTo(seen, selected, plan[i].dependencies[at], |selected|);
        assert SeenAs(seen, selected[k], d.condition);
      }
    }
  }

  // ----- What still holds after the waits -----

  /** The first `n` selected containers of a dependency meet its condition now. */
  ghost predicate MetUpTo(world: World, selected: seq<Container>, d: Dependency, n: nat)
    requires n <= |selected|
  {
    forall k | 0 <= k < n && selected[k].service == d.service :: Meets(world, selected[k].id, d.condition)
  }

  /** The last one of them does. */
  ghost predicate LastMet(world: World, selected: seq<Container>, d: Dependency, n: nat)
    requires n <= |selected|
  {
    forall k | 0 <= k < n && selected[k].service == d.service && (forall j | k < j < n :: selected[j].service != d.service) ::
      Meets(world, selected[k].id, d.condition)
  }

  /** So do the first `n` dependencies whose conditions last. */
  ghost predicate AllMet(world: World, selected: seq<Container>, deps: seq<Dependency>, n: nat, steady: bool)
    requires n <= |deps|
  {
    forall i | 0 <= i < n && Lasts(deps, i, steady) :: MetUpTo(world, selected, deps[i], |selected|)
  }

  /** Time has passed, in a steady engine only for containers of this service. */
  ghost predicate Waited(w: World, next: World, name: string, steady: bool) {
    TimePasses(w, next) && (steady ==> forall id | id in w && w[id].service != name :: next[id] == w[id])
  }

  lemma WaitedThen(a: World, b: World, c: World, name: string, steady: bool)
    requires Waited(a, b, name, steady) && Waited(b, c, name, steady)
    ensures Waited(a, c, name, steady)
  {}

  /** A completed job stays completed. */
  lemma CompletedStays(w: World, next: World, id: Id)
    requires TimePasses(w, next) && Meets(w, id, Completed)
    ensures Meets(next, id, Completed)
  {}

  lemma OneMoreMet(w: World, next: World, selected: seq<Container>, d: Dependency, k: nat, steady: bool)
    requires DistinctIds(selected) && k < |selected| && TimePasses(w, next) && (steady ==> OnlyStateOf(w, next, selected[k].id))
    requires steady || d.condition.Completed? ==> MetUpTo(w, selected, d, k)
    requires selected[k].service == d.service && Meets(next, selected[k].id, d.condition)
    ensures steady || d.condition.Completed? ==> MetUpTo(next, selected, d, k + 1)
    ensures LastMet(next, selected, d, k + 1)
  {}

  lemma OneMoreDependencyMet(w: World, next: World, selected: seq<Container>, deps: seq<Dependency>, i: nat, steady: bool)
    requires i < |deps| && AllMet(w, selected, deps, i, steady) && Waited(w, next, deps[i].service, steady)
    requires forall k | 0 <= k < |selected| :: selected[k].id in w && w[selected[k].id].service == selected[k].service
    requires steady || deps[i].condition.Completed? ==> MetUpTo(next, selected, deps[i], |selected|)
    ensures AllMet(next, selected, deps, i + 1, steady)
  {
    forall e | 0 <= e < i && Lasts(deps, e, steady)
      ensures MetUpTo(next, selected, deps[e], |selected|)
    {
      assert MetUpTo(w, selected, deps[e], |selected|);
    }
  }

  /** The waits for the first `k` selected containers have passed, as far as they belong to the dependency. */
  ghost predicate Passed(world: World, seen: seq<Container>, selected: seq<Container>, d: Dependency, k: nat, steady: bool)
    requires k <= |selected|
  {
    && SeenUpTo(seen, selected, d, k) && LastMet(world, selected, d, k)
    && (steady || d.condition.Completed? ==> MetUpTo(world, selected, d, k))
  }

  lemma PassedOther(world: World, seen: seq<Container>, selected: seq<Container>, d: Dependency, k: nat, steady: bool)
    requires k < |selected| && Passed(world, seen, selected, d, k, steady) && selected[k].service != d.service
    ensures Passed(world, seen, selected, d, k + 1, steady)
  {}

  lemma PassedOneMore(
    w: World, next: World, seen: seq<Container>, selected: seq<Container>, d: Dependency, k: nat, c: Container, steady: bool)
    requires k < |selected| && Passed(w, seen, selected, d, k, steady) && DistinctIds(selected) && selected[k].service == d.service
    requires TimePasses(w, next) && (steady ==> OnlyStateOf(w, next, selected[k].id))
    requires c.id == selected[k].id && c.id in next && next[c.id] == c && SameContainer(selected[k], c)
    requires Observe(c, Some(d.condition)).Pass?
    ensures Passed(next, seen + [c], selected, d, k + 1, steady)
  {
    OneSeenGrows(seen, seen + [c], selected, d, k);
    assert c in seen + [c] && SeenAs(seen + [c], selected[k], d.condition);
    OneMoreMet(w, next, selected, d, k, steady);
  }

  /** The waits for the first `n` dependencies have passed. */
  ghost predicate AllPassed(world: World, seen: seq<Container>, selected: seq<Container>, deps: seq<Dependency>, n: nat, steady: bool)
    requires n <= |deps|
  {
    && AllSeen(seen, selected, deps, n) && AllMet(world, selected, deps, n, steady)
    && (n > 0 ==> LastMet(world, selected, deps[n - 1], |selected|))
  }

  lemma AllPassedOneMore(
    w: World, next: World, seen: seq<Container>, more: seq<Container>, selected: seq<Container>, deps: seq<Dependency>,
    i: nat, steady: bool)
    requires i < |deps| && AllPassed(w, seen, selected, deps, i, steady) && Waited(w, next, deps[i].service, steady) && seen <= more
    requires forall k | 0 <= k < |selected| :: selected[k].id in w && w[selected[k].id].service == selected[k].service
    requires Passed(next, more, selected, deps[i], |selected|, steady)
    ensures AllPassed(next, more, selected, deps, i + 1, steady)
  {
    SeenGrows(seen, more, selected, deps, i);
    OneMoreDependencyMet(w, next, selected, deps, i, steady);
  }

  /** The last slot of a service is followed only by slots of other services. */
  lemma {:induction false} LastSlotIsLast(plan: seq<ServicePlan>, q: ServicePlan, k: nat, j: nat)
    requires DistinctNames(plan) && k < j < |Slots(plan)|
    requires Slots(plan)[k].service == q && Slots(plan)[k].index + 1 == q.replicas
    ensures Slots(plan)[j].service.name != q.name
    decreases |plan|
  {
    var front, last := plan[..|plan| - 1], plan[|plan| - 1];
    SlotsFromPlan(front);
    SlotsOfShape(last, last.replicas);
    if j < |Slots(front)| {
      LastSlotIsLast(front, q, k, j);
    }
  }

  /** When the waits for a service have passed, its dependencies are met as far as the conditions last. */
  lemma WaitsMeetPlan(plan: seq<ServicePlan>, i: nat, world: World, selected: seq<Container>, steady: bool)
    requires i < |plan| && Fills(Slots(plan[..i]), selected)
    requires forall k | 0 <= k < |selected| :: selected[k].id in world && world[selected[k].id].generation == selected[k].generation
    requires AllMet(world, selected, plan[i].dependencies, |plan[i].dependencies|, steady)
    requires var deps := plan[i].dependencies; deps != [] ==> LastMet(world, selected, deps[|deps| - 1], |selected|)
    ensures DependenciesMet(plan, plan[i], world, steady)
  {
    var deps := plan[i].dependencies;
    if DependenciesFirst(plan) {
      forall e, q, slot: nat | 0 <= e < |deps| && q in plan && q.name == deps[e].service && slot < q.replicas
                               && (Lasts(deps, e, steady) || (e == |deps| - 1 && slot == q.replicas - 1))
        ensures SlotMet(world, q, slot, deps[e].condition)
      {
        EarlierService(plan, i, deps[e], q);
        var k := SlotIsListed(plan[..i], q, slot);
        if Lasts(deps, e, steady) {
          assert MetUpTo(world, selected, deps[e], |selected|);
        } else {
          forall j | k < j < |selected|
            ensures selected[j].service != q.name
          {
            LastSlotIsLast(plan[..i], q, k, j);
          }
        }
        assert Meets(world, selected[k].id, deps[e].condition);
      }
    }
  }

  lemma WaitsReadyPlan(plan: seq<ServicePlan>, i: nat, world: World, seen: seq<Container>, selected: seq<Container>, steady: bool)
    requires i < |plan| && Fills(Slots(plan[..i]), selected)
    requires forall k | 0 <= k < |selected| :: selected[k].id in world && world[selected[k].id].generation == selected[k].generation
    requires AllPassed(world, seen, selected, plan[i].dependencies, |plan[i].dependencies|, steady)
    ensures DependenciesReady(plan, plan[i], world, seen, steady)
  {
    WaitsCoverPlan(plan, i, seen, selected);
    WaitsMeetPlan(plan, i, world, selected, steady);
  }

  // ----- A dependency that leaves its condition -----

  /** The passing of time can end every condition but completion. */
  lemma OnlyCompletedStays(c: Container, condition: Condition)
    requires Observe(c, Some(condition)).Pass?
    ensures (forall w, next | c.id in w && w[c.id] == c && TimePasses(w, next) :: Meets(next, c.id, condition))
            <==> condition.Completed?
  {
    if !condition.Completed? {
      var w: World := map[c.id := c];
      var next := w[c.id := c.(state := Exited)];
      assert TimePasses(w, next) && !Meets(next, c.id, condition);
    } else {
      forall w, next | c.id in w && w[c.id] == c && TimePasses(w, next)
        ensures Meets(next, c.id, condition)
      {
        CompletedStays(w, next, c.id);
      }
    }
  }

  /** A later wait for a container that is up and has to be polled again can pass after ending any other such condition. */
  lemma LaterWaitMayEndIt(w: World, id: Id, condition: Condition, later: Id, awaited: Condition) returns (next: World)
    requires Meets(w, id, condition) && !condition.Completed?
    requires later in w && later != id && IsUp(w[later]) && Observe(w[later], Some(awaited)).Again?
    requires awaited.Healthy? ==> !w[later].health.NoCheck?
    ensures TimePasses(w, next) && Meets(next, later, awaited) && !Meets(next, id, condition)
  {
    var health := if awaited.Healthy? then Good else w[later].health;
    var state := if awaited.Completed? then Exited else Running;
    next := w[id := w[id].(state := Exited)][later := w[later].(state := state, health := health, exitCode := 0)];
  }

  const TWO_STARTED := [Dependency("a", Condition.Started), Dependency("b", Condition.Started)]

  function PairPlan(): seq<ServicePlan> {
    [ServicePlan("a", "f", 1, StartFirst, [], false),
     ServicePlan("b", "f", 1, StartFirst, [], false),
     ServicePlan("web", "f", 1, StartFirst, TWO_STARTED, false)]
  }

  function PairContainer(name: string, state: State, deps: seq<Dependency>): Container {
    Container(name, name, Generation(name, 0, "f"), 0, "f", state, NoCheck, 0, 0, {}, deps)
  }

  function PairWorld(a: State, b: State): World {
    map["a" := PairContainer("a", a, []), "b" := PairContainer("b", b, []),
        "web" := PairContainer("web", State.Created, TWO_STARTED)]
  }

  /** "a" passes its wait. */
  const PAIR_FIRST: World := PairWorld(Running, Restarting)
  /** While "b" is awaited "a" exits. */
  const PAIR_SECOND: World := PairWorld(Exited, Running)
  const PAIR_SEEN := [PAIR_FIRST["a"], PAIR_SECOND["b"]]

  lemma DependencyExitsWhileAwaiting()
    ensures Meets(PAIR_FIRST, "a", Condition.Started) && Observe(PAIR_FIRST["b"], Some(Condition.Started)).Again?
    ensures TimePasses(PAIR_FIRST, PAIR_SECOND)
    ensures Meets(PAIR_SECOND, "b", Condition.Started) && !Meets(PAIR_SECOND, "a", Condition.Started)
  {}

  lemma PairIsReady()
    ensures DependenciesReady(PairPlan(), PairPlan()[2], PAIR_SECOND, PAIR_SEEN, false)
  {
    var plan := PairPlan();
    DependencyExitsWhileAwaiting();
    assert PAIR_FIRST["a"] in PAIR_SEEN && PAIR_SECOND["b"] in PAIR_SEEN;
    assert SlotSeen(PAIR_SEEN, plan[0], 0, Condition.Started) && SlotSeen(PAIR_SEEN, plan[1], 0, Condition.Started);
    assert SlotMet(PAIR_SECOND, plan[1], 0, Condition.Started);
  }

  lemma PairIsOrdered()
    ensures DependenciesFirst(PairPlan()) && DistinctServices(PairPlan()[2].dependencies)
  {
    var plan := PairPlan();
    assert Provided(plan, 0) && Provided(plan, 1) && Provided(plan, 2);
  }

  /** So a start can be one that the rollout may give although a dependency has left its condition. */
  lemma DependencyMayBeGone()
    ensures DependenciesFirst(PairPlan()) && DistinctServices(PairPlan()[2].dependencies)
    ensures Allowed(PairPlan(), false, StartCommand("web", PAIR_SECOND, PAIR_SEEN))
    ensures !Meets(PAIR_SECOND, "a", Condition.Started)
  {
    var plan := PairPlan();
    PairIsOrdered();
    PairIsReady();
    assert plan[2] in plan && AllowedFor(plan, false, plan[2], 0, StartCommand("web", PAIR_SECOND, PAIR_SEEN));
  }
}
