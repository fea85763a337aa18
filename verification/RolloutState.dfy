/**
The states of a production update (tako-compose/src/rollout.rs): what it has selected and
seen, when the world is settled, and `changes`.
*/
module RolloutState {
  import opened Results
  import opened Planner
  import opened Engine
  import opened RolloutPlan
  import opened DependencyWaits

  // ----- Settled worlds -----

  /** What `apply` waits for in the end: a job has completed, any other service is healthy. */
  predicate IsDone(service: ServicePlan, c: Container) {
    if service.completed then IsCompleted(c) else IsHealthy(c)
  }

  ghost predicate ServedBy(service: ServicePlan, slot: nat, world: World, id: Id) {
    && id in world && Matches(service, slot, world[id]) && IsDone(service, world[id])
    && forall other | other in world && Matches(service, slot, world[other]) :: other == id
  }

  ghost predicate Served(service: ServicePlan, slot: nat, world: World) { exists id :: ServedBy(service, slot, world, id) }

  /** Each planned slot is served by its only match, and there is nothing else. */
  ghost predicate Settled(plan: seq<ServicePlan>, world: World) {
    && (forall p, slot | p in plan && 0 <= slot < p.replicas :: Served(p, slot, world))
    && (forall id | id in world :: exists p, slot :: p in plan && 0 <= slot < p.replicas && Matches(p, slot, world[id]))
  }

  /** Whatever somebody waits to complete is planned as a job. */
  ghost predicate JobsMarked(plan: seq<ServicePlan>) {
    forall p, d | p in plan && d in p.dependencies && d.condition.Completed? :: PlannedAsJob(plan, d.service)
  }

  ghost predicate PlannedAsJob(plan: seq<ServicePlan>, name: string) {
    forall q | q in plan && q.name == name :: q.completed
  }

  lemma ListedJob(plans: Plans, names: seq<string>, services: seq<ServicePlan>, i: nat, name: string)
    requires IsListing(plans, names, services) && forall n | n in plans :: plans[n].name == n
    requires i < |names| && Dependency(name, Completed) in services[i].dependencies
    ensures PlannedAsJob(services, name)
  {
    assert Dependency(name, Completed) in plans[names[i]].dependencies;
    assert IsJob(plans, name);
    forall q | q in services && q.name == name
      ensures q.completed
    {
      var j :| 0 <= j < |services| && services[j] == q;
    }
  }

  lemma PlannerMarksJobs(plans: Plans, services: seq<ServicePlan>)
    requires IsPlanOf(plans, services) && forall n | n in plans :: plans[n].name == n
    ensures JobsMarked(services)
  {
    var names :| IsListing(plans, names, services);
    forall p, d | p in services && d in p.dependencies && d.condition.Completed?
      ensures PlannedAsJob(services, d.service)
    {
      var i :| 0 <= i < |services| && services[i] == p;
      ListedJob(plans, names, services, i, d.service);
    }
  }

  /** A finished container decides a wait at once: a job passes only as a job, a service only as a service. */
  lemma DoneDecidesWait(p: ServicePlan, c: Container, condition: Condition)
    requires IsDone(p, c) && (condition.Completed? ==> p.completed)
    ensures !Observe(c, Some(condition)).Again?
    ensures Observe(c, Some(condition)).Pass? <==>
            if p.completed then condition.Completed? else condition.Started? || !c.health.NoCheck?
  {}

  // ----- Changes -----

  predicate HasReady(service: ServicePlan, slot: nat, before: seq<Container>) {
    exists c | c in before :: Matches(service, slot, c) && IsReady(service, c)
  }

  predicate Differs(service: ServicePlan, before: seq<Container>) {
    || (exists c | c in before :: c.service == service.name && c.slot >= service.replicas)
    || (exists slot | 0 <= slot < service.replicas :: !HasReady(service, slot, before))
  }

  /** The services that `apply` would act on, with their update order, in the order of the plan. */
  function Changes(plan: seq<ServicePlan>, before: seq<Container>): (r: seq<(string, UpdateOrder)>)
    ensures forall e :: e in r <==> exists p | p in plan :: Differs(p, before) && e == (p.name, p.order)
    ensures r == [] <==> forall p | p in plan :: !Differs(p, before)
  {
    if plan == [] then []
    else
      var rest := Changes(plan[..|plan| - 1], before);
      var last := plan[|plan| - 1];
      assert plan == plan[..|plan| - 1] + [last];
      if Differs(last, before) then rest + [(last.name, last.order)] else rest
  }

  /** A settled world reports no changes. */
  lemma SettledHasNoChanges(plan: seq<ServicePlan>, world: World, before: seq<Container>)
    requires DistinctNames(plan) && Settled(plan, world) && ListsAll(world, before)
    ensures Changes(plan, before) == []
  {
    forall p | p in plan
      ensures !Differs(p, before)
    {
      forall c | c in before && c.service == p.name
        ensures c.slot < p.replicas
      {
        var q, slot :| q in plan && 0 <= slot < q.replicas && Matches(q, slot, world[c.id]);
        SameName(plan, p, q);
      }
      forall slot | 0 <= slot < p.replicas
        ensures HasReady(p, slot, before)
      {
        assert Served(p, slot, world);
        var id :| ServedBy(p, slot, world, id);
        assert world[id] in before;
      }
    }
  }

  // ----- Tracking containers while the engine works -----

  /** These containers still exist; only their state may have moved on. */
  ghost predicate Tracks(world: World, selected: seq<Container>) {
    forall k | 0 <= k < |selected| :: selected[k].id in world && SameContainer(selected[k], world[selected[k].id])
  }

  /** Nothing was removed or relabelled. */
  ghost predicate Evolves(before: World, after: World) {
    before.Keys <= after.Keys && forall id | id in before :: SameContainer(before[id], after[id])
  }

  lemma EvolvesTracks(before: World, after: World, selected: seq<Container>)
    requires Evolves(before, after) && Tracks(before, selected)
    ensures Tracks(after, selected)
  {}

  /** The log has grown by commands that the plan allows. */
  ghost predicate Lawful(plan: seq<ServicePlan>, steady: bool, before: seq<Command>, after: seq<Command>) {
    before <= after && AllAllowed(plan, steady, after[|before|..])
  }

  lemma LawfulThen(plan: seq<ServicePlan>, steady: bool, a: seq<Command>, b: seq<Command>, c: seq<Command>)
    requires Lawful(plan, steady, a, b) && Lawful(plan, steady, b, c)
    ensures Lawful(plan, steady, a, c)
  {
    assert c[|a|..] == b[|a|..] + c[|b|..];
  }

  lemma LawfulOne(plan: seq<ServicePlan>, steady: bool, before: seq<Command>, cmd: Command)
    requires Allowed(plan, steady, cmd)
    ensures Lawful(plan, steady, before, before + [cmd]) && Lawful(plan, steady, before, before)
  {
    assert (before + [cmd])[|before|..] == [cmd];
  }

  // ----- One slot -----

  /** The world in which a slot's candidate is fixed: nothing was removed since `existing` was listed, at most it was added. */
  ghost predicate Fixed(existing: seq<Container>, service: ServicePlan, slot: nat, world: World, candidate: Container) {
    && WellKeyed(world)
    && IsCandidate(service, slot, world, candidate)
    && Tracks(world, existing)
    && forall id | id in world && id != candidate.id :: exists k | 0 <= k < |existing| :: existing[k].id == id
  }

  lemma StopIsAllowed(
    plan: seq<ServicePlan>, steady: bool, existing: seq<Container>, service: ServicePlan, slot: nat, world: World,
    candidate: Container, k: nat)
    requires Fixed(existing, service, slot, world, candidate) && k < |existing|
    requires service in plan && slot < service.replicas && service.order.StopFirst? && !IsReady(service, candidate)
    requires Excludes(plan, service, slot, candidate, existing[k])
    ensures Allowed(plan, steady, StopCommand(existing[k].id, world))
  {
    var id := existing[k].id;
    assert Excludes(plan, service, slot, candidate, world[id]);
    assert AllowedFor(plan, steady, service, slot, StopCommand(id, world));
  }

  lemma StopKeepsFixed(existing: seq<Container>, service: ServicePlan, slot: nat, world: World, candidate: Container, id: Id, next: World)
    requires Fixed(existing, service, slot, world, candidate)
    requires WellKeyed(next) && OnlyStateOf(world, next, id) && id != candidate.id
    ensures Fixed(existing, service, slot, next, candidate)
  {}

  /** The first `n` listed containers that the candidate excludes are down. */
  ghost predicate DownUpTo(
    plan: seq<ServicePlan>, existing: seq<Container>, service: ServicePlan, slot: nat, candidate: Container, world: World, n: nat)
    requires n <= |existing|
  {
    forall j | 0 <= j < n && Excludes(plan, service, slot, candidate, existing[j]) ::
      existing[j].id in world && !IsUp(world[existing[j].id])
  }

  lemma OneMoreDown(
    plan: seq<ServicePlan>, existing: seq<Container>, service: ServicePlan, slot: nat, candidate: Container, w: World, next: World, n: nat)
    requires n < |existing| && DownUpTo(plan, existing, service, slot, candidate, w, n) && OnlyStateOf(w, next, existing[n].id)
    requires existing[n].id in next && !IsUp(next[existing[n].id])
    ensures DownUpTo(plan, existing, service, slot, candidate, next, n + 1)
  {}

  lemma ExcludedAreStopped(
    plan: seq<ServicePlan>, existing: seq<Container>, service: ServicePlan, slot: nat, world: World, candidate: Container)
    requires Fixed(existing, service, slot, world, candidate)
    requires DownUpTo(plan, existing, service, slot, candidate, world, |existing|)
    ensures Exclusive(plan, service, slot, world, candidate)
  {
    forall id | id in world && Excludes(plan, service, slot, candidate, world[id])
      ensures !IsUp(world[id])
    {
      var k :| 0 <= k < |existing| && existing[k].id == id;
      assert Excludes(plan, service, slot, candidate, existing[k]);
    }
  }

  /** Nothing has come up or gone, and containers of the other planned services are as they were. */
  ghost predicate Halts(plan: seq<ServicePlan>, service: ServicePlan, w: World, next: World) {
    && next.Keys == w.Keys && OthersKept(plan, service, w, next)
    && forall id | id in w :: SameContainer(w[id], next[id]) && next[id].lifecycle == w[id].lifecycle
  }

  ghost predicate OthersKept(plan: seq<ServicePlan>, service: ServicePlan, w: World, next: World) {
    forall id | id in w && !Removed(plan, w[id].service) && w[id].service != service.name :: id in next && next[id] == w[id]
  }

  lemma StopHalts(
    plan: seq<ServicePlan>, existing: seq<Container>, service: ServicePlan, slot: nat, candidate: Container, w: World, next: World, k: nat)
    requires Fixed(existing, service, slot, w, candidate) && k < |existing| && OnlyStateOf(w, next, existing[k].id)
    requires Excludes(plan, service, slot, candidate, existing[k]) && next[existing[k].id].lifecycle == w[existing[k].id].lifecycle
    ensures Halts(plan, service, w, next)
  {}

  lemma HaltsEvolves(plan: seq<ServicePlan>, service: ServicePlan, w: World, next: World)
    requires Halts(plan, service, w, next)
    ensures Evolves(w, next) && OthersKept(plan, service, w, next)
  {}

  lemma HaltsThen(plan: seq<ServicePlan>, service: ServicePlan, a: World, b: World, c: World)
    requires Halts(plan, service, a, b) && Halts(plan, service, b, c)
    ensures Halts(plan, service, a, c)
  {}

  /** Starting a generation of the service after that. */
  lemma StartKeepsOthers(plan: seq<ServicePlan>, service: ServicePlan, slot: nat, a: World, b: World, c: World)
    requires WellKeyed(b) && Halts(plan, service, a, b) && (c == b || Starts(b, c, GenerationOf(service, slot)))
    ensures Evolves(a, c) && c.Keys == a.Keys && OthersKept(plan, service, a, c)
  {}

  /** Stopped for the candidate, and up again only if it has the candidate's generation and was started with it. */
  predicate StoppedFor(service: ServicePlan, candidate: Container, was: Container, now: Container) {
    || !IsUp(now)
    || (NeedsStart(service, candidate) && was.generation == candidate.generation && now.lifecycle > was.lifecycle)
  }

  /** The fate of what a stop-first candidate excludes. */
  ghost predicate AllStoppedFor(plan: seq<ServicePlan>, service: ServicePlan, slot: nat, candidate: Container, w: World, next: World) {
    forall id | id in w && id in next && Excludes(plan, service, slot, candidate, w[id]) :: StoppedFor(service, candidate, w[id], next[id])
  }

  lemma StartedWithCandidate(
    plan: seq<ServicePlan>, service: ServicePlan, slot: nat, candidate: Container, a: World, b: World, c: World)
    requires Halts(plan, service, a, b) && Exclusive(plan, service, slot, b, candidate)
    requires c == b || (NeedsStart(service, candidate) && Starts(b, c, candidate.generation))
    ensures AllStoppedFor(plan, service, slot, candidate, a, c)
  {
    forall id | id in a && id in c && Excludes(plan, service, slot, candidate, a[id])
      ensures StoppedFor(service, candidate, a[id], c[id])
    {
      assert Excludes(plan, service, slot, candidate, b[id]);
    }
  }

  lemma OthersKeptThen(plan: seq<ServicePlan>, service: ServicePlan, a: World, b: World, c: World)
    requires OthersKept(plan, service, a, b) && OthersKept(plan, service, b, c)
    ensures OthersKept(plan, service, a, c)
  {}

  lemma NoDependencyOnItself(plan: seq<ServicePlan>, service: ServicePlan, d: Dependency)
    requires DependenciesFirst(plan) && service in plan && d in service.dependencies
    ensures d.service != service.name
  {
    var i :| 0 <= i < |plan| && plan[i] == service;
    assert Provided(plan, i);
  }

  /** Placing a slot does not touch the dependencies. */
  lemma PlacingKeepsReady(plan: seq<ServicePlan>, service: ServicePlan, w: World, next: World, seen: seq<Container>, steady: bool)
    requires WellKeyed(w) && service in plan && DependenciesReady(plan, service, w, seen, steady) && OthersKept(plan, service, w, next)
    ensures DependenciesReady(plan, service, next, seen, steady)
  {
    var deps := service.dependencies;
    if DependenciesFirst(plan) {
      forall i, q, slot: nat | 0 <= i < |deps| && q in plan && q.name == deps[i].service && SlotMet(w, q, slot, deps[i].condition)
        ensures SlotMet(next, q, slot, deps[i].condition)
      {
        NoDependencyOnItself(plan, service, deps[i]);
        var id :| Meets(w, id, deps[i].condition) && w[id].generation == GenerationOf(q, slot);
        assert next[id] == w[id] && Meets(next, id, deps[i].condition);
      }
      forall i | 0 <= i < |deps|
        ensures DependencyMet(plan, deps, i, next, steady)
      {
        assert DependencyMet(plan, deps, i, w, steady);
      }
    }
  }

  lemma EvolvesThen(a: World, b: World, c: World)
    requires Evolves(a, b) && Evolves(b, c)
    ensures Evolves(a, c)
  {}

  lemma TimeEvolves(a: World, b: World)
    requires TimePasses(a, b)
    ensures Evolves(a, b)
  {}

  /** Every wait on these containers is decided by its first observation. */
  ghost predicate Decided(world: World, selected: seq<Container>, dependencies: seq<Dependency>) {
    forall c, d | c in selected && d in dependencies && c.service == d.service ::
      c.id in world && world[c.id] == c && !Observe(c, Some(d.condition)).Again?
  }

  /** While the rollout waits: time has passed, and none if every wait is decided at once. */
  ghost predicate Awaiting(service: ServicePlan, selected: seq<Container>, w: World, world: World) {
    && WellKeyed(world) && Evolves(w, world) && world.Keys == w.Keys && Tracks(world, selected)
    && (Decided(w, selected, service.dependencies) ==> world == w)
  }

  lemma AwaitingThen(service: ServicePlan, selected: seq<Container>, w: World, world: World, next: World)
    requires Awaiting(service, selected, w, world) && WellKeyed(next) && TimePasses(world, next)
    requires Decided(w, selected, service.dependencies) ==> next == world
    ensures Awaiting(service, selected, w, next)
  {
    TimeEvolves(world, next);
    EvolvesThen(w, world, next);
    EvolvesTracks(world, next, selected);
  }

  // ----- The state of `apply` -----

  /** Equal fingerprint prefixes in one slot belong to equal fingerprints. */
  ghost predicate NoCollision(plan: seq<ServicePlan>, world: World) {
    forall p, slot: nat, id | p in plan && id in world && world[id].generation == GenerationOf(p, slot) ::
      world[id].fingerprint == p.fingerprint
  }

  ghost predicate AllMatch(slots: seq<Slot>, selected: seq<Container>) {
    && |selected| == |slots|
    && forall k | 0 <= k < |slots| :: Matches(slots[k].service, slots[k].index, selected[k])
  }

  ghost predicate AllDone(slots: seq<Slot>, world: World, selected: seq<Container>) {
    && |selected| == |slots|
    && forall k | 0 <= k < |slots| ::
         selected[k].id in world && world[selected[k].id] == selected[k] && IsDone(slots[k].service, selected[k])
  }

  /** Containers that `apply` created serve a slot of the plan. */
  ghost predicate NewMatch(plan: seq<ServicePlan>, before: World, after: World) {
    forall id | id in after && id !in before :: exists p, slot: nat :: p in plan && Matches(p, slot, after[id])
  }

  /** From the engine state `w0`, `l0`, containers for these slots have been selected. */
  ghost predicate Moving(
    plan: seq<ServicePlan>, steady: bool, w0: World, l0: seq<Command>, w: World, l: seq<Command>, slots: seq<Slot>,
    selected: seq<Container>)
  {
    && WellKeyed(w) && Evolves(w0, w) && NewMatch(plan, w0, w)
    && Lawful(plan, steady, l0, l)
    && (forall k | 0 <= k < |slots| :: slots[k].service in plan)
    && Fills(slots, selected) && Tracks(w, selected)
  }

  /** What `PlaceSlot` guarantees about its engine states and its result. */
  ghost predicate Placed(
    plan: seq<ServicePlan>, steady: bool, service: ServicePlan, slot: nat, w: World, l: seq<Command>, next: World,
    log: seq<Command>, r: Container)
  {
    && WellKeyed(next) && Evolves(w, next) && Lawful(plan, steady, l, log)
    && (forall id | id in next && id !in w :: Matches(service, slot, next[id]))
    && r.id in next && next[r.id] == r && r.generation == GenerationOf(service, slot)
    && (!Matches(service, slot, r) ==> r.id in w && !Matches(service, slot, w[r.id]))
    && OthersKept(plan, service, w, next)
    && (forall id | ServedBy(service, slot, w, id) :: next == w && log == l && r == w[id])
  }

  lemma NewMatchThen(plan: seq<ServicePlan>, w0: World, w: World, next: World, service: ServicePlan, slot: nat)
    requires NewMatch(plan, w0, w) && Evolves(w, next) && service in plan
    requires forall id | id in next && id !in w :: Matches(service, slot, next[id])
    ensures NewMatch(plan, w0, next)
  {
    forall id | id in next && id !in w0
      ensures exists p, k: nat :: p in plan && Matches(p, k, next[id])
    {
      if id in w {
        var p, k: nat :| p in plan && Matches(p, k, w[id]);
        assert Matches(p, k, next[id]);
      }
    }
  }

  lemma PlacedMatches(plan: seq<ServicePlan>, w0: World, w: World, service: ServicePlan, slot: nat, r: Container)
    requires DistinctNames(plan) && service in plan && WellKeyed(w) && Evolves(w0, w) && NewMatch(plan, w0, w) && NoCollision(plan, w0)
    requires r.id in w && SameContainer(w[r.id], r) && r.generation == GenerationOf(service, slot)
    ensures Matches(service, slot, r)
  {
    if r.id in w0 {
      assert w0[r.id].generation == GenerationOf(service, slot);
    } else {
      var p, k: nat :| p in plan && Matches(p, k, w[r.id]);
      SameName(plan, p, service);
    }
  }

  lemma FillsSnoc(slots: seq<Slot>, selected: seq<Container>, slot: Slot, c: Container)
    requires Fills(slots, selected) && c.service == slot.service.name && c.slot == slot.index
    requires c.generation == GenerationOf(slot.service, slot.index)
    ensures Fills(slots + [slot], selected + [c])
  {}

  /** The claims about a plan without collisions and about a settled world. */
  ghost predicate Faithful(
    plan: seq<ServicePlan>, w0: World, l0: seq<Command>, w: World, l: seq<Command>, slots: seq<Slot>, selected: seq<Container>)
  {
    && (NoCollision(plan, w0) ==> AllMatch(slots, selected))
    && (Settled(plan, w0) && JobsMarked(plan) ==> w == w0 && l == l0 && AllDone(slots, w0, selected))
  }

  lemma PlaceKeepsMoving(
    plan: seq<ServicePlan>, steady: bool, w0: World, l0: seq<Command>, w: World, l: seq<Command>, slots: seq<Slot>,
    selected: seq<Container>,
    service: ServicePlan, slot: nat, next: World, log: seq<Command>, r: Container)
    requires service in plan && Moving(plan, steady, w0, l0, w, l, slots, selected)
    requires Placed(plan, steady, service, slot, w, l, next, log, r)
    ensures Moving(plan, steady, w0, l0, next, log, slots + [Slot(service, slot)], selected + [r])
  {
    EvolvesThen(w0, w, next);
    NewMatchThen(plan, w0, w, next, service, slot);
    LawfulThen(plan, steady, l0, l, log);
    FillsSnoc(slots, selected, Slot(service, slot), r);
    EvolvesTracks(w, next, selected);
  }

  lemma PlaceKeepsFaithful(
    plan: seq<ServicePlan>, steady: bool, w0: World, l0: seq<Command>, w: World, l: seq<Command>, slots: seq<Slot>,
    selected: seq<Container>,
    service: ServicePlan, slot: nat, next: World, log: seq<Command>, r: Container)
    requires DistinctNames(plan) && service in plan && slot < service.replicas
    requires WellKeyed(w) && Evolves(w0, w) && NewMatch(plan, w0, w)
    requires Faithful(plan, w0, l0, w, l, slots, selected) && Placed(plan, steady, service, slot, w, l, next, log, r)
    ensures Faithful(plan, w0, l0, next, log, slots + [Slot(service, slot)], selected + [r])
  {
    if NoCollision(plan, w0) && !Matches(service, slot, r) {
      PlacedMatches(plan, w0, w, service, slot, r);
    }
    if Settled(plan, w0) && JobsMarked(plan) {
      assert Served(service, slot, w0);
      var id :| ServedBy(service, slot, w0, id);
    }
  }

  /** In a settled world every dependency wait is decided at once. */
  lemma SettledDecides(plan: seq<ServicePlan>, world: World, slots: seq<Slot>, selected: seq<Container>, service: ServicePlan)
    requires DistinctNames(plan) && JobsMarked(plan) && service in plan
    requires Fills(slots, selected) && AllDone(slots, world, selected) && forall k | 0 <= k < |slots| :: slots[k].service in plan
    ensures Decided(world, selected, service.dependencies)
  {
    forall c, d | c in selected && d in service.dependencies && c.service == d.service
      ensures c.id in world && world[c.id] == c && !Observe(c, Some(d.condition)).Again?
    {
      var k :| 0 <= k < |selected| && selected[k] == c;
      assert d.condition.Completed? ==> PlannedAsJob(plan, d.service);
      DoneDecidesWait(slots[k].service, c, d.condition);
    }
  }

  lemma WaitKeepsProgress(
    plan: seq<ServicePlan>, steady: bool, w0: World, l0: seq<Command>, w: World, l: seq<Command>, slots: seq<Slot>,
    selected: seq<Container>,
    service: ServicePlan, next: World)
    requires DistinctNames(plan) && service in plan
    requires Moving(plan, steady, w0, l0, w, l, slots, selected) && Faithful(plan, w0, l0, w, l, slots, selected)
    requires WellKeyed(next) && Evolves(w, next) && next.Keys == w.Keys
    requires Decided(w, selected, service.dependencies) ==> next == w
    ensures Moving(plan, steady, w0, l0, next, l, slots, selected) && Faithful(plan, w0, l0, next, l, slots, selected)
  {
    EvolvesThen(w0, w, next);
    EvolvesTracks(w, next, selected);
    NewMatchThen(plan, w0, w, next, service, 0);
    if Settled(plan, w0) && JobsMarked(plan) {
      SettledDecides(plan, w, slots, selected, service);
    }
  }

  // ----- After the last slot -----

  function ServiceNamed(plan: seq<ServicePlan>, name: string): (r: Option<ServicePlan>)
    ensures r.Some? ==> r.value in plan && r.value.name == name
    ensures r.None? ==> forall p | p in plan :: p.name != name
  {
    if plan == [] then None
    else if plan[0].name == name then Some(plan[0])
    else ServiceNamed(plan[1..], name)
  }

  function ReadyCondition(service: ServicePlan): Option<Condition> {
    if service.completed then Some(Completed) else None
  }

  lemma SelectedAreDistinct(slots: seq<Slot>, selected: seq<Container>, world: World, a: nat, b: nat)
    requires DistinctSlots(slots) && Fills(slots, selected) && Tracks(world, selected) && a < b < |selected|
    ensures selected[a].id != selected[b].id
  {}

  lemma AllSelectedAreDistinct(plan: seq<ServicePlan>, selected: seq<Container>, world: World)
    requires DistinctNames(plan) && Fills(Slots(plan), selected) && Tracks(world, selected)
    ensures DistinctIds(selected)
  {
    SlotsAreDistinct(plan);
  }

  /** The first `n` selected containers were seen done; in a steady engine they still are as they were seen. */
  ghost predicate DoneUpTo(slots: seq<Slot>, world: World, selected: seq<Container>, n: nat, steady: bool) {
    && n <= |slots| == |selected|
    && forall k | 0 <= k < n :: IsDone(slots[k].service, selected[k]) && (steady ==> StillAsSeen(world, selected[k]))
  }

  ghost predicate StillAsSeen(world: World, c: Container) { c.id in world && world[c.id] == c }

  lemma ReadyOneMore(
    slots: seq<Slot>, w: World, selected: seq<Container>, n: nat, next: World, c: Container, steady: bool)
    requires DistinctSlots(slots) && Fills(slots, selected) && Tracks(w, selected) && DoneUpTo(slots, w, selected, n, steady)
    requires n < |selected| && Evolves(w, next) && (steady ==> OnlyStateOf(w, next, selected[n].id))
    requires c.id == selected[n].id && StillAsSeen(next, c) && IsDone(slots[n].service, c)
    ensures DoneUpTo(slots, next, selected[n := c], n + 1, steady)
    ensures Fills(slots, selected[n := c]) && Tracks(next, selected[n := c])
  {
    assert SameContainer(w[c.id], c);
    if steady {
      forall k | 0 <= k < n
        ensures next[selected[k].id] == selected[k]
      {
        SelectedAreDistinct(slots, selected, w, k, n);
      }
    }
  }

  lemma DonePasses(service: ServicePlan, c: Container)
    ensures Observe(c, ReadyCondition(service)).Pass? <==> IsDone(service, c)
  {}

  lemma ReplaceKeepsMatch(slots: seq<Slot>, selected: seq<Container>, n: nat, w: World, c: Container)
    requires AllMatch(slots, selected) && Tracks(w, selected) && n < |selected| && c.id == selected[n].id && SameContainer(w[c.id], c)
    ensures AllMatch(slots, selected[n := c])
  {}

  /** Nothing but the selected containers, each done and still as it was seen, is a settled world. */
  lemma SelectedIsSettled(plan: seq<ServicePlan>, selected: seq<Container>, rest: World)
    requires DistinctNames(plan) && AllMatch(Slots(plan), selected) && AllDone(Slots(plan), rest, selected)
    requires forall id | id in rest :: exists k | 0 <= k < |selected| :: selected[k].id == id
    ensures Settled(plan, rest)
  {
    var slots := Slots(plan);
    SlotsAreDistinct(plan);
    SlotsFromPlan(plan);
    forall id | id in rest
      ensures exists p, slot: nat :: p in plan && slot < p.replicas && Matches(p, slot, rest[id])
    {
      var k :| 0 <= k < |selected| && selected[k].id == id;
      assert Matches(slots[k].service, slots[k].index, rest[id]);
    }
    forall p, slot: nat | p in plan && slot < p.replicas
      ensures Served(p, slot, rest)
    {
      var k := SlotIsListed(plan, p, slot);
      SlotIsServed(plan, selected, rest, k);
    }
  }

  lemma SlotIsServed(plan: seq<ServicePlan>, selected: seq<Container>, rest: World, k: nat)
    requires DistinctSlots(Slots(plan)) && AllMatch(Slots(plan), selected) && AllDone(Slots(plan), rest, selected) && k < |selected|
    requires forall id | id in rest :: exists k | 0 <= k < |selected| :: selected[k].id == id
    ensures Served(Slots(plan)[k].service, Slots(plan)[k].index, rest)
  {
    var slot := Slots(plan)[k];
    forall other | other in rest && Matches(slot.service, slot.index, rest[other])
      ensures other == selected[k].id
    {
      var j :| 0 <= j < |selected| && selected[j].id == other;
      assert Matches(Slots(plan)[j].service, Slots(plan)[j].index, selected[j]);
    }
    assert ServedBy(slot.service, slot.index, rest, selected[k].id);
  }

  // ----- A settled world decides everything -----

  /** Whatever serves a dependency of this service meets its condition. */
  ghost predicate WaitsPass(plan: seq<ServicePlan>, service: ServicePlan, world: World) {
    forall d, q, slot: nat, id |
      && d in service.dependencies && q in plan && q.name == d.service && slot < q.replicas
      && id in world && Matches(q, slot, world[id]) :: Observe(world[id], Some(d.condition)).Pass?
  }

  ghost predicate AllWaitsPass(plan: seq<ServicePlan>, world: World) { forall p | p in plan :: WaitsPass(plan, p, world) }

  ghost predicate HasSlots(plan: seq<ServicePlan>, name: string) { exists p | p in plan :: p.name == name && p.replicas > 0 }

  /** The first `n` selected containers of a dependency meet its condition. */
  ghost predicate PassUpTo(selected: seq<Container>, d: Dependency, n: nat)
    requires n <= |selected|
  {
    forall k | 0 <= k < n && selected[k].service == d.service :: Observe(selected[k], Some(d.condition)).Pass?
  }

  ghost predicate SelectedPass(selected: seq<Container>, deps: seq<Dependency>, n: nat)
    requires n <= |deps|
  {
    forall i | 0 <= i < n :: PassUpTo(selected, deps[i], |selected|)
  }

  /** In a settled world the container of a slot matches it. */
  lemma SettledMatch(plan: seq<ServicePlan>, world: World, q: ServicePlan, slot: nat, c: Container)
    requires DistinctNames(plan) && Settled(plan, world) && q in plan && slot < q.replicas
    requires StillAsSeen(world, c) && c.service == q.name && c.slot == slot
    ensures Matches(q, slot, c) && forall id | id in world && Matches(q, slot, world[id]) :: id == c.id
  {
    var p, k: nat :| p in plan && k < p.replicas && Matches(p, k, world[c.id]);
    SameName(plan, p, q);
    assert Served(q, slot, world);
  }

  /** The waits of `apply` for a service are the waits for whatever serves its dependencies. */
  lemma SelectedDecide(plan: seq<ServicePlan>, i: nat, world: World, selected: seq<Container>)
    requires DependenciesFirst(plan) && DistinctNames(plan) && Settled(plan, world) && i < |plan|
    requires Fills(Slots(plan[..i]), selected) && AllDone(Slots(plan[..i]), world, selected)
    ensures SelectedPass(selected, plan[i].dependencies, |plan[i].dependencies|) <==> WaitsPass(plan, plan[i], world)
  {
    SlotsFromPlan(plan[..i]);
    if WaitsPass(plan, plan[i], world) {
      var deps := plan[i].dependencies;
      forall e, k | 0 <= e < |deps| && 0 <= k < |selected| && selected[k].service == deps[e].service
        ensures Observe(selected[k], Some(deps[e].condition)).Pass?
      {
        assert deps[e] in deps;
        SettledMatch(plan, world, Slots(plan[..i])[k].service, Slots(plan[..i])[k].index, selected[k]);
      }
    }
    if SelectedPass(selected, plan[i].dependencies, |plan[i].dependencies|) {
      forall d, q, slot: nat, id |
        && d in plan[i].dependencies && q in plan && q.name == d.service && slot < q.replicas
        && id in world && Matches(q, slot, world[id])
        ensures Observe(world[id], Some(d.condition)).Pass?
      {
        EarlierService(plan, i, d, q);
        var k := SlotIsListed(plan[..i], q, slot);
        SettledMatch(plan, world, q, slot, selected[k]);
        var e :| 0 <= e < |plan[i].dependencies| && plan[i].dependencies[e] == d;
        assert PassUpTo(selected, plan[i].dependencies[e], |selected|);
      }
    }
  }

  lemma IngressSelected(plan: seq<ServicePlan>, selected: seq<Container>, ingress: string)
    requires Fills(Slots(plan), selected)
    ensures (exists c | c in selected :: c.service == ingress) <==> HasSlots(plan, ingress)
  {
    SlotsFromPlan(plan);
    if p :| p in plan && p.name == ingress && p.replicas > 0 {
      var k := SlotIsListed(plan, p, 0);
      assert selected[k] in selected;
    }
  }

  /**
  A job that one service awaits as started and a later one as completed. A first update passes,
  since the job runs when the worker is placed. In the settled world after it everything is as
  planned, and yet the wait for the finished job fails.
  */
  function JobPlan(): seq<ServicePlan> {
    [ServicePlan("job", "f", 1, StopFirst, [], true),
     ServicePlan("worker", "f", 1, StartFirst, [Dependency("job", Condition.Started)], false),
     ServicePlan("web", "f", 1, StartFirst, [Dependency("job", Completed)], false)]
  }

  function JobContainer(p: ServicePlan, state: State): Container {
    Container(p.name, p.name, Generation(p.name, 0, "f"), 0, "f", state, NoCheck, 0, 0, {}, p.dependencies)
  }

  function JobWorld(): World {
    var plan := JobPlan();
    map["job" := JobContainer(plan[0], Exited), "worker" := JobContainer(plan[1], Running), "web" := JobContainer(plan[2], Running)]
  }

  lemma JobPlanIsOrdered()
    ensures DependenciesFirst(JobPlan()) && DistinctNames(JobPlan()) && JobsMarked(JobPlan()) && HasSlots(JobPlan(), "web")
  {
    var plan := JobPlan();
    assert Provided(plan, 0) && Provided(plan, 1) && Provided(plan, 2);
    assert plan[2] in plan;
  }

  lemma JobWorldIsSettled()
    ensures WellKeyed(JobWorld()) && Settled(JobPlan(), JobWorld())
  {
    var plan, world := JobPlan(), JobWorld();
    assert ServedBy(plan[0], 0, world, "job") && ServedBy(plan[1], 0, world, "worker") && ServedBy(plan[2], 0, world, "web");
    forall p, slot: nat | p in plan && slot < p.replicas
      ensures Served(p, slot, world)
    {
      assert slot == 0;
    }
    assert plan[0] in plan && plan[1] in plan && plan[2] in plan;
    assert Matches(plan[0], 0, world["job"]) && Matches(plan[1], 0, world["worker"]) && Matches(plan[2], 0, world["web"]);
  }

  lemma JobWaitFails()
    ensures !AllWaitsPass(JobPlan(), JobWorld())
  {
    var plan, world := JobPlan(), JobWorld();
    assert plan[1] in plan && plan[0] in plan && plan[1].dependencies[0] == Dependency("job", Condition.Started);
    assert Matches(plan[0], 0, world["job"]) && !Observe(world["job"], Some(Condition.Started)).Pass?;
    assert !WaitsPass(plan, plan[1], world);
  }
}
