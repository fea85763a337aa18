/**
A pending production update (tako-compose/src/rollout.rs): `apply`, `finish` and
`changes` against the engine.
*/
module Rollout {
  import opened Results
  import opened Planner
  import opened Engine
  import opened RolloutPlan
  import opened DependencyWaits
  import opened RolloutState

  /** `existing[k]` is the first container to be stopped for the candidate. */
  ghost predicate FirstToStop(
    plan: seq<ServicePlan>, existing: seq<Container>, service: ServicePlan, slot: nat, candidate: Container, world: World, k: int)
  {
    && 0 <= k < |existing| && existing[k].id in world
    && Excludes(plan, service, slot, candidate, existing[k]) && IsUp(world[existing[k].id])
    && forall j | 0 <= j < k && existing[j].id in world && Excludes(plan, service, slot, candidate, existing[j]) ::
         !IsUp(world[existing[j].id])
  }

  /** The fate of the other matches of a stop-first slot. */
  lemma OtherMatches(plan: seq<ServicePlan>, existing: seq<Container>, service: ServicePlan, slot: nat, w: World, next: World)
    requires WellKeyed(w) && ListsAll(w, existing) && Evolves(w, next)
    requires var first := FirstMatch(service, slot, existing);
             && (first.Some? && IsReady(service, first.value) ==> next == w)
             && (first.Some? && !IsReady(service, first.value) ==> AllStoppedFor(plan, service, slot, first.value, w, next))
    ensures forall c | c in existing && Matches(service, slot, c) && IsHealthy(c) ::
              StillAsSeen(next, c) <==> IsReady(service, FirstMatch(service, slot, existing).value)
  {
    forall c | c in existing && Matches(service, slot, c) && IsHealthy(c)
      ensures StillAsSeen(next, c) <==> IsReady(service, FirstMatch(service, slot, existing).value)
    {
      assert w[c.id] == c && SameContainer(w[c.id], next[c.id]);
    }
  }

  ghost predicate FirstNew(before: seq<Command>, after: seq<Command>, cmd: Command) {
    before < after && after[|before|] == cmd
  }

  lemma FirstNewThen(a: seq<Command>, b: seq<Command>, c: seq<Command>)
    requires b <= c
    ensures forall cmd | FirstNew(a, b, cmd) :: FirstNew(a, c, cmd)
  {}

  class Pending {
    const docker: Docker
    const plan: seq<ServicePlan>
    const ingress: string
    var selected: seq<Container>

    constructor (docker: Docker, plan: seq<ServicePlan>, ingress: string)
      ensures this.docker == docker && this.plan == plan && this.ingress == ingress && selected == []
    {
      this.docker, this.plan, this.ingress, selected := docker, plan, ingress, [];
    }

    // ----- One slot -----

    /** Stops one container that the candidate excludes. */
    method StopOne(existing: seq<Container>, service: ServicePlan, slot: nat, candidate: Container, k: nat) returns (ok: bool)
      requires Fixed(existing, service, slot, docker.world, candidate) && k < |existing|
      requires service in plan && slot < service.replicas && service.order.StopFirst? && !IsReady(service, candidate)
      requires Excludes(plan, service, slot, candidate, existing[k])
      modifies docker`world, docker`log
      ensures Fixed(existing, service, slot, docker.world, candidate)
      ensures OnlyStateOf(old(docker.world), docker.world, existing[k].id) && Halts(plan, service, old(docker.world), docker.world)
      ensures Lawful(plan, docker.steady, old(docker.log), docker.log)
      ensures ok ==> !IsUp(docker.world[existing[k].id])
      ensures !ok ==> IsUp(old(docker.world)[existing[k].id])
      ensures if IsUp(old(docker.world)[existing[k].id])
              then docker.log == old(docker.log) + [StopCommand(existing[k].id, old(docker.world))]
              else docker.world == old(docker.world) && docker.log == old(docker.log)
    {
      StopIsAllowed(plan, docker.steady, existing, service, slot, docker.world, candidate, k);
      ghost var world, log := docker.world, docker.log;
      ok := docker.Stop(existing[k].id);
      StopKeepsFixed(existing, service, slot, world, candidate, existing[k].id, docker.world);
      StopHalts(plan, existing, service, slot, candidate, world, docker.world, k);
      LawfulOne(plan, docker.steady, log, StopCommand(existing[k].id, world));
    }

    /** While predecessors are stopped: the first `k` excluded containers are down. */
    ghost predicate Stopping(
      existing: seq<Container>, service: ServicePlan, slot: nat, candidate: Container, w0: World, l0: seq<Command>, k: nat)
      reads docker
      requires k <= |existing|
    {
      && Fixed(existing, service, slot, docker.world, candidate)
      && Halts(plan, service, w0, docker.world)
      && Lawful(plan, docker.steady, l0, docker.log)
      && DownUpTo(plan, existing, service, slot, candidate, docker.world, k)
    }

    method StopIfExcluded(existing: seq<Container>, service: ServicePlan, slot: nat, candidate: Container, k: nat,
                          ghost w0: World, ghost l0: seq<Command>) returns (ok: bool)
      requires k < |existing| && Stopping(existing, service, slot, candidate, w0, l0, k)
      requires service in plan && slot < service.replicas && service.order.StopFirst? && !IsReady(service, candidate)
      modifies docker`world, docker`log
      ensures Stopping(existing, service, slot, candidate, w0, l0, if ok then k + 1 else 0)
      ensures old(docker.log) <= docker.log
      ensures !ok ==> Excludes(plan, service, slot, candidate, existing[k]) && IsUp(old(docker.world)[existing[k].id])
      ensures if Excludes(plan, service, slot, candidate, existing[k]) && IsUp(old(docker.world)[existing[k].id])
              then docker.log == old(docker.log) + [StopCommand(existing[k].id, old(docker.world))]
              else docker.world == old(docker.world) && docker.log == old(docker.log)
    {
      ok := true;
      if Excludes(plan, service, slot, candidate, existing[k]) {
        ghost var world, log := docker.world, docker.log;
        ok := StopOne(existing, service, slot, candidate, k);
        HaltsThen(plan, service, w0, world, docker.world);
        LawfulThen(plan, docker.steady, l0, log, docker.log);
        if ok {
          OneMoreDown(plan, existing, service, slot, candidate, world, docker.world, k);
        }
      }
    }

    /** Nothing had to be stopped so far and nothing has happened, or the first container to be stopped was commanded first. */
    ghost predicate CommandsFirst(
      existing: seq<Container>, service: ServicePlan, slot: nat, candidate: Container, w0: World, l0: seq<Command>, k: int)
      reads docker
    {
      || (&& docker.world == w0 && docker.log == l0
          && forall j | 0 <= j < k <= |existing| && existing[j].id in w0 && Excludes(plan, service, slot, candidate, existing[j]) ::
               !IsUp(w0[existing[j].id]))
      || exists m :: FirstToStop(plan, existing, service, slot, candidate, w0, m) && FirstNew(l0, docker.log,
      StopCommand(existing[m].id, w0))
    }

    /** Before a stop-first start: stops whatever the candidate excludes. */
    method StopPredecessors(existing: seq<Container>, service: ServicePlan, slot: nat, candidate: Container) returns (ok: bool)
      requires Fixed(existing, service, slot, docker.world, candidate)
      requires service in plan && slot < service.replicas && service.order.StopFirst? && !IsReady(service, candidate)
      modifies docker`world, docker`log
      ensures Fixed(existing, service, slot, docker.world, candidate) && Halts(plan, service, old(docker.world), docker.world)
      ensures Lawful(plan, docker.steady, old(docker.log), docker.log)
      ensures ok ==> Exclusive(plan, service, slot, docker.world, candidate)
      ensures CommandsFirst(existing, service, slot, candidate, old(docker.world), old(docker.log), |existing|)
    {
      for k := 0 to |existing|
        invariant Stopping(existing, service, slot, candidate, old(docker.world), old(docker.log), k)
        invariant CommandsFirst(existing, service, slot, candidate, old(docker.world), old(docker.log), k)
      {
        ghost var world, log := docker.world, docker.log;
        ok := StopIfExcluded(existing, service, slot, candidate, k, old(docker.world), old(docker.log));
        if world == old(docker.world) && log == old(docker.log) && docker.log != log {
          assert FirstToStop(plan, existing, service, slot, candidate, world, k);
        }
        if !ok {
          return;
        }
      }
      ExcludedAreStopped(plan, existing, service, slot, docker.world, candidate);
      ok := true;
    }

    /** The matching container of a slot, or a new one. */
    method FindOrCreate(existing: seq<Container>, service: ServicePlan, slot: nat) returns (r: Option<Container>)
      requires WellKeyed(docker.world) && ListsAll(docker.world, existing)
      requires service in plan && slot < service.replicas
      modifies docker`world, docker`log
      ensures WellKeyed(docker.world) && Evolves(old(docker.world), docker.world)
      ensures OthersKept(plan, service, old(docker.world), docker.world)
      ensures Lawful(plan, docker.steady, old(docker.log), docker.log)
      ensures r.Some? ==> Fixed(existing, service, slot, docker.world, r.value)
      ensures FirstMatch(service, slot, existing).Some? ==>
                docker.world == old(docker.world) && docker.log == old(docker.log) && r == FirstMatch(service, slot, existing)
      ensures r.Some? && !Matches(service, slot, r.value) ==> r.value.id in old(docker.world)
      ensures forall id | id in docker.world && id !in old(docker.world) :: Matches(service, slot, docker.world[id])
    {
      r := FirstMatch(service, slot, existing);
      assert Lawful(plan, docker.steady, docker.log, docker.log);
      if r.Some? {
        assert IsCandidate(service, slot, docker.world, r.value);
        return;
      }
      ghost var world, log := docker.world, docker.log;
      r := docker.Create(service, slot);
      forall id: Id
        ensures Lawful(plan, docker.steady, log, log + [CreateCommand(id, world)])
      {
        assert AllowedFor(plan, docker.steady, service, slot, CreateCommand(id, world));
        LawfulOne(plan, docker.steady, log, CreateCommand(id, world));
      }
    }

    /** Starts the generation of the candidate, if that is needed. */
    method StartCandidate(ghost existing: seq<Container>, service: ServicePlan, slot: nat, candidate: Container) returns (ok: bool)
      requires Fixed(existing, service, slot, docker.world, candidate) && service in plan && slot < service.replicas
      requires DependenciesReady(plan, service, docker.world, docker.seen, docker.steady)
      requires service.order.StopFirst? && !IsReady(service, candidate) ==> Exclusive(plan, service, slot, docker.world, candidate)
      modifies docker`world, docker`log
      ensures WellKeyed(docker.world) && Lawful(plan, docker.steady, old(docker.log), docker.log)
      ensures if NeedsStart(service, candidate) then Starts(old(docker.world), docker.world, candidate.generation)
              else ok && docker.world == old(docker.world) && docker.log == old(docker.log)
    {
      ok := true;
      assert Lawful(plan, docker.steady, docker.log, docker.log);
      if NeedsStart(service, candidate) {
        ghost var start := StartCommand(candidate.id, docker.world, docker.seen);
        assert AllowedFor(plan, docker.steady, service, slot, start);
        LawfulOne(plan, docker.steady, docker.log, start);
        ok := docker.StartGeneration(candidate.id);
      }
    }

    /** For a stop-first candidate that is not ready, stops what must not overlap with it. */
    method MakeRoom(existing: seq<Container>, service: ServicePlan, slot: nat, candidate: Container) returns (ok: bool)
      requires Fixed(existing, service, slot, docker.world, candidate) && service in plan && slot < service.replicas
      modifies docker`world, docker`log
      ensures Fixed(existing, service, slot, docker.world, candidate) && Halts(plan, service, old(docker.world), docker.world)
      ensures Lawful(plan, docker.steady, old(docker.log), docker.log)
      ensures IsReady(service, candidate) ==> ok && docker.world == old(docker.world) && docker.log == old(docker.log)
      ensures ok && service.order.StopFirst? && !IsReady(service, candidate) ==> Exclusive(plan, service, slot, docker.world, candidate)
      ensures service.order.StopFirst? && !IsReady(service, candidate) ==>
                forall m | FirstToStop(plan, existing, service, slot, candidate, old(docker.world), m) ::
                  FirstNew(old(docker.log), docker.log, StopCommand(existing[m].id, old(docker.world)))
    {
      ok := true;
      assert Lawful(plan, docker.steady, docker.log, docker.log);
      if service.order.StopFirst? && !IsReady(service, candidate) {
        ok := StopPredecessors(existing, service, slot, candidate);
      }
    }

    /**
    Stops what must not overlap with the candidate, then starts its generation. A ready candidate
    needs neither. For any other stop-first candidate the first container it excludes is stopped
    first, and whatever it excludes stays down, unless it has the same generation.
    */
    method BringUp(existing: seq<Container>, service: ServicePlan, slot: nat, candidate: Container) returns (ok: bool)
      requires Fixed(existing, service, slot, docker.world, candidate)
      requires service in plan && slot < service.replicas
      requires DependenciesReady(plan, service, docker.world, docker.seen, docker.steady)
      modifies docker`world, docker`log
      ensures WellKeyed(docker.world) && Evolves(old(docker.world), docker.world) && docker.world.Keys == old(docker.world).Keys
      ensures OthersKept(plan, service, old(docker.world), docker.world)
      ensures Lawful(plan, docker.steady, old(docker.log), docker.log)
      ensures IsReady(service, candidate) ==> ok && docker.world == old(docker.world) && docker.log == old(docker.log)
      ensures service.order.StopFirst? && !IsReady(service, candidate) && ok ==>
                AllStoppedFor(plan, service, slot, candidate, old(docker.world), docker.world)
      ensures service.order.StopFirst? && !IsReady(service, candidate) ==>
                forall m | FirstToStop(plan, existing, service, slot, candidate, old(docker.world), m) ::
                  FirstNew(old(docker.log), docker.log, StopCommand(existing[m].id, old(docker.world)))
    {
      ok := MakeRoom(existing, service, slot, candidate);
      ghost var w, world, log := old(docker.world), docker.world, docker.log;
      HaltsEvolves(plan, service, w, world);
      if !ok {
        return;
      }
      PlacingKeepsReady(plan, service, w, world, docker.seen, docker.steady);
      ok := StartCandidate(existing, service, slot, candidate);
      StartKeepsOthers(plan, service, slot, w, world, docker.world);
      LawfulThen(plan, docker.steady, old(docker.log), log, docker.log);
      FirstNewThen(old(docker.log), log, docker.log);
      if service.order.StopFirst? && !IsReady(service, candidate) {
        StartedWithCandidate(plan, service, slot, candidate, w, world, docker.world);
      }
    }

    /**
    Brings up one slot from a listing: find or create, stop what must not overlap, start,
    inspect. A stop-first slot leaves a healthy match as it is if and only if the match that is
    listed first is ready.
    */
    method PlaceListed(existing: seq<Container>, service: ServicePlan, slot: nat) returns (r: Option<Container>)
      requires WellKeyed(docker.world) && ListsAll(docker.world, existing) && service in plan && slot < service.replicas
      requires DependenciesReady(plan, service, docker.world, docker.seen, docker.steady)
      modifies docker`world, docker`log
      ensures WellKeyed(docker.world) && Evolves(old(docker.world), docker.world)
      ensures OthersKept(plan, service, old(docker.world), docker.world)
      ensures Lawful(plan, docker.steady, old(docker.log), docker.log)
      ensures r.Some? ==> StillAsSeen(docker.world, r.value) && r.value.generation == GenerationOf(service, slot)
      ensures r.Some? && !Matches(service, slot, r.value) ==>
                r.value.id in old(docker.world) && !Matches(service, slot, old(docker.world)[r.value.id])
      ensures forall id | id in docker.world && id !in old(docker.world) :: Matches(service, slot, docker.world[id])
      ensures forall id | ServedBy(service, slot, old(docker.world), id) ::
                docker.world == old(docker.world) && docker.log == old(docker.log) && r == Some(docker.world[id])
      ensures service.order.StopFirst? && r.Some? ==>
                forall c | c in existing && Matches(service, slot, c) && IsHealthy(c) ::
                  StillAsSeen(docker.world, c) <==> IsReady(service, FirstMatch(service, slot, existing).value)
    {
      var found := FindOrCreate(existing, service, slot);
      if found.None? {
        return None;
      }
      var candidate := found.value;
      ghost var world, log := docker.world, docker.log;
      PlacingKeepsReady(plan, service, old(docker.world), world, docker.seen, docker.steady);
      var ok := BringUp(existing, service, slot, candidate);
      EvolvesThen(old(docker.world), world, docker.world);
      OthersKeptThen(plan, service, old(docker.world), world, docker.world);
      LawfulThen(plan, docker.steady, old(docker.log), log, docker.log);
      if !ok {
        return None;
      }
      r := docker.Inspect(candidate.id);
      if service.order.StopFirst? {
        OtherMatches(plan, existing, service, slot, old(docker.world), docker.world);
      }
    }

    method PlaceSlot(service: ServicePlan, slot: nat) returns (r: Option<Container>)
      requires WellKeyed(docker.world) && service in plan && slot < service.replicas
      requires DependenciesReady(plan, service, docker.world, docker.seen, docker.steady)
      modifies docker`world, docker`log
      ensures WellKeyed(docker.world) && Evolves(old(docker.world), docker.world)
      ensures Lawful(plan, docker.steady, old(docker.log), docker.log)
      ensures r.Some? ==> Placed(plan, docker.steady, service, slot, old(docker.world), old(docker.log), docker.world, docker.log, r.value)
      ensures forall id | ServedBy(service, slot, old(docker.world), id) ::
                docker.world == old(docker.world) && docker.log == old(docker.log) && r == Some(docker.world[id])
    {
      var existing := docker.List();
      r := PlaceListed(existing, service, slot);
    }

    // ----- Waiting for dependencies -----

    /** Waits for one selected container, if it belongs to the dependency. */
    method WaitForOne(service: ServicePlan, i: nat, k: nat, ghost w: World) returns (ok: bool)
      requires i < |service.dependencies| && k < |selected| && DistinctIds(selected)
      requires Awaiting(service, selected, w, docker.world)
      requires Passed(docker.world, docker.seen, selected, service.dependencies[i], k, docker.steady)
      modifies docker`world, docker`seen
      ensures Awaiting(service, selected, w, docker.world) && old(docker.seen) <= docker.seen
      ensures Waited(old(docker.world), docker.world, service.dependencies[i].service, docker.steady)
      ensures ok ==> Passed(docker.world, docker.seen, selected, service.dependencies[i], k + 1, docker.steady)
      ensures Decided(w, selected, service.dependencies) ==>
                (ok <==> selected[k].service == service.dependencies[i].service ==>
                   Observe(selected[k], Some(service.dependencies[i].condition)).Pass?)
    {
      var d := service.dependencies[i];
      ok := true;
      if selected[k].service == d.service {
        ghost var world, seen := docker.world, docker.seen;
        var r := docker.WaitReady(selected[k], Some(d.condition));
        AwaitingThen(service, selected, w, world, docker.world);
        ok := r.Some?;
        if ok {
          PassedOneMore(world, docker.world, seen, selected, d, k, r.value, docker.steady);
        }
      } else {
        PassedOther(docker.world, docker.seen, selected, d, k, docker.steady);
      }
    }

    /** Waits for every selected container of one dependency. */
    method WaitForDependency(service: ServicePlan, i: nat, ghost w: World) returns (ok: bool)
      requires i < |service.dependencies| && DistinctIds(selected) && Awaiting(service, selected, w, docker.world)
      modifies docker`world, docker`seen
      ensures Awaiting(service, selected, w, docker.world) && old(docker.seen) <= docker.seen
      ensures Waited(old(docker.world), docker.world, service.dependencies[i].service, docker.steady)
      ensures ok ==> Passed(docker.world, docker.seen, selected, service.dependencies[i], |selected|, docker.steady)
      ensures Decided(w, selected, service.dependencies) ==> (ok <==> PassUpTo(selected, service.dependencies[i], |selected|))
    {
      for k := 0 to |selected|
        invariant Awaiting(service, selected, w, docker.world) && old(docker.seen) <= docker.seen
        invariant Waited(old(docker.world), docker.world, service.dependencies[i].service, docker.steady)
        invariant Passed(docker.world, docker.seen, selected, service.dependencies[i], k, docker.steady)
        invariant Decided(w, selected, service.dependencies) ==> PassUpTo(selected, service.dependencies[i], k)
      {
        ghost var world := docker.world;
        ok := WaitForOne(service, i, k, w);
        WaitedThen(old(docker.world), world, docker.world, service.dependencies[i].service, docker.steady);
        if !ok {
          return;
        }
      }
      ok := true;
    }

    /** Waits for the dependencies of a service. */
    method WaitForDependencies(service: ServicePlan) returns (ok: bool)
      requires WellKeyed(docker.world) && Tracks(docker.world, selected) && DistinctIds(selected)
      modifies docker`world, docker`seen
      ensures Awaiting(service, selected, old(docker.world), docker.world)
      ensures ok ==> AllPassed(docker.world, docker.seen, selected, service.dependencies, |service.dependencies|, docker.steady)
      ensures Decided(old(docker.world), selected, service.dependencies) ==>
                (ok <==> SelectedPass(selected, service.dependencies, |service.dependencies|))
    {
      var deps := service.dependencies;
      for i := 0 to |deps|
        invariant Awaiting(service, selected, old(docker.world), docker.world)
        invariant AllPassed(docker.world, docker.seen, selected, deps, i, docker.steady)
        invariant Decided(old(docker.world), selected, deps) ==> SelectedPass(selected, deps, i)
      {
        ghost var world, seen := docker.world, docker.seen;
        ok := WaitForDependency(service, i, old(docker.world));
        if !ok {
          return;
        }
        AllPassedOneMore(world, docker.world, seen, docker.seen, selected, deps, i, docker.steady);
      }
      ok := true;
    }

    // ----- `apply` -----

    ghost predicate Progressing(w0: World, l0: seq<Command>, slots: seq<Slot>)
      reads this, docker
    {
      && Moving(plan, docker.steady, w0, l0, docker.world, docker.log, slots, selected)
      && Faithful(plan, w0, l0, docker.world, docker.log, slots, selected)
    }

    /** What holds even when `apply` stops half-way. */
    ghost predicate Safe(w0: World, l0: seq<Command>)
      reads this, docker
    {
      && WellKeyed(docker.world) && Evolves(w0, docker.world) && Lawful(plan, docker.steady, l0, docker.log)
      && (Settled(plan, w0) && JobsMarked(plan) ==> docker.world == w0 && docker.log == l0)
    }

    /** Adds the container of one slot to the selection. In a settled world that cannot fail. */
    method SelectSlot(service: ServicePlan, slot: nat, ghost w0: World, ghost l0: seq<Command>, ghost slots: seq<Slot>) returns (ok: bool)
      requires DistinctNames(plan) && service in plan && slot < service.replicas && Progressing(w0, l0, slots)
      requires DependenciesReady(plan, service, docker.world, docker.seen, docker.steady)
      modifies this, docker`world, docker`log
      ensures Safe(w0, l0)
      ensures ok ==> Progressing(w0, l0, slots + [Slot(service, slot)])
      ensures ok ==> DependenciesReady(plan, service, docker.world, docker.seen, docker.steady)
      ensures Settled(plan, w0) && JobsMarked(plan) ==> ok
    {
      ghost var w, l := docker.world, docker.log;
      assert Settled(plan, w0) ==> Served(service, slot, w0);
      var r := PlaceSlot(service, slot);
      if r.None? {
        EvolvesThen(w0, w, docker.world);
        LawfulThen(plan, docker.steady, l0, l, docker.log);
        return false;
      }
      PlaceKeepsMoving(plan, docker.steady, w0, l0, w, l, slots, selected, service, slot, docker.world, docker.log, r.value);
      PlaceKeepsFaithful(plan, docker.steady, w0, l0, w, l, slots, selected, service, slot, docker.world, docker.log, r.value);
      PlacingKeepsReady(plan, service, w, docker.world, docker.seen, docker.steady);
      selected := selected + [r.value];
      ok := true;
    }

    /**
    Waits for the dependencies of a service before its first slot. Once that passes, every
    planned replica was seen in its condition and, in a steady engine, still is in it. In a
    settled world it passes if and only if whatever serves the dependencies meets them.
    */
    method AwaitDependencies(i: nat, ghost w0: World, ghost l0: seq<Command>) returns (ok: bool)
      requires DistinctNames(plan) && i < |plan| && Progressing(w0, l0, Slots(plan[..i]))
      modifies docker`world, docker`seen
      ensures Progressing(w0, l0, Slots(plan[..i])) && Safe(w0, l0)
      ensures ok ==> DependenciesReady(plan, plan[i], docker.world, docker.seen, docker.steady)
      ensures Settled(plan, w0) && JobsMarked(plan) && DependenciesFirst(plan) ==> (ok <==> WaitsPass(plan, plan[i], w0))
    {
      ghost var world := docker.world;
      AllSelectedAreDistinct(plan[..i], selected, world);
      ok := WaitForDependencies(plan[i]);
      WaitKeepsProgress(plan, docker.steady, w0, l0, world, docker.log, Slots(plan[..i]), selected, plan[i], docker.world);
      if ok {
        WaitsReadyPlan(plan, i, docker.world, docker.seen, selected, docker.steady);
      }
      if Settled(plan, w0) && JobsMarked(plan) && DependenciesFirst(plan) {
        SettledDecides(plan, w0, Slots(plan[..i]), selected, plan[i]);
        SelectedDecide(plan, i, w0, selected);
      }
    }

    /** All slots of one service, after waiting for its dependencies. */
    method PlaceService(i: nat, ghost w0: World, ghost l0: seq<Command>) returns (ok: bool)
      requires DistinctNames(plan) && i < |plan| && Progressing(w0, l0, Slots(plan[..i]))
      modifies this, docker
      ensures Safe(w0, l0)
      ensures ok ==> Progressing(w0, l0, Slots(plan[..i]) + SlotsOf(plan[i], plan[i].replicas))
      ensures Settled(plan, w0) && JobsMarked(plan) && DependenciesFirst(plan) ==> (ok <==> WaitsPass(plan, plan[i], w0))
    {
      ok := AwaitDependencies(i, w0, l0);
      if !ok {
        return;
      }
      ghost var done := Slots(plan[..i]);
      for slot := 0 to plan[i].replicas
        invariant Progressing(w0, l0, done) && Safe(w0, l0)
        invariant DependenciesReady(plan, plan[i], docker.world, docker.seen, docker.steady)
        invariant done == Slots(plan[..i]) + SlotsOf(plan[i], slot)
      {
        ok := SelectSlot(plan[i], slot, w0, l0, done);
        if !ok {
          return;
        }
        done := done + [Slot(plan[i], slot)];
      }
      ok := true;
    }

    /** Places every service of the plan in order. */
    method PlaceAll(ghost w0: World, ghost l0: seq<Command>) returns (ok: bool)
      requires DistinctNames(plan) && Progressing(w0, l0, []) && Safe(w0, l0)
      modifies this, docker
      ensures Safe(w0, l0)
      ensures ok ==> Progressing(w0, l0, Slots(plan))
      ensures Settled(plan, w0) && JobsMarked(plan) && DependenciesFirst(plan) ==> (ok <==> AllWaitsPass(plan, w0))
    {
      ghost var done: seq<Slot> := [];
      for i := 0 to |plan|
        invariant done == Slots(plan[..i])
        invariant Progressing(w0, l0, done) && Safe(w0, l0)
        invariant Settled(plan, w0) && JobsMarked(plan) && DependenciesFirst(plan) ==> forall k | 0 <= k < i :: WaitsPass(plan, plan[k], w0)
      {
        ok := PlaceService(i, w0, l0);
        if !ok {
          assert plan[i] in plan;
          return;
        }
        done := done + SlotsOf(plan[i], plan[i].replicas);
        assert plan[..i + 1][..i] == plan[..i];
      }
      assert plan[..|plan|] == plan;
      ok := true;
    }

    /** The first `k` selected containers have been seen ready. */
    ghost predicate Readying(w0: World, l0: seq<Command>, k: nat)
      reads this, docker
    {
      && Safe(w0, l0)
      && Fills(Slots(plan), selected) && Tracks(docker.world, selected)
      && DoneUpTo(Slots(plan), docker.world, selected, k, docker.steady)
      && (NoCollision(plan, w0) ==> AllMatch(Slots(plan), selected))
      && (Settled(plan, w0) && JobsMarked(plan) ==> AllDone(Slots(plan), w0, selected))
    }

    lemma SlotService(k: nat)
      requires DistinctNames(plan) && Fills(Slots(plan), selected) && k < |selected|
      ensures ServiceNamed(plan, selected[k].service) == Some(Slots(plan)[k].service)
    {
      SlotsFromPlan(plan);
      SameName(plan, ServiceNamed(plan, selected[k].service).value, Slots(plan)[k].service);
    }

    /** Waits for one selected container and records what was seen. In a settled world it passes. */
    method AwaitOne(k: nat, ghost w0: World, ghost l0: seq<Command>) returns (ok: bool)
      requires DistinctNames(plan) && DistinctSlots(Slots(plan)) && k < |selected| && Readying(w0, l0, k)
      modifies this`selected, docker`world, docker`seen
      ensures Safe(w0, l0) && |selected| == |old(selected)|
      ensures ok ==> Readying(w0, l0, k + 1)
      ensures Settled(plan, w0) && JobsMarked(plan) ==> ok
    {
      SlotService(k);
      var service := ServiceNamed(plan, selected[k].service).value;
      DonePasses(service, selected[k]);
      ghost var world := docker.world;
      var r := docker.WaitReady(selected[k], ReadyCondition(service));
      TimeEvolves(world, docker.world);
      EvolvesThen(w0, world, docker.world);
      if r.None? {
        return false;
      }
      DonePasses(service, r.value);
      ReadyOneMore(Slots(plan), world, selected, k, docker.world, r.value, docker.steady);
      if NoCollision(plan, w0) {
        ReplaceKeepsMatch(Slots(plan), selected, k, world, r.value);
      }
      selected := selected[k := r.value];
      ok := true;
    }

    /** Requires every selected container to be ready, jobs by completion. */
    method AwaitReadiness(ghost w0: World, ghost l0: seq<Command>) returns (ok: bool)
      requires DistinctNames(plan) && Readying(w0, l0, 0)
      modifies this`selected, docker`world, docker`seen
      ensures Safe(w0, l0)
      ensures ok ==> Readying(w0, l0, |selected|)
      ensures Settled(plan, w0) && JobsMarked(plan) ==> ok
    {
      SlotsAreDistinct(plan);
      for k := 0 to |selected|
        invariant Readying(w0, l0, k) && |selected| == |old(selected)|
      {
        ok := AwaitOne(k, w0, l0);
        if !ok {
          return;
        }
      }
      ok := true;
    }

    /**
    `apply`. Every command is one that the plan allows, so every start finds its dependencies in
    their conditions as far as these last. Nothing is ever removed, and a settled world is left
    alone. On success each planned slot has one container that was seen done, and
    in a steady engine still is. In a settled world it succeeds if and only if every dependency
    wait passes and the ingress has a slot.
    */
    method Apply() returns (ok: bool)
      requires DistinctNames(plan) && WellKeyed(docker.world)
      modifies this, docker
      ensures Safe(old(docker.world), old(docker.log))
      ensures ok ==> Fills(Slots(plan), selected) && DoneUpTo(Slots(plan), docker.world, selected, |selected|, docker.steady)
      ensures ok && NoCollision(plan, old(docker.world)) ==> AllMatch(Slots(plan), selected)
      ensures ok ==> exists c | c in selected :: c.service == ingress
      ensures old(selected) == [] && Settled(plan, old(docker.world)) && JobsMarked(plan) && DependenciesFirst(plan) ==>
                (ok <==> AllWaitsPass(plan, old(docker.world)) && HasSlots(plan, ingress))
    {
      ghost var w0, l0 := docker.world, docker.log;
      if selected != [] {
        return false;
      }
      docker.seen := [];
      ok := PlaceAll(w0, l0);
      if !ok {
        return;
      }
      ok := AwaitReadiness(w0, l0);
      if !ok {
        return;
      }
      IngressSelected(plan, selected, ingress);
      ok := exists c | c in selected :: c.service == ingress;
    }

    /** `finish`: on success exactly the selected containers are left, and they are untouched. */
    method Finish() returns (ok: bool)
      requires WellKeyed(docker.world)
      modifies docker`world, docker`log
      ensures WellKeyed(docker.world) && docker.world.Keys <= old(docker.world).Keys
      ensures forall c | c in selected && c.id in old(docker.world) ::
                c.id in docker.world && docker.world[c.id] == old(docker.world)[c.id]
      ensures ok ==> forall id | id in docker.world :: exists c | c in selected :: c.id == id
      ensures docker.reliable ==> ok
    {
      var listed := docker.List();
      ok := true;
      for i := 0 to |listed|
        invariant WellKeyed(docker.world) && docker.world.Keys <= old(docker.world).Keys
        invariant forall c | c in selected && c.id in old(docker.world) ::
                    c.id in docker.world && docker.world[c.id] == old(docker.world)[c.id]
        invariant docker.reliable ==> ok
        invariant ok ==> forall k | 0 <= k < i && listed[k].id in docker.world :: exists c | c in selected :: c.id == listed[k].id
      {
        if !exists c | c in selected :: c.id == listed[i].id {
          var removed := docker.Remove(listed[i].id);
          ok := ok && removed;
        }
      }
    }
  }

  // ----- Whole updates -----

  ghost predicate AllStillAsSeen(world: World, selected: seq<Container>) {
    forall k | 0 <= k < |selected| :: StillAsSeen(world, selected[k])
  }

  /**
  A successful `apply` and `finish` leave exactly one container for each planned slot, seen
  done. The world is settled as long as they still are as they were seen, which a steady
  engine guarantees.
  */
  method ApplyAndFinish(docker: Docker, plan: seq<ServicePlan>, ingress: string) returns (ok: bool, selected: seq<Container>)
    requires DistinctNames(plan) && WellKeyed(docker.world) && NoCollision(plan, docker.world)
    modifies docker
    ensures WellKeyed(docker.world)
    ensures ok ==> AllMatch(Slots(plan), selected) && DoneUpTo(Slots(plan), docker.world, selected, |selected|, docker.steady)
    ensures ok ==> forall id | id in docker.world :: exists c | c in selected :: c.id == id
    ensures ok && (docker.steady || AllStillAsSeen(docker.world, selected)) ==> Settled(plan, docker.world)
  {
    var rollout := new Pending(docker, plan, ingress);
    ok := rollout.Apply();
    selected := rollout.selected;
    if ok {
      ok := rollout.Finish();
      if ok && (docker.steady || AllStillAsSeen(docker.world, selected)) {
        assert AllDone(Slots(plan), docker.world, selected);
        SelectedIsSettled(plan, selected, docker.world);
      }
    }
  }

  /**
  A second rollout of a plan whose world is settled, as it is after the first one in a steady
  engine, reports no change and gives no command. It succeeds if and only if every dependency
  wait passes and the ingress has a slot. `finished` is the log before it.
  */
  method RolloutTwice(docker: Docker, plan: seq<ServicePlan>, ingress: string)
    returns (first: bool, second: bool, changes: seq<(string, UpdateOrder)>, ghost settled: bool, ghost finished: seq<Command>)
    requires DependenciesFirst(plan) && DistinctNames(plan) && JobsMarked(plan)
    requires WellKeyed(docker.world) && NoCollision(plan, docker.world)
    modifies docker
    ensures first && docker.steady ==> settled
    ensures first && settled ==> changes == [] && docker.log == finished && Settled(plan, docker.world)
    ensures first && settled ==> (second <==> AllWaitsPass(plan, docker.world) && HasSlots(plan, ingress))
  {
    var selected;
    second, changes := false, [];
    first, selected := ApplyAndFinish(docker, plan, ingress);
    finished, settled := docker.log, Settled(plan, docker.world);
    if first {
      var before := docker.List();
      changes := Changes(plan, before);
      if settled {
        SettledHasNoChanges(plan, docker.world, before);
      }
      var again := new Pending(docker, plan, ingress);
      second := again.Apply();
    }
  }

  /** The update of a settled world that fails without doing anything. */
  method SettledUpdateMayFail() returns (ok: bool, docker: Docker)
    ensures !ok && docker.world == JobWorld() && docker.log == [] && Settled(JobPlan(), docker.world)
  {
    JobPlanIsOrdered();
    JobWorldIsSettled();
    JobWaitFails();
    docker := new Docker(JobWorld(), true, true);
    var rollout := new Pending(docker, JobPlan(), "web");
    ok := rollout.Apply();
  }

  // ----- Two matches of one slot -----

  function TwinService(): ServicePlan { ServicePlan("db", "f", 1, StopFirst, [], false) }

  function Twin(id: Id, state: State, code: int): Container {
    Container(id, "db", Generation("db", 0, "f"), 0, "f", state, NoCheck, code, 0, {}, [])
  }

  function Twins(): seq<Container> { [Twin("a", Exited, 1), Twin("b", Running, 0)] }

  /** Of two matches the first one is down and the second one is ready: the first command stops the ready one. */
  method ReadyTwinIsStopped() returns (docker: Docker, ok: bool)
    ensures FirstMatch(TwinService(), 0, Twins()) == Some(Twins()[0]) && IsReady(TwinService(), Twins()[1])
    ensures docker.log != [] && docker.log[0].StopCommand? && docker.log[0].id == "b"
  {
    var a, b := Twins()[0], Twins()[1];
    docker := new Docker(map["a" := a, "b" := b], true, true);
    var plan := [TwinService()];
    var rollout := new Pending(docker, plan, "db");
    assert IsCandidate(TwinService(), 0, docker.world, a);
    assert FirstToStop(plan, Twins(), TwinService(), 0, a, docker.world, 1);
    ok := rollout.BringUp(Twins(), TwinService(), 0, a);
  }
}
