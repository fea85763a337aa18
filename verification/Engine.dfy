/**
The container engine as the rollout sees it (tako-compose/src/engine.rs): a set of
containers, commands that may fail, and a record of the commands given.

While the rollout waits, every container that is up may change its state, and one that is
down stays down. Commands and observations take no time. A steady engine is one in which
only the container waited for changes during a wait, and a reliable engine is one in which
stopping and removing do not fail. Every method below stands for all engines with its contract.
*/
module Engine {
  import opened Results
  import opened Planner

  type Id = string

  datatype State = Created | Running | Restarting | Paused | Exited | Dead
  datatype Health = NoCheck | Starting | Good | Bad

  /** `service-slot-` and the first characters of the fingerprint. */
  datatype Generation = Generation(service: string, slot: nat, prefix: string)

  datatype Container = Container(
    id: Id,
    service: string,
    generation: Generation,
    slot: nat,
    fingerprint: string,
    state: State,
    health: Health,
    exitCode: int,
    lifecycle: nat,
    writableVolumes: set<string>,
    dependencies: seq<Dependency>)

  const PREFIX := 24

  function PrefixOf(fingerprint: string): string {
    if |fingerprint| <= PREFIX then fingerprint else fingerprint[..PREFIX]
  }

  function GenerationOf(service: ServicePlan, slot: nat): Generation {
    Generation(service.name, slot, PrefixOf(service.fingerprint))
  }

  predicate IsRunning(c: Container) { c.state.Running? }

  predicate IsUp(c: Container) { c.state.Running? || c.state.Restarting? || c.state.Paused? }

  predicate IsHealthy(c: Container) { c.state.Running? && (c.health.NoCheck? || c.health.Good?) }

  predicate IsCompleted(c: Container) { c.state.Exited? && c.exitCode == 0 }

  /** Same container: only its state, health, exit code and lifecycle may differ. */
  predicate SameContainer(c: Container, d: Container) {
    c.(state := d.state, health := d.health, exitCode := d.exitCode, lifecycle := d.lifecycle) == d
    && (c.health.NoCheck? <==> d.health.NoCheck?)
  }

  // ----- Readiness -----

  datatype Poll = Pass | Fail | Again

  /** One observation of `wait_ready`. */
  function Observe(c: Container, condition: Option<Condition>): Poll {
    match condition
    case Some(Completed) => if IsCompleted(c) then Pass else if c.state.Exited? then Fail else Again
    case _ =>
      if IsRunning(c) && condition == Some(Condition.Started) then Pass
      else if condition == Some(Healthy) && IsRunning(c) && c.health.NoCheck? then Fail
      else if IsRunning(c) && (c.health.Good? || (condition.None? && c.health.NoCheck?)) then Pass
      else if c.state.Exited? || c.state.Dead? then Fail
      else Again
  }

  lemma PassMeansReady(c: Container, condition: Option<Condition>)
    requires Observe(c, condition).Pass?
    ensures condition == Some(Completed) ==> IsCompleted(c)
    ensures condition != Some(Completed) ==> IsRunning(c)
    ensures condition.None? || condition == Some(Healthy) ==> IsHealthy(c)
  {}

  // ----- Commands -----

  datatype Command =
    | CreateCommand(id: Id, world: map<Id, Container>)
    | StartCommand(id: Id, world: map<Id, Container>, seen: seq<Container>)
    | StopCommand(id: Id, world: map<Id, Container>)
    | RemoveCommand(id: Id, world: map<Id, Container>)

  /** Containers under their own IDs, with labels that agree with their generation. */
  ghost predicate WellKeyed(world: map<Id, Container>) {
    forall id | id in world ::
      && world[id].id == id
      && world[id].generation == Generation(world[id].service, world[id].slot, PrefixOf(world[id].fingerprint))
  }

  /** The same containers, except for the state of `id`. */
  ghost predicate OnlyStateOf(before: map<Id, Container>, after: map<Id, Container>, id: Id) {
    && after.Keys == before.Keys
    && (forall other | other in before && other != id :: after[other] == before[other])
    && (id in before ==> SameContainer(before[id], after[id]))
  }

  /** Containers that are up may change by themselves, the others do not. */
  predicate TimePasses(before: map<Id, Container>, after: map<Id, Container>) {
    && after.Keys == before.Keys
    && forall id | id in before :: SameContainer(before[id], after[id]) && (!IsUp(before[id]) ==> after[id] == before[id])
  }

  /**
  Containers of a generation may have been started. One that runs stays as it is, and one that
  comes up begins a new lifecycle.
  */
  predicate Starts(before: map<Id, Container>, after: map<Id, Container>, generation: Generation) {
    && after.Keys == before.Keys
    && forall id | id in before && after[id] != before[id] ::
         && before[id].generation == generation && !IsRunning(before[id]) && SameContainer(before[id], after[id])
         && (IsUp(after[id]) ==> after[id].lifecycle > before[id].lifecycle)
  }

  ghost predicate DistinctIds(cs: seq<Container>) {
    forall i, j | 0 <= i < j < |cs| :: cs[i].id != cs[j].id
  }

  ghost predicate ListsAll(world: map<Id, Container>, listed: seq<Container>) {
    && (forall c | c in listed :: c.id in world && world[c.id] == c)
    && (forall id | id in world :: world[id] in listed)
    && DistinctIds(listed)
  }

  /** A container just created for a slot carries the plan's labels and does not run. */
  predicate IsNew(service: ServicePlan, slot: nat, c: Container) {
    && c.service == service.name && c.slot == slot && c.fingerprint == service.fingerprint
    && c.generation == GenerationOf(service, slot) && c.dependencies == service.dependencies
    && c.state == State.Created
  }

  class Docker {
    var world: map<Id, Container>
    /** Only the container waited for changes during a wait. */
    const steady: bool
    /** Stopping and removing do not fail. */
    const reliable: bool
    /** Every command so far, with the containers it found. */
    ghost var log: seq<Command>
    /** The containers that passed a wait in the current attempt, as they were then. */
    ghost var seen: seq<Container>

    constructor (world: map<Id, Container>, steady: bool, reliable: bool)
      ensures this.world == world && this.steady == steady && this.reliable == reliable && log == [] && seen == []
    {
      this.world, this.steady, this.reliable := world, steady, reliable;
      log, seen := [], [];
    }

    /** All containers of the project, in some fixed order. */
    method List() returns (listed: seq<Container>)
      requires WellKeyed(world)
      ensures ListsAll(world, listed)
    {
      listed := [];
      var left := world.Keys;
      while left != {}
        invariant left <= world.Keys
        invariant forall c | c in listed :: c.id in world && c.id !in left && world[c.id] == c
        invariant forall id | id in world && id !in left :: world[id] in listed
        invariant DistinctIds(listed)
        decreases |left|
      {
        var id :| id in left;
        left := left - {id};
        listed := listed + [world[id]];
      }
    }

    method Inspect(id: Id) returns (found: Option<Container>)
      ensures found == if id in world then Some(world[id]) else None
    {
      found := if id in world then Some(world[id]) else None;
    }

    /** Stops a container that is up. A failure may still have stopped it. */
    method Stop(id: Id) returns (ok: bool)
      requires WellKeyed(world)
      modifies this`world, this`log
      ensures WellKeyed(world) && OnlyStateOf(old(world), world, id)
      ensures id in world ==> world[id].lifecycle == old(world)[id].lifecycle
      ensures reliable ==> ok
      ensures log == old(log) + if id in old(world) && IsUp(old(world)[id]) then [StopCommand(id, old(world))] else []
      ensures ok && id in world ==> !IsUp(world[id])
      ensures id !in old(world) || !IsUp(old(world)[id]) ==> world == old(world) && log == old(log) && ok
    {
      if id !in world {
        return true;
      }
      var c := world[id];
      if IsUp(c) {
        log := log + [StopCommand(id, world)];
        var fails: bool := *;
        ok := reliable || !fails;
        var stopped: bool := *;
        if ok || stopped {
          var code: int := *;
          world := world[id := c.(state := Exited, exitCode := code)];
        }
        return;
      }
      ok := true;
    }

    /** Creates the container of one slot, unless one of its generation exists. */
    method Create(service: ServicePlan, slot: nat) returns (r: Option<Container>)
      requires WellKeyed(world)
      modifies this`world, this`log
      ensures WellKeyed(world) && old(world).Keys <= world.Keys
      ensures forall id | id in old(world) :: world[id] == old(world)[id]
      ensures forall id | id in world && id !in old(world) :: IsNew(service, slot, world[id])
      ensures r.Some? ==> r.value.id in world && world[r.value.id] == r.value && r.value.generation == GenerationOf(service, slot)
      ensures r.Some? ==> forall id | id in world && id !in old(world) :: id == r.value.id
      ensures world == old(world) ==> log == old(log)
      ensures log == old(log) || exists id | id in world && id !in old(world) :: log == old(log) + [CreateCommand(id, old(world))]
    {
      var generation := GenerationOf(service, slot);
      if id :| id in world && world[id].generation == generation {
        var fails: bool := *;
        return if fails then None else Some(world[id]);
      }
      var id: Id := *;
      var fails: bool := *;
      if fails || id in world {
        return None;
      }
      var volumes: set<string> := *;
      var health: Health := *;
      var c := Container(id, service.name, generation, slot, service.fingerprint, State.Created, health, 0, 0, volumes,
                         service.dependencies);
      world := world[id := c];
      log := log + [CreateCommand(id, old(world))];
      var late: bool := *;
      r := if late then None else Some(c);
    }

    /** Starts one container (`container start`). Whatever the exit status, only its own state may change. */
    method Start(id: Id) returns (ok: bool)
      requires WellKeyed(world)
      modifies this`world, this`log
      ensures WellKeyed(world) && OnlyStateOf(old(world), world, id)
      ensures log == old(log) + [StartCommand(id, old(world), seen)]
      ensures ok ==> id in world
    {
      log := log + [StartCommand(id, world, seen)];
      if id !in world {
        return false;
      }
      var state, health, code, lifecycle := world[id].state, world[id].health, world[id].exitCode, world[id].lifecycle;
      state, code, lifecycle := *, *, *;
      if !health.NoCheck? {
        health :| !health.NoCheck?;
      }
      world := world[id := world[id].(state := state, health := health, exitCode := code, lifecycle := lifecycle)];
      ok := *;
    }

    /** Starts the generation of a container (`compose start`), with every container of that generation. */
    method StartGeneration(id: Id) returns (ok: bool)
      requires WellKeyed(world) && id in world
      modifies this`world, this`log
      ensures WellKeyed(world) && Starts(old(world), world, old(world)[id].generation)
      ensures log == old(log) + [StartCommand(id, old(world), seen)]
    {
      log := log + [StartCommand(id, world, seen)];
      var next: map<Id, Container> := *;
      if Starts(world, next, world[id].generation) {
        world := next;
      }
      ok := *;
    }

    /** Stops and removes. A failure may have done any part of it. */
    method Remove(id: Id) returns (ok: bool)
      requires WellKeyed(world)
      modifies this`world, this`log
      ensures WellKeyed(world)
      ensures forall other | other != id :: (other in world <==> other in old(world)) && (other in world ==> world[other] == old(world)[other])
      ensures ok ==> id !in world
      ensures reliable ==> ok
      ensures id in world ==> id in old(world)
      ensures exists commands :: log == old(log) + commands && forall cmd | cmd in commands :: (cmd.StopCommand? || cmd.RemoveCommand?) && cmd.id == id
    {
      ok := Stop(id);
      assert log == old(log) + [] || log == old(log) + [StopCommand(id, old(world))];
      if ok && id in world {
        ghost var stopped := log[|old(log)|..];
        log := log + [RemoveCommand(id, world)];
        assert log == old(log) + (stopped + [RemoveCommand(id, world)]);
        var fails: bool := *;
        ok := reliable || !fails;
        var removed: bool := *;
        if ok || removed {
          world := world - {id};
        }
      }
    }

    /** Time passes while `id` is waited for. */
    method Elapse(id: Id)
      requires WellKeyed(world)
      modifies this`world
      ensures WellKeyed(world) && TimePasses(old(world), world)
      ensures steady ==> OnlyStateOf(old(world), world, id)
    {
      var next: map<Id, Container> := *;
      if TimePasses(world, next) && (steady ==> forall other | other in world && other != id :: next[other] == world[other]) {
        world := next;
      }
    }

    /** Waits until `c` passes or fails the condition. One observation that decides takes no time. */
    method WaitReady(c: Container, condition: Option<Condition>) returns (r: Option<Container>)
      requires WellKeyed(world)
      modifies this`world, this`seen
      ensures WellKeyed(world) && TimePasses(old(world), world)
      ensures steady ==> OnlyStateOf(old(world), world, c.id)
      ensures r.Some? ==> c.id in world && r.value == world[c.id] && Observe(r.value, condition).Pass?
                          && r.value.lifecycle == c.lifecycle
      ensures seen == old(seen) + if r.Some? then [r.value] else []
      ensures c.id in old(world) && old(world)[c.id].lifecycle == c.lifecycle && !Observe(old(world)[c.id], condition).Again?
              ==> world == old(world) && (r.Some? <==> Observe(old(world)[c.id], condition).Pass?)
    {
      var polls: nat := *;
      ghost var first := true;
      while true
        invariant WellKeyed(world) && TimePasses(old(world), world) && seen == old(seen)
        invariant steady ==> OnlyStateOf(old(world), world, c.id)
        invariant !first ==> c.id in old(world) && old(world)[c.id].lifecycle == c.lifecycle
                             && Observe(old(world)[c.id], condition).Again?
        invariant first ==> world == old(world)
        decreases polls
      {
        if c.id !in world || world[c.id].lifecycle != c.lifecycle {
          return None;
        }
        var poll := Observe(world[c.id], condition);
        if poll.Pass? {
          seen := seen + [world[c.id]];
          return Some(world[c.id]);
        }
        if poll.Fail? || polls == 0 {
          return None;
        }
        polls, first := polls - 1, false;
        Elapse(c.id);
      }
    }
  }
}
