/**
What one rollout decides (tako-compose/src/rollout.rs): which container serves a slot,
what has to stop before it starts, and which commands that allows.
*/
module RolloutPlan {
  import opened Results
  import opened Planner
  import opened Engine

  type World = map<Id, Container>

  // ----- Decisions for one slot -----

  predicate Matches(service: ServicePlan, slot: nat, c: Container) {
    c.service == service.name && c.slot == slot && c.fingerprint == service.fingerprint
  }

  /** Nothing needs to be done about this container. */
  predicate IsReady(service: ServicePlan, c: Container) {
    IsHealthy(c) || (service.completed && IsCompleted(c))
  }

  predicate NeedsStart(service: ServicePlan, c: Container) {
    !(IsRunning(c) || (service.completed && IsCompleted(c)))
  }

  predicate Removed(plan: seq<ServicePlan>, name: string) {
    forall p | p in plan :: p.name != name
  }

  /** A container that must not run beside a stop-first candidate. */
  predicate Excludes(plan: seq<ServicePlan>, service: ServicePlan, slot: nat, candidate: Container, other: Container) {
    && other.id != candidate.id
    && (|| (other.service == service.name && other.slot == slot)
        || (Removed(plan, other.service) && candidate.writableVolumes * other.writableVolumes != {}))
  }

  function FirstMatch(service: ServicePlan, slot: nat, existing: seq<Container>): (found: Option<Container>)
    ensures found.Some? ==> found.value in existing && Matches(service, slot, found.value)
    ensures found.None? ==> forall c | c in existing :: !Matches(service, slot, c)
  {
    if existing == [] then None
    else if Matches(service, slot, existing[0]) then Some(existing[0])
    else FirstMatch(service, slot, existing[1..])
  }

  // ----- Commands that a rollout may give -----

  /** `candidate` is the matching container of the slot, or there is none. */
  ghost predicate IsCandidate(service: ServicePlan, slot: nat, world: World, candidate: Container) {
    && candidate.id in world && world[candidate.id] == candidate
    && candidate.generation == GenerationOf(service, slot)
    && (Matches(service, slot, candidate) || forall id | id in world :: !Matches(service, slot, world[id]))
  }

  /** No other container that the candidate excludes is up. */
  ghost predicate Exclusive(plan: seq<ServicePlan>, service: ServicePlan, slot: nat, world: World, candidate: Container) {
    forall id | id in world && Excludes(plan, service, slot, candidate, world[id]) :: !IsUp(world[id])
  }

  /** A container of this slot was seen meeting the condition. */
  ghost predicate SlotSeen(seen: seq<Container>, service: ServicePlan, slot: nat, condition: Condition) {
    exists c | c in seen :: c.generation == GenerationOf(service, slot) && Observe(c, Some(condition)).Pass?
  }

  /** Every planned replica of a dependency was seen meeting its condition. */
  ghost predicate DependencySeen(plan: seq<ServicePlan>, seen: seq<Container>, d: Dependency) {
    forall q, slot: nat | q in plan && q.name == d.service && slot < q.replicas :: SlotSeen(seen, q, slot, d.condition)
  }

  /** In a planner's plan, so was every replica of every dependency of this service. */
  ghost predicate DependenciesSeen(plan: seq<ServicePlan>, service: ServicePlan, seen: seq<Container>) {
    DependenciesFirst(plan) ==> forall d | d in service.dependencies :: DependencySeen(plan, seen, d)
  }

  predicate Meets(world: World, id: Id, condition: Condition) {
    id in world && Observe(world[id], Some(condition)).Pass?
  }

  predicate DistinctServices(deps: seq<Dependency>) {
    forall i, j | 0 <= i < j < |deps| :: deps[i].service != deps[j].service
  }

  /** Later waits do not end this condition: nothing else changes meanwhile, or it is one that stays. */
  predicate Lasts(deps: seq<Dependency>, i: nat, steady: bool)
    requires i < |deps|
  {
    (steady && DistinctServices(deps)) || deps[i].condition.Completed?
  }

  /** A container of this slot meets the condition now. */
  ghost predicate SlotMet(world: World, service: ServicePlan, slot: nat, condition: Condition) {
    exists id :: Meets(world, id, condition) && world[id].generation == GenerationOf(service, slot)
  }

  /** So do the planned replicas of a dependency, those whose condition lasts and the one awaited last of all. */
  ghost predicate DependencyMet(plan: seq<ServicePlan>, deps: seq<Dependency>, i: nat, world: World, steady: bool)
    requires i < |deps|
  {
    forall q, slot: nat |
      && q in plan && q.name == deps[i].service && slot < q.replicas
      && (Lasts(deps, i, steady) || (i == |deps| - 1 && slot == q.replicas - 1)) :: SlotMet(world, q, slot, deps[i].condition)
  }

  ghost predicate DependenciesMet(plan: seq<ServicePlan>, service: ServicePlan, world: World, steady: bool) {
    DependenciesFirst(plan) ==>
      forall i | 0 <= i < |service.dependencies| :: DependencyMet(plan, service.dependencies, i, world, steady)
  }

  /** The dependencies were all seen in their conditions, and are in them now as far as the conditions last. */
  ghost predicate DependenciesReady(plan: seq<ServicePlan>, service: ServicePlan, world: World, seen: seq<Container>, steady: bool) {
    DependenciesSeen(plan, service, seen) && DependenciesMet(plan, service, world, steady)
  }

  /**
  What `apply` may do for one slot: create when nothing matches, stop what the candidate
  excludes, and start it alone, once its dependencies are ready.
  */
  ghost predicate AllowedFor(plan: seq<ServicePlan>, steady: bool, service: ServicePlan, slot: nat, cmd: Command) {
    match cmd
    case CreateCommand(_, world) => forall id | id in world :: !Matches(service, slot, world[id])
    case StopCommand(id, world) =>
      && id in world && service.order.StopFirst?
      && exists candidate :: IsCandidate(service, slot, world, candidate) && !IsReady(service, candidate)
                             && Excludes(plan, service, slot, candidate, world[id])
    case StartCommand(id, world, seen) =>
      && id in world && IsCandidate(service, slot, world, world[id]) && NeedsStart(service, world[id])
      && (service.order.StopFirst? ==> Exclusive(plan, service, slot, world, world[id]))
      && DependenciesReady(plan, service, world, seen, steady)
    case RemoveCommand(_, _) => false
  }

  ghost predicate Allowed(plan: seq<ServicePlan>, steady: bool, cmd: Command) {
    exists service, slot :: service in plan && 0 <= slot < service.replicas && AllowedFor(plan, steady, service, slot, cmd)
  }

  ghost predicate AllAllowed(plan: seq<ServicePlan>, steady: bool, cmds: seq<Command>) {
    forall cmd | cmd in cmds :: Allowed(plan, steady, cmd)
  }

  ghost predicate DistinctNames(plan: seq<ServicePlan>) {
    forall i, j | 0 <= i < j < |plan| :: plan[i].name != plan[j].name
  }

  /** The containers that a command is for. A start is for a whole generation. */
  ghost predicate Hits(cmd: Command, id: Id) {
    && id in cmd.world && cmd.id in cmd.world
    && (id == cmd.id || (cmd.StartCommand? && cmd.world[id].generation == cmd.world[cmd.id].generation))
  }

  /** A matching container that is ready is stopped or started only for the sake of a second match that is not ready. */
  lemma ReadyMatchIsLeftAlone(plan: seq<ServicePlan>, steady: bool, service: ServicePlan, slot: nat, cmd: Command, id: Id)
    requires DistinctNames(plan) && service in plan && WellKeyed(cmd.world) && Allowed(plan, steady, cmd) && !cmd.CreateCommand?
    requires Hits(cmd, id) && Matches(service, slot, cmd.world[id])
    ensures !IsReady(service, cmd.world[id])
            || exists other | other in cmd.world && other != id ::
                 Matches(service, slot, cmd.world[other]) && !IsReady(service, cmd.world[other])
  {
    var s, k :| s in plan && 0 <= k < s.replicas && AllowedFor(plan, steady, s, k, cmd);
    if s.name == service.name {
      SameName(plan, s, service);
    }
  }

  lemma SameName(plan: seq<ServicePlan>, s: ServicePlan, t: ServicePlan)
    requires DistinctNames(plan) && s in plan && t in plan && s.name == t.name
    ensures s == t
  {}

  // ----- The slots of a plan -----

  datatype Slot = Slot(service: ServicePlan, index: nat)

  function SlotsOf(service: ServicePlan, n: nat): seq<Slot> {
    if n == 0 then [] else SlotsOf(service, n - 1) + [Slot(service, n - 1)]
  }

  function Slots(plan: seq<ServicePlan>): seq<Slot> {
    if plan == [] then []
    else Slots(plan[..|plan| - 1]) + SlotsOf(plan[|plan| - 1], plan[|plan| - 1].replicas)
  }

  /** `selected` has one container for each of these slots, in order. */
  ghost predicate Fills(slots: seq<Slot>, selected: seq<Container>) {
    && |selected| == |slots|
    && forall k | 0 <= k < |slots| :: selected[k].service == slots[k].service.name && selected[k].slot == slots[k].index
                                      && selected[k].generation == GenerationOf(slots[k].service, slots[k].index)
  }

  function OfService(selected: seq<Container>, name: string): seq<Container> {
    if selected == [] then []
    else OfService(selected[..|selected| - 1], name)
         + (if selected[|selected| - 1].service == name then [selected[|selected| - 1]] else [])
  }

  lemma {:induction false} OfServiceAppend(a: seq<Container>, b: seq<Container>, name: string)
    ensures OfService(a + b, name) == OfService(a, name) + OfService(b, name)
    decreases |b|
  {
    if b == [] {
      assert a + b == a;
    } else {
      assert (a + b)[..|a + b| - 1] == a + b[..|b| - 1];
      OfServiceAppend(a, b[..|b| - 1], name);
    }
  }

  lemma FillsSplit(a: seq<Slot>, b: seq<Slot>, selected: seq<Container>)
    requires Fills(a + b, selected)
    ensures Fills(a, selected[..|a|]) && Fills(b, selected[|a|..])
    ensures selected == selected[..|a|] + selected[|a|..]
  {
    assert forall k | 0 <= k < |a| :: (a + b)[k] == a[k];
    assert forall k | 0 <= k < |b| :: (a + b)[|a| + k] == b[k];
  }

  lemma OneFilled(slot: Slot, selected: seq<Container>, name: string)
    requires Fills([slot], selected)
    ensures |OfService(selected, name)| == if slot.service.name == name then 1 else 0
  {
    assert selected == [selected[0]] && [slot][0] == slot;
    assert selected[..0] == [] && OfService([], name) == [];
  }

  lemma {:induction false} OneServiceFilled(service: ServicePlan, n: nat, selected: seq<Container>, name: string)
    requires Fills(SlotsOf(service, n), selected)
    ensures |OfService(selected, name)| == if service.name == name then n else 0
  {
    if n > 0 {
      var a, b := SlotsOf(service, n - 1), [Slot(service, n - 1)];
      FillsSplit(a, b, selected);
      OneServiceFilled(service, n - 1, selected[..|a|], name);
      OneFilled(b[0], selected[|a|..], name);
      OfServiceAppend(selected[..|a|], selected[|a|..], name);
    }
  }

  function Planned(plan: seq<ServicePlan>, name: string): nat {
    if plan == [] then 0
    else Planned(plan[..|plan| - 1], name) + (if plan[|plan| - 1].name == name then plan[|plan| - 1].replicas else 0)
  }

  lemma {:induction false} SelectedIsPlanned(plan: seq<ServicePlan>, selected: seq<Container>, name: string)
    requires Fills(Slots(plan), selected)
    ensures |OfService(selected, name)| == Planned(plan, name)
    decreases |plan|
  {
    if plan != [] {
      var front, last := plan[..|plan| - 1], plan[|plan| - 1];
      var a, b := Slots(front), SlotsOf(last, last.replicas);
      FillsSplit(a, b, selected);
      SelectedIsPlanned(front, selected[..|a|], name);
      OneServiceFilled(last, last.replicas, selected[|a|..], name);
      OfServiceAppend(selected[..|a|], selected[|a|..], name);
    }
  }

  lemma {:induction false} PlannedAbsent(plan: seq<ServicePlan>, name: string)
    requires forall p | p in plan :: p.name != name
    ensures Planned(plan, name) == 0
    decreases |plan|
  {
    if plan != [] {
      PlannedAbsent(plan[..|plan| - 1], name);
    }
  }

  lemma {:induction false} PlannedOnce(plan: seq<ServicePlan>, j: nat)
    requires DistinctNames(plan) && j < |plan|
    ensures Planned(plan, plan[j].name) == plan[j].replicas
    decreases |plan|
  {
    if j < |plan| - 1 {
      PlannedOnce(plan[..|plan| - 1], j);
    } else {
      PlannedAbsent(plan[..|plan| - 1], plan[j].name);
    }
  }

  /** When `apply` reaches a service of a planner's plan, the wait for each dependency is for all its replicas, and at least one. */
  lemma DependencyWaitIsNotVacuous(plan: seq<ServicePlan>, i: nat, selected: seq<Container>, d: Dependency)
    requires DependenciesFirst(plan) && i < |plan| && d in plan[i].dependencies
    requires Fills(Slots(plan[..i]), selected)
    ensures exists j | 0 <= j < i :: plan[j].name == d.service && |OfService(selected, d.service)| == plan[j].replicas > 0
  {
    assert Provided(plan, i);
    var j :| 0 <= j < i && plan[j].name == d.service && plan[j].replicas > 0;
    SelectedIsPlanned(plan[..i], selected, d.service);
    PlannedOnce(plan[..i], j);
    assert plan[..i][j] == plan[j];
  }

  // ----- Every slot once -----

  ghost predicate DistinctSlots(slots: seq<Slot>) {
    forall a, b | 0 <= a < b < |slots| :: slots[a].service.name != slots[b].service.name || slots[a].index != slots[b].index
  }

  lemma {:induction false} SlotsOfShape(service: ServicePlan, n: nat)
    ensures |SlotsOf(service, n)| == n
    ensures forall k | 0 <= k < n :: SlotsOf(service, n)[k] == Slot(service, k)
  {
    if n > 0 {
      SlotsOfShape(service, n - 1);
    }
  }

  lemma {:induction false} SlotsFromPlan(plan: seq<ServicePlan>)
    ensures forall k | 0 <= k < |Slots(plan)| :: Slots(plan)[k].service in plan && Slots(plan)[k].index < Slots(plan)[k].service.replicas
    decreases |plan|
  {
    if plan != [] {
      var front, last := plan[..|plan| - 1], plan[|plan| - 1];
      SlotsFromPlan(front);
      SlotsOfShape(last, last.replicas);
    }
  }

  lemma {:induction false} SlotsAreDistinct(plan: seq<ServicePlan>)
    requires DistinctNames(plan)
    ensures DistinctSlots(Slots(plan))
    decreases |plan|
  {
    if plan != [] {
      var front, last := plan[..|plan| - 1], plan[|plan| - 1];
      SlotsAreDistinct(front);
      SlotsFromPlan(front);
      SlotsOfShape(last, last.replicas);
    }
  }

  lemma {:induction false} SlotIsListed(plan: seq<ServicePlan>, p: ServicePlan, slot: nat) returns (k: nat)
    requires p in plan && slot < p.replicas
    ensures k < |Slots(plan)| && Slots(plan)[k] == Slot(p, slot)
    decreases |plan|
  {
    var front, last := plan[..|plan| - 1], plan[|plan| - 1];
    if p in front {
      k := SlotIsListed(front, p, slot);
    } else {
      SlotsOfShape(last, last.replicas);
      k := |Slots(front)| + slot;
    }
  }
}
