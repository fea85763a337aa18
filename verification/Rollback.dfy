/**
`rollback` and `restore_predecessor` (tako-compose/src/rollout.rs): remove what the
failed attempt created, then bring the predecessors back in the order of their own
dependency graph.
*/
module Rollback {
  import opened Results
  import opened Planner
  import opened Engine
  import opened RolloutPlan
  import opened DependencyWaits
  import opened RolloutState
  import opened Rollout
  import opened RestoreOrder

  datatype Failure = NotCleared(id: Id) | DependencyLoop | NotRestored(id: Id) | NotReady(id: Id)

  // ----- What the engine is told -----

  /** Predecessors that were not up are down, as far as they exist. */
  ghost predicate Down(before: seq<Container>, world: World) {
    forall c | c in before && !WasUp(c) && c.id in world :: !IsUp(world[c.id])
  }

  /** Only predecessors are left, and only those that were up may run. */
  ghost predicate Cleared(before: seq<Container>, world: World) {
    world.Keys <= Ids(before) && Down(before, world)
  }

  ghost predicate HasProvider(before: seq<Container>, name: string) {
    exists c | c in before :: Offers(c, name)
  }

  /** This container was seen meeting the condition. */
  ghost predicate WasSeen(seen: seq<Container>, id: Id, condition: Condition) {
    exists s | s in seen :: s.id == id && Observe(s, Some(condition)).Pass?
  }

  /** Every provider of one dependency was seen meeting its condition. */
  ghost predicate ProvidersSeen(before: seq<Container>, seen: seq<Container>, dep: Dependency) {
    && HasProvider(before, dep.service)
    && forall c | c in before && Offers(c, dep.service) :: WasSeen(seen, c.id, dep.condition)
  }

  ghost predicate AllProvidersSeen(before: seq<Container>, seen: seq<Container>, deps: seq<Dependency>) {
    forall k | 0 <= k < |deps| :: ProvidersSeen(before, seen, deps[k])
  }

  /** The first `n` predecessors, as far as they are providers, meet the condition now. */
  ghost predicate ProvidersMet(before: seq<Container>, world: World, dep: Dependency, n: nat)
    requires n <= |before|
  {
    forall k | 0 <= k < n && Offers(before[k], dep.service) :: Meets(world, before[k].id, dep.condition)
  }

  /** The last provider among them does. */
  ghost predicate LastProviderMet(before: seq<Container>, world: World, dep: Dependency, n: nat)
    requires n <= |before|
  {
    forall k | 0 <= k < n && Offers(before[k], dep.service) && (forall j | k < j < n :: !Offers(before[j], dep.service)) ::
      Meets(world, before[k].id, dep.condition)
  }

  /** Providers whose condition lasts meet it now, and so does the one awaited last of all. */
  ghost predicate AllProvidersMet(before: seq<Container>, world: World, deps: seq<Dependency>, steady: bool) {
    && (forall i | 0 <= i < |deps| && Lasts(deps, i, steady) :: ProvidersMet(before, world, deps[i], |before|))
    && (deps != [] ==> LastProviderMet(before, world, deps[|deps| - 1], |before|))
  }

  /**
  A rollback creates nothing and stops or removes no predecessor that was up. It starts a
  predecessor only when nothing but predecessors is left, those that were not up are down, and
  every provider of every dependency was seen meeting its condition, and meets it as far as
  that lasts.
  */
  ghost predicate Permitted(before: seq<Container>, steady: bool, cmd: Command) {
    match cmd
    case CreateCommand(_, _) => false
    case StartCommand(id, w, seen) =>
      Cleared(before, w) && id in w
      && exists c | c in before :: c.id == id && WasUp(c) && AllProvidersSeen(before, seen, c.dependencies)
                                   && AllProvidersMet(before, w, c.dependencies, steady)
    case StopCommand(id, _) => forall c | c in before && WasUp(c) :: c.id != id
    case RemoveCommand(id, _) => forall c | c in before :: c.id != id
  }

  ghost predicate Respects(before: seq<Container>, steady: bool, earlier: seq<Command>, later: seq<Command>) {
    earlier <= later && forall k | |earlier| <= k < |later| :: Permitted(before, steady, later[k])
  }

  ghost predicate StartsNothing(earlier: seq<Command>, later: seq<Command>) {
    forall k | |earlier| <= k < |later| :: !later[k].StartCommand?
  }

  // ----- Clearing -----

  ghost predicate ClearedAt(before: seq<Container>, world: World, id: Id) {
    id in world ==> id in Ids(before) && forall c | c in before && c.id == id && !WasUp(c) :: !IsUp(world[id])
  }

  ghost predicate OthersSame(w: World, next: World, id: Id) {
    forall other | other != id :: (other in next <==> other in w) && (other in next ==> next[other] == w[other])
  }

  method ClearOne(docker: Docker, before: seq<Container>, id: Id) returns (ok: bool)
    requires WellKeyed(docker.world) && DistinctIds(before) && id in docker.world
    modifies docker`world, docker`log
    ensures WellKeyed(docker.world) && OthersSame(old(docker.world), docker.world, id)
    ensures ok ==> ClearedAt(before, docker.world, id)
    ensures docker.reliable ==> ok
    ensures id in Ids(before) ==> id in docker.world
    ensures forall c | c in before && c.id == id && WasUp(c) :: docker.world == old(docker.world)
    ensures Respects(before, docker.steady, old(docker.log), docker.log) && StartsNothing(old(docker.log), docker.log)
  {
    ok := true;
    if !exists c | c in before :: c.id == id {
      ok := docker.Remove(id);
    } else if c :| c in before && c.id == id && !WasUp(c) {
      ok := docker.Stop(id);
    }
  }

  /** What clearing leaves alone: no predecessor is lost, and those that were up are untouched. */
  ghost predicate Spares(before: seq<Container>, w: World, next: World) {
    && next.Keys <= w.Keys
    && (forall c | c in before && c.id in w :: c.id in next)
    && (forall c | c in before && WasUp(c) && c.id in w :: next[c.id] == w[c.id])
  }

  lemma AllCleared(before: seq<Container>, w0: World, listed: seq<Container>, world: World)
    requires WellKeyed(w0) && ListsAll(w0, listed) && world.Keys <= w0.Keys
    requires forall k | 0 <= k < |listed| :: ClearedAt(before, world, listed[k].id)
    ensures Cleared(before, world)
  {
    forall id | id in world
      ensures ClearedAt(before, world, id)
    {
      var k :| 0 <= k < |listed| && listed[k] == w0[id];
      assert listed[k].id == id;
    }
  }

  /** The loop below, with the containers from position `i` on dealt with. */
  ghost predicate Clearing(before: seq<Container>, w0: World, listed: seq<Container>, world: World, i: nat, ok: bool)
    requires i <= |listed|
  {
    && WellKeyed(world) && Spares(before, w0, world)
    && (forall k | 0 <= k < i :: listed[k].id in world)
    && (ok ==> forall k | i <= k < |listed| :: ClearedAt(before, world, listed[k].id))
  }

  lemma ClearedOneMore(
    before: seq<Container>, w0: World, listed: seq<Container>, w: World, next: World, i: nat, earlier: bool, ok: bool)
    requires i < |listed| && ListsAll(w0, listed) && Clearing(before, w0, listed, w, i + 1, earlier)
    requires WellKeyed(next) && OthersSame(w, next, listed[i].id) && (ok ==> ClearedAt(before, next, listed[i].id))
    requires listed[i].id in Ids(before) ==> listed[i].id in next
    requires forall c | c in before && c.id == listed[i].id && WasUp(c) :: next == w
    ensures Clearing(before, w0, listed, next, i, earlier && ok)
  {
    SparesOneMore(before, w0, w, next, listed[i].id);
    if earlier && ok {
      forall k | i <= k < |listed|
        ensures ClearedAt(before, next, listed[k].id)
      {
        if k > i { assert ClearedAt(before, w, listed[k].id); }
      }
    }
  }

  lemma SparesOneMore(before: seq<Container>, w0: World, w: World, next: World, id: Id)
    requires Spares(before, w0, w) && OthersSame(w, next, id) && id in w
    requires id in Ids(before) ==> id in next
    requires forall c | c in before && c.id == id && WasUp(c) :: next == w
    ensures Spares(before, w0, next)
  {
    forall c | c in before && c.id in w0
      ensures c.id in next && (WasUp(c) ==> next[c.id] == w0[c.id])
    {
      assert c.id in Ids(before);
    }
  }

  /** The first loop of `rollback`, over the listing in reverse. */
  method Clear(docker: Docker, before: seq<Container>) returns (failures: seq<Failure>)
    requires WellKeyed(docker.world) && DistinctIds(before)
    modifies docker`world, docker`log
    ensures WellKeyed(docker.world) && Spares(before, old(docker.world), docker.world)
    ensures failures == [] ==> Cleared(before, docker.world)
    ensures Respects(before, docker.steady, old(docker.log), docker.log) && StartsNothing(old(docker.log), docker.log)
    ensures DependencyLoop !in failures && (docker.reliable ==> failures == [])
  {
    var listed := docker.List();
    failures := [];
    ghost var w0 := docker.world;
    var i := |listed|;
    while i > 0
      invariant 0 <= i <= |listed|
      invariant Clearing(before, w0, listed, docker.world, i, failures == [])
      invariant Respects(before, docker.steady, old(docker.log), docker.log) && StartsNothing(old(docker.log), docker.log)
      invariant DependencyLoop !in failures && (docker.reliable ==> failures == [])
    {
      i := i - 1;
      ghost var w := docker.world;
      var ok := ClearOne(docker, before, listed[i].id);
      ClearedOneMore(before, w0, listed, w, docker.world, i, failures == [], ok);
      if !ok {
        failures := failures + [NotCleared(listed[i].id)];
      }
    }
    if failures == [] {
      AllCleared(before, w0, listed, docker.world);
    }
  }

  // ----- Waiting for providers -----

  /** The state during restoration. */
  ghost predicate Restoring(before: seq<Container>, world: World) {
    WellKeyed(world) && DistinctIds(before) && Cleared(before, world)
  }

  lemma TimeKeepsRestoring(before: seq<Container>, w: World, next: World)
    requires Restoring(before, w) && TimePasses(w, next) && WellKeyed(next)
    ensures Restoring(before, next)
  {}

  /** The first `n` predecessors, as far as they are providers, were seen. */
  ghost predicate ProvidersSeenUpTo(before: seq<Container>, seen: seq<Container>, dep: Dependency, n: nat)
    requires n <= |before|
  {
    forall k | 0 <= k < n && Offers(before[k], dep.service) :: WasSeen(seen, before[k].id, dep.condition)
  }

  lemma ProvidersSeenGrows(before: seq<Container>, seen: seq<Container>, more: seq<Container>, dep: Dependency, n: nat)
    requires n <= |before| && ProvidersSeenUpTo(before, seen, dep, n) && seen <= more
    ensures ProvidersSeenUpTo(before, more, dep, n)
  {
    forall k | 0 <= k < n && Offers(before[k], dep.service)
      ensures WasSeen(more, before[k].id, dep.condition)
    {
      assert WasSeen(seen, before[k].id, dep.condition);
      var s :| s in seen && s.id == before[k].id && Observe(s, Some(dep.condition)).Pass?;
      assert s in more;
    }
  }

  /** The waits for the first `n` predecessors have passed, as far as they are providers. */
  ghost predicate ProvidersPassed(before: seq<Container>, world: World, seen: seq<Container>, dep: Dependency, n: nat, steady: bool)
    requires n <= |before|
  {
    && ProvidersSeenUpTo(before, seen, dep, n) && LastProviderMet(before, world, dep, n)
    && (steady || dep.condition.Completed? ==> ProvidersMet(before, world, dep, n))
  }

  lemma OtherPassed(before: seq<Container>, world: World, seen: seq<Container>, dep: Dependency, n: nat, steady: bool)
    requires n < |before| && ProvidersPassed(before, world, seen, dep, n, steady) && !Offers(before[n], dep.service)
    ensures ProvidersPassed(before, world, seen, dep, n + 1, steady)
  {}

  lemma OneMorePassed(
    before: seq<Container>, w: World, next: World, seen: seq<Container>, dep: Dependency, n: nat, c: Container, steady: bool)
    requires n < |before| && ProvidersPassed(before, w, seen, dep, n, steady) && DistinctIds(before) && Offers(before[n], dep.service)
    requires TimePasses(w, next) && (steady ==> OnlyStateOf(w, next, before[n].id))
    requires c.id == before[n].id && c.id in next && next[c.id] == c && Observe(c, Some(dep.condition)).Pass?
    ensures ProvidersPassed(before, next, seen + [c], dep, n + 1, steady)
  {
    ProvidersSeenGrows(before, seen, seen + [c], dep, n);
    assert c in seen + [c] && WasSeen(seen + [c], before[n].id, dep.condition);
  }

  /** In a steady engine only providers of `dep` have changed, and those meet its condition. */
  ghost predicate OnlyProviders(before: seq<Container>, w: World, next: World, dep: Dependency) {
    && next.Keys == w.Keys
    && forall k | 0 <= k < |before| && before[k].id in w ::
         || next[before[k].id] == w[before[k].id]
         || (before[k].service == dep.service && Observe(next[before[k].id], Some(dep.condition)).Pass?)
  }

  lemma OneProvider(before: seq<Container>, w: World, next: World, dep: Dependency, n: nat)
    requires DistinctIds(before) && n < |before| && OnlyStateOf(w, next, before[n].id)
    requires before[n].service == dep.service && Meets(next, before[n].id, dep.condition)
    ensures OnlyProviders(before, w, next, dep)
  {}

  lemma OnlyProvidersThen(before: seq<Container>, a: World, b: World, c: World, dep: Dependency)
    requires OnlyProviders(before, a, b, dep) && OnlyProviders(before, b, c, dep)
    ensures OnlyProviders(before, a, c, dep)
  {}

  lemma TimePassesThen(a: World, b: World, c: World)
    requires TimePasses(a, b) && TimePasses(b, c)
    ensures TimePasses(a, c)
  {}

  /** What holds while the providers of a dependency are awaited. */
  ghost predicate Waiting(docker: Docker, before: seq<Container>, w: World, seen: seq<Container>)
    reads docker
  {
    Restoring(before, docker.world) && TimePasses(w, docker.world) && seen <= docker.seen
  }

  /** Waits for one predecessor, if it is a provider. */
  method AwaitProvider(docker: Docker, before: seq<Container>, dep: Dependency, k: nat) returns (ok: bool)
    requires Restoring(before, docker.world) && k < |before|
    requires ProvidersPassed(before, docker.world, docker.seen, dep, k, docker.steady)
    modifies docker`world, docker`seen
    ensures Waiting(docker, before, old(docker.world), old(docker.seen))
    ensures ok ==> ProvidersPassed(before, docker.world, docker.seen, dep, k + 1, docker.steady)
    ensures ok && docker.steady ==> OnlyProviders(before, old(docker.world), docker.world, dep)
  {
    if !Offers(before[k], dep.service) {
      OtherPassed(before, docker.world, docker.seen, dep, k, docker.steady);
      return true;
    }
    var current := docker.Inspect(before[k].id);
    if current.None? {
      return false;
    }
    ghost var w, seen := docker.world, docker.seen;
    var r := docker.WaitReady(current.value, Some(dep.condition));
    TimeKeepsRestoring(before, w, docker.world);
    ok := r.Some?;
    if ok {
      OneMorePassed(before, w, docker.world, seen, dep, k, r.value, docker.steady);
      if docker.steady {
        OneProvider(before, w, docker.world, dep, k);
      }
    }
  }

  method AwaitDependency(docker: Docker, before: seq<Container>, dep: Dependency) returns (ok: bool)
    requires Restoring(before, docker.world)
    modifies docker`world, docker`seen
    ensures Waiting(docker, before, old(docker.world), old(docker.seen))
    ensures ok ==> HasProvider(before, dep.service) && ProvidersPassed(before, docker.world, docker.seen, dep, |before|, docker.steady)
    ensures ok && docker.steady ==> OnlyProviders(before, old(docker.world), docker.world, dep)
  {
    if !exists c | c in before :: Offers(c, dep.service) {
      return false;
    }
    for k := 0 to |before|
      invariant Waiting(docker, before, old(docker.world), old(docker.seen))
      invariant ProvidersPassed(before, docker.world, docker.seen, dep, k, docker.steady)
      invariant docker.steady ==> OnlyProviders(before, old(docker.world), docker.world, dep)
    {
      ghost var w := docker.world;
      ok := AwaitProvider(docker, before, dep, k);
      TimePassesThen(old(docker.world), w, docker.world);
      if !ok {
        return;
      }
      if docker.steady {
        OnlyProvidersThen(before, old(docker.world), w, docker.world, dep);
      }
    }
    ok := true;
  }

  // ----- Which predecessors keep running -----

  /** Some restarted predecessor waits for this service to complete. */
  ghost predicate AwaitedAsJob(before: seq<Container>, restarted: set<Id>, name: string) {
    exists p | p in before :: p.id in restarted && Dependency(name, Completed) in p.dependencies
  }

  /** Runs, or has completed for a restarted consumer that waits for that. */
  ghost predicate Kept(before: seq<Container>, restarted: set<Id>, c: Container, now: Container) {
    IsRunning(now) || (IsCompleted(now) && AwaitedAsJob(before, restarted, c.service))
  }

  ghost predicate KeepsKept(before: seq<Container>, restarted: set<Id>, w: World, next: World) {
    && next.Keys == w.Keys
    && forall k | 0 <= k < |before| && before[k].id in w && Kept(before, restarted, before[k], w[before[k].id]) ::
         Kept(before, restarted, before[k], next[before[k].id])
  }

  /** Whatever a restarted predecessor waits to complete has completed. */
  ghost predicate JobsDone(before: seq<Container>, restarted: set<Id>, world: World) {
    forall p, c | p in before && p.id in restarted && IsJobOf(before, p, c) :: c.id in world && IsCompleted(world[c.id])
  }

  predicate IsJobOf(before: seq<Container>, p: Container, c: Container) {
    c in before && WasUp(c) && Dependency(c.service, Completed) in p.dependencies
  }

  ghost predicate OwnJobsDone(before: seq<Container>, p: Container, world: World) {
    forall c | IsJobOf(before, p, c) :: c.id in world && IsCompleted(world[c.id])
  }

  lemma WaitingKeeps(before: seq<Container>, restarted: set<Id>, w: World, next: World, p: Container, dep: Dependency)
    requires OnlyProviders(before, w, next, dep) && p in before && p.id in restarted && dep in p.dependencies
    ensures KeepsKept(before, restarted, w, next)
  {
    forall k | 0 <= k < |before| && before[k].id in w && Kept(before, restarted, before[k], w[before[k].id])
      ensures Kept(before, restarted, before[k], next[before[k].id])
    {
      if next[before[k].id] != w[before[k].id] {
        PassMeansReady(next[before[k].id], Some(dep.condition));
        assert dep.condition.Completed? ==> dep == Dependency(before[k].service, Completed);
      }
    }
  }

  /** The waits for the first `n` dependencies have passed. */
  ghost predicate PassedDependencies(
    before: seq<Container>, seen: seq<Container>, world: World, deps: seq<Dependency>, n: nat, steady: bool)
    requires n <= |deps|
  {
    && (forall k | 0 <= k < n :: ProvidersSeen(before, seen, deps[k]))
    && (forall k | 0 <= k < n && Lasts(deps, k, steady) :: ProvidersMet(before, world, deps[k], |before|))
    && (n > 0 ==> LastProviderMet(before, world, deps[n - 1], |before|))
  }

  lemma SeenKeepsGrowing(before: seq<Container>, seen: seq<Container>, more: seq<Container>, dep: Dependency)
    requires ProvidersSeen(before, seen, dep) && seen <= more
    ensures ProvidersSeen(before, more, dep)
  {
    assert ProvidersSeenUpTo(before, seen, dep, |before|);
    ProvidersSeenGrows(before, seen, more, dep, |before|);
    AllOffersSeen(before, more, dep);
  }

  /** Waiting for one dependency keeps a lasting condition of another one. */
  lemma MetLasts(before: seq<Container>, w: World, next: World, deps: seq<Dependency>, k: nat, n: nat, steady: bool)
    requires k < n < |deps| && Lasts(deps, k, steady) && ProvidersMet(before, w, deps[k], |before|)
    requires TimePasses(w, next) && (steady ==> OnlyProviders(before, w, next, deps[n]))
    ensures ProvidersMet(before, next, deps[k], |before|)
  {}

  lemma OneMoreDependency(
    before: seq<Container>, seen: seq<Container>, more: seq<Container>, w: World, next: World, deps: seq<Dependency>, n: nat, steady: bool)
    requires n < |deps| && PassedDependencies(before, seen, w, deps, n, steady) && seen <= more
    requires TimePasses(w, next) && (steady ==> OnlyProviders(before, w, next, deps[n]))
    requires HasProvider(before, deps[n].service) && ProvidersPassed(before, next, more, deps[n], |before|, steady)
    ensures PassedDependencies(before, more, next, deps, n + 1, steady)
  {
    AllOffersSeen(before, more, deps[n]);
    forall k | 0 <= k < n
      ensures ProvidersSeen(before, more, deps[k])
    {
      SeenKeepsGrowing(before, seen, more, deps[k]);
    }
    forall k | 0 <= k < n && Lasts(deps, k, steady)
      ensures ProvidersMet(before, next, deps[k], |before|)
    {
      MetLasts(before, w, next, deps, k, n, steady);
    }
  }

  lemma AllOffersSeen(before: seq<Container>, seen: seq<Container>, dep: Dependency)
    requires HasProvider(before, dep.service) && ProvidersSeenUpTo(before, seen, dep, |before|)
    ensures ProvidersSeen(before, seen, dep)
  {
    forall c | c in before && Offers(c, dep.service)
      ensures WasSeen(seen, c.id, dep.condition)
    {
      var k :| 0 <= k < |before| && before[k] == c;
    }
  }

  lemma PassedMeansDone(before: seq<Container>, seen: seq<Container>, world: World, p: Container, steady: bool)
    requires PassedDependencies(before, seen, world, p.dependencies, |p.dependencies|, steady)
    ensures AllProvidersSeen(before, seen, p.dependencies) && AllProvidersMet(before, world, p.dependencies, steady)
    ensures OwnJobsDone(before, p, world)
  {
    forall c | IsJobOf(before, p, c)
      ensures c.id in world && IsCompleted(world[c.id])
    {
      var k :| 0 <= k < |p.dependencies| && p.dependencies[k] == Dependency(c.service, Completed);
      assert ProvidersMet(before, world, p.dependencies[k], |before|);
      var at :| 0 <= at < |before| && before[at] == c;
    }
  }

  /** Only what `p` needs, and `p` itself, may have changed. */
  ghost predicate OnlyNeeded(before: seq<Container>, p: Container, w: World, next: World) {
    && next.Keys == w.Keys
    && forall c | c in before && c.id in w && c.id != p.id && !Needs(p, c) :: next[c.id] == w[c.id]
  }

  lemma OneMoreNeeded(before: seq<Container>, p: Container, a: World, b: World, c: World, dep: Dependency)
    requires OnlyNeeded(before, p, a, b) && OnlyProviders(before, b, c, dep) && dep in p.dependencies
    ensures OnlyNeeded(before, p, a, c)
  {
    forall x | x in before && x.id in a && x.id != p.id && !Needs(p, x)
      ensures c[x.id] == a[x.id]
    {
      var k :| 0 <= k < |before| && before[k] == x;
    }
  }

  method AwaitDependencies(docker: Docker, before: seq<Container>, p: Container, ghost restarted: set<Id>) returns (ok: bool)
    requires Restoring(before, docker.world) && p in before && p.id in restarted
    modifies docker`world, docker`seen
    ensures Waiting(docker, before, old(docker.world), old(docker.seen))
    ensures ok ==> AllProvidersSeen(before, docker.seen, p.dependencies)
    ensures ok ==> AllProvidersMet(before, docker.world, p.dependencies, docker.steady) && OwnJobsDone(before, p, docker.world)
    ensures ok && docker.steady ==> KeepsKept(before, restarted, old(docker.world), docker.world)
    ensures ok && docker.steady ==> OnlyNeeded(before, p, old(docker.world), docker.world)
  {
    for i := 0 to |p.dependencies|
      invariant Waiting(docker, before, old(docker.world), old(docker.seen))
      invariant PassedDependencies(before, docker.seen, docker.world, p.dependencies, i, docker.steady)
      invariant docker.steady ==> KeepsKept(before, restarted, old(docker.world), docker.world)
      invariant docker.steady ==> OnlyNeeded(before, p, old(docker.world), docker.world)
    {
      ghost var w, seen := docker.world, docker.seen;
      ok := AwaitDependency(docker, before, p.dependencies[i]);
      if !ok {
        return;
      }
      OneMoreDependency(before, seen, docker.seen, w, docker.world, p.dependencies, i, docker.steady);
      if docker.steady {
        WaitingKeeps(before, restarted, w, docker.world, p, p.dependencies[i]);
        OneMoreNeeded(before, p, old(docker.world), w, docker.world, p.dependencies[i]);
      }
    }
    PassedMeansDone(before, docker.seen, docker.world, p, docker.steady);
    ok := true;
  }

  // ----- Restoring one predecessor -----

  datatype Restored = AlreadyUp(current: Container) | Restarted(current: Container) | Failed

  function RestartedWith(restarted: set<Id>, p: Container, r: Restored): set<Id> {
    if r.Restarted? then restarted + {p.id} else restarted
  }

  lemma TimeKeepsJobsDone(before: seq<Container>, restarted: set<Id>, w: World, next: World)
    requires JobsDone(before, restarted, w) && TimePasses(w, next)
    ensures JobsDone(before, restarted, next)
  {}

  /** Starting `p` leaves the jobs alone: nobody restarted before it needs it, nor does it itself. */
  lemma StartKeepsJobsDone(before: seq<Container>, restarted: set<Id>, w: World, next: World, p: Container)
    requires DistinctIds(before) && p in before && JobsDone(before, restarted, w) && OwnJobsDone(before, p, w)
    requires OnlyStateOf(w, next, p.id) && !Needs(p, p) && forall q | q in before && q.id in restarted :: !Needs(q, p)
    ensures JobsDone(before, restarted + {p.id}, next) && JobsDone(before, restarted, next)
  {
    forall q, c | q in before && q.id in restarted + {p.id} && IsJobOf(before, q, c)
      ensures c.id in next && IsCompleted(next[c.id])
    {
      if q.id == p.id { SameId(before, q, p); }
      assert Needs(q, c);
      if c.id == p.id { SameId(before, c, p); }
    }
  }

  method StartPredecessor(docker: Docker, before: seq<Container>, p: Container) returns (ok: bool)
    requires Restoring(before, docker.world) && p in before && WasUp(p)
    requires p.id in docker.world && AllProvidersSeen(before, docker.seen, p.dependencies)
    requires AllProvidersMet(before, docker.world, p.dependencies, docker.steady)
    modifies docker`world, docker`log
    ensures Restoring(before, docker.world) && OnlyStateOf(old(docker.world), docker.world, p.id)
    ensures Respects(before, docker.steady, old(docker.log), docker.log)
  {
    assert Permitted(before, docker.steady, StartCommand(p.id, docker.world, docker.seen));
    ok := docker.Start(p.id);
    forall c | c in before && !WasUp(c) && c.id in docker.world
      ensures !IsUp(docker.world[c.id])
    {
      assert c.id != p.id by { if c.id == p.id { SameId(before, c, p); } }
    }
  }

  /** What restoring `p` keeps in a steady engine. */
  ghost predicate KeepsOthers(before: seq<Container>, restarted: set<Id>, p: Container, w: World, next: World) {
    && next.Keys == w.Keys
    && forall k | 0 <= k < |before| && before[k].id in w && before[k].id != p.id && Kept(before, restarted, before[k], w[before[k].id]) ::
         Kept(before, restarted, before[k], next[before[k].id])
  }

  /** `restore_predecessor`. One that runs gets no command; any other is started when its dependencies were seen ready. */
  method Restore(docker: Docker, before: seq<Container>, p: Container, ghost restarted: set<Id>) returns (r: Restored)
    requires Restoring(before, docker.world) && p in before && WasUp(p) && !Needs(p, p)
    requires JobsDone(before, restarted, docker.world) && forall q | q in before && q.id in restarted :: !Needs(q, p)
    modifies docker`world, docker`log, docker`seen
    ensures Restoring(before, docker.world) && docker.world.Keys == old(docker.world).Keys
    ensures Respects(before, docker.steady, old(docker.log), docker.log)
    ensures JobsDone(before, RestartedWith(restarted, p, r), docker.world)
    ensures r.AlreadyUp? <==> p.id in old(docker.world) && IsRunning(old(docker.world)[p.id])
    ensures r.AlreadyUp? ==> docker.world == old(docker.world) && docker.log == old(docker.log)
    ensures !r.Failed? ==> StillAsSeen(docker.world, r.current) && r.current.id == p.id
    ensures !r.Failed? && docker.steady ==>
              KeepsOthers(before, RestartedWith(restarted, p, r), p, old(docker.world), docker.world)
              && OnlyNeeded(before, p, old(docker.world), docker.world)
  {
    var current := docker.Inspect(p.id);
    if current.None? {
      return Failed;
    }
    if IsRunning(current.value) {
      return AlreadyUp(current.value);
    }
    ghost var w := docker.world;
    var ok := AwaitDependencies(docker, before, p, restarted + {p.id});
    TimeKeepsJobsDone(before, restarted, w, docker.world);
    if !ok {
      return Failed;
    }
    ghost var waited := docker.world;
    ok := StartPredecessor(docker, before, p);
    StartKeepsJobsDone(before, restarted, waited, docker.world, p);
    if !ok {
      return Failed;
    }
    current := docker.Inspect(p.id);
    r := if current.None? then Failed else Restarted(current.value);
  }

  // ----- Restoring all -----

  ghost predicate SeenRunning(watched: seq<Container>, id: Id) { exists s | s in watched :: s.id == id && IsRunning(s) }

  /** Every processed predecessor was restarted, or was seen running and in a steady engine is kept. */
  ghost predicate Accounted(
    before: seq<Container>, world: World, restarted: set<Id>, watched: seq<Container>, done: seq<Container>, steady: bool)
  {
    forall c | c in done ::
      c.id in world
      && (c.id in restarted || (SeenRunning(watched, c.id) && (steady ==> Kept(before, restarted, c, world[c.id]))))
  }

  lemma KeptGrows(before: seq<Container>, restarted: set<Id>, more: set<Id>, c: Container, now: Container)
    requires Kept(before, restarted, c, now) && restarted <= more
    ensures Kept(before, more, c, now)
  {}

  lemma SeenRunningGrows(watched: seq<Container>, more: seq<Container>, id: Id)
    requires SeenRunning(watched, id) && watched <= more
    ensures SeenRunning(more, id)
  {
    var s :| s in watched && s.id == id && IsRunning(s);
    assert s in more;
  }

  lemma OneMoreAccounted(
    before: seq<Container>, w: World, next: World, restarted: set<Id>, more: set<Id>,
    watched: seq<Container>, watched': seq<Container>, done: seq<Container>, p: Container, steady: bool)
    requires Accounted(before, w, restarted, watched, done, steady) && next.Keys == w.Keys && p.id in next
    requires restarted <= more && watched <= watched' && forall c | c in done :: c in before && c.id != p.id
    requires steady ==> KeepsOthers(before, more, p, w, next)
    requires p.id in more || (SeenRunning(watched', p.id) && (steady ==> Kept(before, more, p, next[p.id])))
    ensures Accounted(before, next, more, watched', done + [p], steady)
  {
    forall c | c in done && c.id !in more
      ensures SeenRunning(watched', c.id) && (steady ==> Kept(before, more, c, next[c.id]))
    {
      SeenRunningGrows(watched, watched', c.id);
      var k :| 0 <= k < |before| && before[k] == c;
      if steady { KeptGrows(before, restarted, more, c, w[c.id]); }
    }
  }

  lemma {:induction false} UpIsDistinct(before: seq<Container>)
    requires DistinctIds(before)
    ensures DistinctIds(UpOf(before))
  {
    if before != [] {
      var rest := UpOf(before[1..]);
      UpIsDistinct(before[1..]);
      forall k | 0 <= k < |rest|
        ensures rest[k].id != before[0].id
      {
        assert rest[k] in before[1..];
      }
    }
  }

  /** The outcome so far. */
  ghost predicate Outcome(
    before: seq<Container>, world: World, failures: seq<Failure>, restored: seq<Container>, watched: seq<Container>,
    done: seq<Container>, steady: bool)
  {
    && DependencyLoop !in failures
    && DistinctIds(restored) && Ids(restored) <= Ids(done) && JobsDone(before, Ids(restored), world)
    && (failures == [] ==> Accounted(before, world, Ids(restored), watched, done, steady))
  }

  lemma RestoredOnce(restored: seq<Container>, done: seq<Container>, current: Container, p: Container)
    requires DistinctIds(restored) && Ids(restored) <= Ids(done) && current.id == p.id && forall c | c in done :: c.id != p.id
    ensures DistinctIds(restored + [current]) && Ids(restored + [current]) == Ids(restored) + {p.id}
  {
    forall k | 0 <= k < |restored|
      ensures restored[k].id != p.id
    {
      assert restored[k].id in Ids(restored);
    }
  }

  method RestoreNext(docker: Docker, before: seq<Container>, p: Container, failures: seq<Failure>, restored: seq<Container>,
                     ghost watched: seq<Container>, ghost done: seq<Container>)
    returns (failures': seq<Failure>, restored': seq<Container>, ghost watched': seq<Container>)
    requires Restoring(before, docker.world) && p in before && WasUp(p) && !Needs(p, p)
    requires Outcome(before, docker.world, failures, restored, watched, done, docker.steady)
    requires forall c | c in done :: c in before && c.id != p.id && !Needs(c, p)
    modifies docker`world, docker`log, docker`seen
    ensures Restoring(before, docker.world) && docker.world.Keys == old(docker.world).Keys
    ensures Respects(before, docker.steady, old(docker.log), docker.log)
    ensures Outcome(before, docker.world, failures', restored', watched', done + [p], docker.steady)
    ensures failures <= failures'
    ensures failures' == [] ==> p.id in old(docker.world)
    ensures failures' == [] ==> Ids(restored') == Ids(restored) + if IsRunning(old(docker.world)[p.id]) then {} else {p.id}
    ensures failures' == [] && docker.steady ==> OnlyNeeded(before, p, old(docker.world), docker.world)
    ensures p.id in old(docker.world) && IsRunning(old(docker.world)[p.id]) ==>
              failures' == failures && restored' == restored && docker.world == old(docker.world) && docker.log == old(docker.log)
  {
    failures', restored', watched' := failures, restored, watched;
    ghost var w := docker.world;
    EarlierDoNotNeed(before, restored, done, p);
    var r := Restore(docker, before, p, Ids(restored));
    match r {
      case AlreadyUp(current) => watched' := watched + [current];
      case Restarted(current) => restored' := restored + [current];
      case Failed => failures' := failures + [NotRestored(p.id)];
    }
    assert Ids(done + [p]) == Ids(done) + {p.id};
    if r.Restarted? {
      RestoredOnce(restored, done, r.current, p);
    }
    if failures' == [] {
      assert r.AlreadyUp? ==> r.current in watched' && SeenRunning(watched', p.id);
      OneMoreAccounted(before, w, docker.world, Ids(restored), Ids(restored'), watched, watched', done, p, docker.steady);
    }
  }

  lemma EarlierDoNotNeed(before: seq<Container>, restored: seq<Container>, done: seq<Container>, p: Container)
    requires DistinctIds(before) && Ids(restored) <= Ids(done) && forall c | c in done :: c in before && !Needs(c, p)
    ensures forall q | q in before && q.id in Ids(restored) :: !Needs(q, p)
  {
    forall q | q in before && q.id in Ids(restored)
      ensures !Needs(q, p)
    {
      var d :| d in done && d.id == q.id;
      SameId(before, d, q);
    }
  }

  /** All of these run. */
  ghost predicate AllRun(up: seq<Container>, world: World) { forall c | c in up :: c.id in world && IsRunning(world[c.id]) }

  /** The predecessors that were up and do not run. */
  ghost function Fallen(before: seq<Container>, world: World): set<Id> {
    set c | c in before && WasUp(c) && c.id in world && !IsRunning(world[c.id]) :: c.id
  }

  /** Of the processed predecessors exactly those that did not run at the start were restarted; the others are as they were. */
  ghost predicate Traced(start: World, world: World, restarted: set<Id>, done: seq<Container>, remaining: seq<Container>) {
    && world.Keys == start.Keys
    && (forall c | c in done :: c.id in start && (c.id in restarted <==> !IsRunning(start[c.id])))
    && (forall c | c in remaining && c.id in start :: world[c.id] == start[c.id])
  }

  lemma TracedNext(
    before: seq<Container>, start: World, w: World, next: World, restarted: set<Id>, more: set<Id>,
    done: seq<Container>, remaining: seq<Container>, i: nat)
    requires i < |remaining| && Scheduled(UpOf(before), done, remaining) && !Blocked(remaining[i], remaining)
    requires Traced(start, w, restarted, done, remaining) && OnlyNeeded(before, remaining[i], w, next) && restarted <= Ids(done)
    requires remaining[i].id in w && more == restarted + if IsRunning(w[remaining[i].id]) then {} else {remaining[i].id}
    ensures Traced(start, next, more, done + [remaining[i]], Without(remaining, i))
  {
    var p := remaining[i];
    WithoutKeeps(remaining, i);
    forall c | c in done + [p]
      ensures c.id in start && (c.id in more <==> !IsRunning(start[c.id]))
    {
      if c in done { assert c.id != p.id; }
    }
    assert forall c | c in Without(remaining, i) :: c in before && !Needs(p, c) && c.id != p.id;
  }

  lemma TracedIsFallen(before: seq<Container>, start: World, world: World, restarted: set<Id>, done: seq<Container>)
    requires Traced(start, world, restarted, done, []) && Scheduled(UpOf(before), done, []) && restarted <= Ids(done)
    ensures restarted == Fallen(before, start)
  {
    forall id | id in restarted
      ensures id in Fallen(before, start)
    {
      var c :| c in done && c.id == id;
    }
  }

  /** The state of the second loop of `rollback`. While everybody runs, nothing happens. */
  ghost predicate Restoration(
    before: seq<Container>, start: World, earlier: seq<Command>, world: World, log: seq<Command>, failures: seq<Failure>,
    restored: seq<Container>, watched: seq<Container>, done: seq<Container>, remaining: seq<Container>, steady: bool)
  {
    && Restoring(before, world) && world.Keys == start.Keys && Respects(before, steady, earlier, log)
    && Scheduled(UpOf(before), done, remaining) && Outcome(before, world, failures, restored, watched, done, steady)
    && (failures == [] && steady ==> Traced(start, world, Ids(restored), done, remaining))
    && (AllRun(UpOf(before), start) ==> failures == [] && restored == [] && world == start && log == earlier)
  }

  /** Takes one predecessor that needs none of the remaining ones. */
  method RestoreStep(docker: Docker, before: seq<Container>, failures: seq<Failure>, restored: seq<Container>,
                     ghost watched: seq<Container>, ghost done: seq<Container>, remaining: seq<Container>, i: nat,
                     ghost start: World, ghost earlier: seq<Command>)
    returns (failures': seq<Failure>, restored': seq<Container>, ghost watched': seq<Container>)
    requires Restoration(before, start, earlier, docker.world, docker.log, failures, restored, watched, done, remaining, docker.steady)
    requires i < |remaining| && !Blocked(remaining[i], remaining)
    modifies docker`world, docker`log, docker`seen
    ensures Restoration(before, start, earlier, docker.world, docker.log, failures', restored', watched',
                        done + [remaining[i]], Without(remaining, i), docker.steady)
  {
    TakeNext(UpOf(before), done, remaining, i);
    ghost var w := docker.world;
    failures', restored', watched' := RestoreNext(docker, before, remaining[i], failures, restored, watched, done);
    if failures' == [] && docker.steady {
      TracedNext(before, start, w, docker.world, Ids(restored), Ids(restored'), done, remaining, i);
    }
  }

  /** The second loop of `rollback`. The loop failure is reported exactly when the graph has one. */
  method RestoreAll(docker: Docker, before: seq<Container>)
    returns (failures: seq<Failure>, restored: seq<Container>, ghost watched: seq<Container>)
    requires Restoring(before, docker.world)
    modifies docker`world, docker`log, docker`seen
    ensures Restoring(before, docker.world) && docker.world.Keys == old(docker.world).Keys
    ensures Respects(before, docker.steady, old(docker.log), docker.log)
    ensures DependencyLoop in failures <==> HasLoop(UpOf(before))
    ensures failures == [] ==> Accounted(before, docker.world, Ids(restored), watched, UpOf(before), docker.steady)
    ensures DistinctIds(restored) && Ids(restored) <= Ids(UpOf(before)) && JobsDone(before, Ids(restored), docker.world)
    ensures failures == [] && docker.steady ==> Ids(restored) == Fallen(before, old(docker.world))
    ensures AllRun(UpOf(before), old(docker.world)) && !HasLoop(UpOf(before)) ==>
              failures == [] && restored == [] && docker.world == old(docker.world) && docker.log == old(docker.log)
  {
    var remaining := UpOf(before);
    UpIsDistinct(before);
    failures, restored, watched := [], [], [];
    ghost var done: seq<Container> := [];
    while remaining != []
      invariant Restoration(before, old(docker.world), old(docker.log), docker.world, docker.log, failures, restored, watched,
                            done, remaining, docker.steady)
      decreases |remaining|
    {
      var next := FirstFree(remaining, 0);
      if next.None? {
        failures := failures + [DependencyLoop];
        StuckHasLoop(UpOf(before), remaining);
        return;
      }
      failures, restored, watched := RestoreStep(docker, before, failures, restored, watched, done, remaining, next.value,
                                                 old(docker.world), old(docker.log));
      done, remaining := done + [remaining[next.value]], Without(remaining, next.value);
    }
    OrderHasNoLoop(UpOf(before), done);
    if failures == [] && docker.steady {
      TracedIsFallen(before, old(docker.world), docker.world, Ids(restored), done);
    }
  }

  // ----- The end of a rollback -----

  /** Every predecessor that was up was seen running in this rollback. */
  ghost predicate AllSeenRunning(before: seq<Container>, watched: seq<Container>) {
    forall c | c in UpOf(before) :: SeenRunning(watched, c.id)
  }

  /** Those that were up run again, except exactly the jobs that restarted predecessors wait for: these have completed. */
  ghost predicate RunAgain(before: seq<Container>, restarted: set<Id>, world: World) {
    forall c | c in UpOf(before) ::
      && c.id in world && Kept(before, restarted, c, world[c.id])
      && (IsRunning(world[c.id]) <==> !AwaitedAsJob(before, restarted, c.service))
  }

  /** Only these containers may have changed. */
  ghost predicate OnlyThese(w: World, next: World, ids: set<Id>) {
    next.Keys == w.Keys && forall id | id in w && id !in ids :: next[id] == w[id]
  }

  ghost predicate RunningUpTo(world: World, restored: seq<Container>, n: nat)
    requires n <= |restored|
  {
    forall k | 0 <= k < n :: restored[k].id in world && IsRunning(world[restored[k].id])
  }

  ghost predicate WatchedUpTo(watched: seq<Container>, restored: seq<Container>, n: nat)
    requires n <= |restored|
  {
    forall k | 0 <= k < n :: SeenRunning(watched, restored[k].id)
  }

  lemma RestoredAreSeen(before: seq<Container>, w: World, restored: seq<Container>, watched: seq<Container>,
      more: seq<Container>, steady: bool)
    requires Accounted(before, w, Ids(restored), watched, UpOf(before), steady) && WatchedUpTo(more, restored, |restored|)
    ensures AllSeenRunning(before, watched + more)
  {
    forall c | c in UpOf(before)
      ensures SeenRunning(watched + more, c.id)
    {
      if c.id in Ids(restored) {
        var k :| 0 <= k < |restored| && restored[k].id == c.id;
        var s :| s in more && s.id == restored[k].id && IsRunning(s);
        assert s in watched + more;
      } else {
        SeenRunningGrows(watched, watched + more, c.id);
      }
    }
  }

  lemma RestoredRunAgain(before: seq<Container>, w: World, next: World, restored: seq<Container>, watched: seq<Container>)
    requires Accounted(before, w, Ids(restored), watched, UpOf(before), true) && JobsDone(before, Ids(restored), next)
    requires OnlyThese(w, next, Ids(restored)) && RunningUpTo(next, restored, |restored|)
    ensures RunAgain(before, Ids(restored), next)
  {
    forall c | c in UpOf(before)
      ensures c.id in next && Kept(before, Ids(restored), c, next[c.id])
      ensures IsRunning(next[c.id]) <==> !AwaitedAsJob(before, Ids(restored), c.service)
    {
      if c.id in Ids(restored) {
        var k :| 0 <= k < |restored| && restored[k].id == c.id;
      }
      if AwaitedAsJob(before, Ids(restored), c.service) {
        var p :| p in before && p.id in Ids(restored) && Dependency(c.service, Completed) in p.dependencies;
        assert IsJobOf(before, p, c);
      }
    }
  }

  lemma OneMoreRunning(w0: World, w: World, next: World, restored: seq<Container>, n: nat)
    requires DistinctIds(restored) && n < |restored| && OnlyThese(w0, w, Ids(restored)) && OnlyStateOf(w, next, restored[n].id)
    ensures OnlyThese(w0, next, Ids(restored))
    ensures RunningUpTo(w, restored, n) && restored[n].id in next && IsRunning(next[restored[n].id])
            ==> RunningUpTo(next, restored, n + 1)
  {
    assert restored[n].id in Ids(restored);
  }

  lemma OneMoreWatched(watched: seq<Container>, restored: seq<Container>, n: nat, c: Container)
    requires n < |restored| && WatchedUpTo(watched, restored, n) && c.id == restored[n].id && IsRunning(c)
    ensures WatchedUpTo(watched + [c], restored, n + 1)
  {
    forall k | 0 <= k < n + 1
      ensures SeenRunning(watched + [c], restored[k].id)
    {
      if k < n {
        SeenRunningGrows(watched, watched + [c], restored[k].id);
      } else {
        assert c in watched + [c];
      }
    }
  }

  /** The last loop of `rollback`: every restarted predecessor has to be seen ready. */
  method AwaitRestored(docker: Docker, restored: seq<Container>) returns (failures: seq<Failure>, ghost watched: seq<Container>)
    requires WellKeyed(docker.world) && DistinctIds(restored)
    modifies docker`world, docker`seen
    ensures WellKeyed(docker.world) && TimePasses(old(docker.world), docker.world) && DependencyLoop !in failures
    ensures failures == [] ==> WatchedUpTo(watched, restored, |restored|)
    ensures docker.steady ==> OnlyThese(old(docker.world), docker.world, Ids(restored))
    ensures docker.steady && failures == [] ==> RunningUpTo(docker.world, restored, |restored|)
    ensures restored == [] ==> failures == [] && docker.world == old(docker.world)
  {
    failures, watched := [], [];
    for i := 0 to |restored|
      invariant WellKeyed(docker.world) && TimePasses(old(docker.world), docker.world) && DependencyLoop !in failures
      invariant failures == [] ==> WatchedUpTo(watched, restored, i)
      invariant docker.steady ==> OnlyThese(old(docker.world), docker.world, Ids(restored))
      invariant docker.steady && failures == [] ==> RunningUpTo(docker.world, restored, i)
      invariant i == 0 ==> failures == [] && docker.world == old(docker.world)
    {
      ghost var w := docker.world;
      var r := docker.WaitReady(restored[i], None);
      if docker.steady {
        OneMoreRunning(old(docker.world), w, docker.world, restored, i);
      }
      if r.None? {
        failures := failures + [NotReady(restored[i].id)];
      } else {
        if failures == [] { OneMoreWatched(watched, restored, i, r.value); }
        watched := watched + [r.value];
      }
    }
  }

  /** Whoever was up is still there. */
  lemma AllAreLeft(before: seq<Container>, w: World, restored: seq<Container>, watched: seq<Container>, steady: bool)
    requires Accounted(before, w, Ids(restored), watched, UpOf(before), steady)
    ensures forall c | c in before && WasUp(c) :: c.id in w
  {}

  /** What follows the clearing. */
  method RestoreCleared(docker: Docker, before: seq<Container>) returns (failures: seq<Failure>, ghost watched: seq<Container>)
    requires Restoring(before, docker.world)
    modifies docker`world, docker`log, docker`seen
    ensures Restoring(before, docker.world) && docker.world.Keys == old(docker.world).Keys
    ensures Respects(before, docker.steady, old(docker.log), docker.log)
    ensures failures == [] ==> AllSeenRunning(before, watched) && forall c | c in before && WasUp(c) :: c.id in docker.world
    ensures failures == [] && docker.steady ==> RunAgain(before, Fallen(before, old(docker.world)), docker.world)
    ensures DependencyLoop in failures <==> HasLoop(UpOf(before))
    ensures AllRun(UpOf(before), old(docker.world)) && !HasLoop(UpOf(before)) ==>
              failures == [] && docker.world == old(docker.world) && docker.log == old(docker.log)
  {
    var restored, late;
    ghost var more;
    failures, restored, watched := RestoreAll(docker, before);
    ghost var w := docker.world;
    late, more := AwaitRestored(docker, restored);
    TimeKeepsRestoring(before, w, docker.world);
    TimeKeepsJobsDone(before, Ids(restored), w, docker.world);
    failures := failures + late;
    if failures == [] {
      AllAreLeft(before, w, restored, watched, docker.steady);
      RestoredAreSeen(before, w, restored, watched, more, docker.steady);
      if docker.steady {
        RestoredRunAgain(before, w, docker.world, restored, watched);
      }
    }
    watched := watched + more;
  }

  /** Clearing leaves the predecessors that were up as they were. */
  lemma SparesFallen(before: seq<Container>, w: World, next: World)
    requires Spares(before, w, next)
    ensures Fallen(before, next) == Fallen(before, w) && (AllRun(UpOf(before), w) ==> AllRun(UpOf(before), next))
  {}

  /**
  `rollback`. On success only predecessors are left, those that were up were seen running and
  the others are down. A predecessor that was not up and has vanished is not noticed, so all of
  them are left exactly when none of those had vanished. In a steady engine those that were up
  still run, except exactly the ones whose completion is awaited by a predecessor that was up
  and did not run at the call. When all that were up run, nothing but a loop or an engine
  failure makes it fail, and they are left alone.
  */
  method Rollback(docker: Docker, before: seq<Container>) returns (failures: seq<Failure>, ghost watched: seq<Container>)
    requires WellKeyed(docker.world) && DistinctIds(before)
    modifies docker
    ensures WellKeyed(docker.world) && Respects(before, docker.steady, old(docker.log), docker.log)
    ensures failures == [] ==> docker.world.Keys == old(docker.world).Keys * Ids(before)
    ensures failures == [] ==> AllSeenRunning(before, watched) && Down(before, docker.world)
    ensures failures == [] && docker.steady ==> RunAgain(before, Fallen(before, old(docker.world)), docker.world)
    ensures failures == [] ==>
              (docker.world.Keys == Ids(before) <==> forall c | c in before && !WasUp(c) :: c.id in old(docker.world))
    ensures DependencyLoop in failures ==> HasLoop(UpOf(before))
    ensures failures == [] ==> !HasLoop(UpOf(before))
    ensures docker.reliable && !HasLoop(UpOf(before)) && AllRun(UpOf(before), old(docker.world)) ==>
              failures == [] && StartsNothing(old(docker.log), docker.log)
              && forall c | c in UpOf(before) :: c.id in docker.world && docker.world[c.id] == old(docker.world)[c.id]
  {
    docker.seen := [];
    failures := Clear(docker, before);
    watched := [];
    if failures == [] {
      SparesFallen(before, old(docker.world), docker.world);
      failures, watched := RestoreCleared(docker, before);
    }
  }

  /**
  An attempt that is rolled back leaves the containers it found. `left` is the world that the
  attempt left behind: there the rollback decides whom to restart.
  */
  method ApplyThenRollback(docker: Docker, plan: seq<ServicePlan>, ingress: string)
    returns (applied: bool, failures: seq<Failure>, before: seq<Container>, ghost watched: seq<Container>, ghost left: World)
    requires DistinctNames(plan) && WellKeyed(docker.world)
    modifies docker
    ensures ListsAll(old(docker.world), before) && Evolves(old(docker.world), left)
    ensures Settled(plan, old(docker.world)) && JobsMarked(plan) ==> left == old(docker.world)
    ensures failures == [] ==>
              docker.world.Keys == old(docker.world).Keys && AllSeenRunning(before, watched) && Down(before, docker.world)
    ensures failures == [] && docker.steady ==> RunAgain(before, Fallen(before, left), docker.world)
    ensures docker.reliable && !HasLoop(UpOf(before)) && AllRun(UpOf(before), left) ==> failures == []
  {
    before := docker.List();
    var rollout := new Pending(docker, plan, ingress);
    applied := rollout.Apply();
    left := docker.world;
    failures, watched := Rollback(docker, before);
  }

  // ----- A predecessor that has vanished -----

  /** The rollback of a world without the only predecessor, which was not up, reports nothing. */
  method VanishedIsNotNoticed() returns (failures: seq<Failure>, docker: Docker)
    ensures failures == [] && docker.world == map[]
  {
    docker := new Docker(map[], true, true);
    var before := [SampleContainer("job", Exited, [])];
    assert UpOf(before) == [];
    ghost var watched;
    failures, watched := Rollback(docker, before);
  }

  // ----- A job that completes for its consumer -----

  function SampleContainer(name: string, state: State, deps: seq<Dependency>): Container {
    Container(name, name, Generation(name, 0, "f"), 0, "f", state, NoCheck, 0, 0, {}, deps)
  }

  function SampleBefore(): seq<Container> {
    [SampleContainer("job", Running, []), SampleContainer("web", Running, [Dependency("job", Completed)])]
  }

  function SampleWorld(job: State, web: State): World {
    map["job" := SampleContainer("job", job, []), "web" := SampleContainer("web", web, [Dependency("job", Completed)])]
  }

  // A job stayed running and its consumer did not.
  const JOB_RUNS: World := SampleWorld(Running, Exited)
  const JOB_DONE: World := SampleWorld(Exited, Exited)
  const WEB_RUNS: World := SampleWorld(Exited, Running)

  lemma SingleProvider(before: seq<Container>, seen: seq<Container>, dep: Dependency, k: nat)
    requires k < |before| && WasSeen(seen, before[k].id, dep.condition)
    requires forall j | 0 <= j < |before| :: Offers(before[j], dep.service) <==> j == k
    ensures ProvidersSeen(before, seen, dep)
  {
    assert before[k] in before;
  }

  lemma JobWasSeen()
    ensures var before, deps := SampleBefore(), SampleBefore()[1].dependencies;
            AllProvidersSeen(before, [JOB_DONE["job"]], deps) && AllProvidersMet(before, JOB_DONE, deps, true)
  {
    var before, seen := SampleBefore(), [JOB_DONE["job"]];
    assert JOB_DONE["job"] in seen && WasSeen(seen, "job", Completed);
    SingleProvider(before, seen, before[1].dependencies[0], 0);
  }

  lemma SampleIsCleared()
    ensures Cleared(SampleBefore(), JOB_DONE)
  {
    assert SampleBefore()[0] in SampleBefore() && SampleBefore()[1] in SampleBefore();
    assert Ids(SampleBefore()) == {"job", "web"};
  }

  /** The consumer has to wait until the job completes, and may be started then. */
  lemma ConsumerWaitsForJob()
    ensures Observe(JOB_RUNS["job"], Some(Completed)).Again? && Observe(JOB_DONE["job"], Some(Completed)).Pass?
    ensures TimePasses(JOB_RUNS, JOB_DONE) && OnlyStateOf(JOB_RUNS, JOB_DONE, "job")
    ensures Permitted(SampleBefore(), true, StartCommand("web", JOB_DONE, [JOB_DONE["job"]]))
  {
    JobWasSeen();
    SampleIsCleared();
    assert SampleBefore()[1] in SampleBefore() && WasUp(SampleBefore()[1]) && "web" in JOB_DONE;
  }

  /** So the rollback can succeed and end with the job, which was running all along, no longer running. */
  lemma JobCompletesForConsumer()
    ensures OnlyStateOf(JOB_DONE, WEB_RUNS, "web") && Observe(WEB_RUNS["web"], None).Pass?
    ensures RunAgain(SampleBefore(), Fallen(SampleBefore(), JOB_RUNS), WEB_RUNS) && Down(SampleBefore(), WEB_RUNS)
    ensures IsRunning(SampleBefore()[0]) && IsRunning(JOB_RUNS["job"]) && !IsRunning(WEB_RUNS["job"])
  {
    var before := SampleBefore();
    assert before[1] in before && before[1].dependencies[0] == Dependency("job", Completed);
    assert before[0] in before && Fallen(before, JOB_RUNS) == {"web"};
    assert AwaitedAsJob(before, {"web"}, "job") && !AwaitedAsJob(before, {"web"}, "web");
  }

  // ----- A dependency that leaves its condition -----

  function PairBefore(): seq<Container> {
    [PairContainer("a", Running, []), PairContainer("b", Running, []), PairContainer("web", Running, TWO_STARTED)]
  }

  lemma PairWasSeen()
    ensures AllProvidersSeen(PairBefore(), PAIR_SEEN, TWO_STARTED)
  {
    assert PAIR_FIRST["a"] in PAIR_SEEN && WasSeen(PAIR_SEEN, "a", Condition.Started);
    assert PAIR_SECOND["b"] in PAIR_SEEN && WasSeen(PAIR_SEEN, "b", Condition.Started);
    SingleProvider(PairBefore(), PAIR_SEEN, TWO_STARTED[0], 0);
    SingleProvider(PairBefore(), PAIR_SEEN, TWO_STARTED[1], 1);
  }

  lemma LastOfPairIsMet()
    ensures AllProvidersMet(PairBefore(), PAIR_SECOND, TWO_STARTED, false)
  {}

  lemma PairIsCleared()
    ensures Cleared(PairBefore(), PAIR_SECOND)
  {
    var before := PairBefore();
    assert before[0] in before && before[1] in before && before[2] in before;
    assert Ids(before) == {"a", "b", "web"};
  }

  /** As in an update, a start can be one that the rollback may give although a dependency has left its condition. */
  lemma ProviderMayBeGone()
    ensures Permitted(PairBefore(), false, StartCommand("web", PAIR_SECOND, PAIR_SEEN))
    ensures !Meets(PAIR_SECOND, "a", Condition.Started)
  {
    PairWasSeen();
    LastOfPairIsMet();
    PairIsCleared();
    DependencyExitsWhileAwaiting();
    assert PairBefore()[2] in PairBefore() && WasUp(PairBefore()[2]) && "web" in PAIR_SECOND;
  }
}
