/**
The service planner (tako-compose/src/plan.rs): completed jobs and the depth-first
order of services.
*/
module Planner {
  import opened Results

  datatype UpdateOrder = StartFirst | StopFirst
  datatype Condition = Started | Healthy | Completed
  datatype Dependency = Dependency(service: string, condition: Condition)

  datatype ServicePlan = ServicePlan(
    name: string,
    fingerprint: string,
    replicas: nat,
    order: UpdateOrder,
    dependencies: seq<Dependency>,
    completed: bool)

  datatype Error = UnknownDependency | ZeroReplicas | DependencyCycle | IngressCompleted

  type Plans = map<string, ServicePlan>

  // ----- Well-formed dependency graphs -----

  predicate DependsOn(plans: Plans, service: string, dependency: string) {
    service in plans && exists d | d in plans[service].dependencies :: d.service == dependency
  }

  /** Every dependency is a planned service with at least one replica. */
  ghost predicate Closed(plans: Plans) {
    forall s, d | DependsOn(plans, s, d) :: d in plans && plans[d].replicas > 0
  }

  /** Each service of `path` depends on the next one. */
  ghost predicate IsPath(plans: Plans, path: seq<string>) {
    forall i | 0 < i < |path| :: DependsOn(plans, path[i - 1], path[i])
  }

  ghost predicate IsCycle(plans: Plans, cycle: seq<string>) {
    cycle != [] && IsPath(plans, cycle) && DependsOn(plans, cycle[|cycle| - 1], cycle[0])
  }

  ghost predicate Acyclic(plans: Plans) { !exists cycle :: IsCycle(plans, cycle) }

  ghost predicate WellFormed(plans: Plans) { Closed(plans) && Acyclic(plans) }

  // ----- Orders -----

  /** No name twice, and every dependency of a listed service is listed before it. */
  ghost predicate Ordered(plans: Plans, names: seq<string>) {
    && (forall i, j | 0 <= i < j < |names| :: names[i] != names[j])
    && (forall i | 0 <= i < |names| :: names[i] in plans)
    && (forall i | 0 <= i < |names| :: Satisfied(plans, names[..i], names[i]))
  }

  /** Every dependency of `service` is among `earlier`, planned with at least one replica. */
  ghost predicate Satisfied(plans: Plans, earlier: seq<string>, service: string) {
    forall d | DependsOn(plans, service, d) :: d in earlier && d in plans && plans[d].replicas > 0
  }

  lemma {:induction false} PathDescends(plans: Plans, names: seq<string>, path: seq<string>, i: nat, at: nat) returns (end: nat)
    requires Ordered(plans, names) && IsPath(plans, path) && i < |path| && at < |names| && names[at] == path[i]
    ensures end <= at && names[end] == path[|path| - 1]
    ensures i + 1 < |path| ==> end < at
    decreases |path| - i
  {
    if i + 1 == |path| {
      end := at;
    } else {
      assert DependsOn(plans, names[at], path[i + 1]);
      assert Satisfied(plans, names[..at], names[at]);
      var next :| 0 <= next < at && names[next] == path[i + 1];
      end := PathDescends(plans, names, path, i + 1, next);
    }
  }

  /** A complete order leaves no room for a cycle. */
  lemma OrderedIsAcyclic(plans: Plans, names: seq<string>)
    requires Ordered(plans, names) && forall s | s in plans :: s in names
    ensures WellFormed(plans)
  {
    forall s, d | DependsOn(plans, s, d)
      ensures d in plans && plans[d].replicas > 0
    {
      var i :| 0 <= i < |names| && names[i] == s;
      assert Satisfied(plans, names[..i], names[i]);
    }
    if cycle :| IsCycle(plans, cycle) {
      assert cycle[0] in plans by {
        if |cycle| > 1 { assert DependsOn(plans, cycle[0], cycle[1]); }
      }
      var at :| 0 <= at < |names| && names[at] == cycle[0];
      var end := PathDescends(plans, names, cycle, 0, at);
      assert Satisfied(plans, names[..end], names[end]);
    }
  }

  lemma OrderedSnoc(plans: Plans, names: seq<string>, name: string)
    requires Ordered(plans, names) && name in plans && name !in names
    requires Satisfied(plans, names, name)
    ensures Ordered(plans, names + [name])
  {
    var longer := names + [name];
    forall i | 0 <= i < |longer|
      ensures Satisfied(plans, longer[..i], longer[i])
    {
      assert longer[..i] == names[..i];
      assert names[..|names|] == names;
      assert i < |names| ==> Satisfied(plans, names[..i], names[i]);
    }
  }

  // ----- The depth-first visit -----

  lemma ClosesCycle(plans: Plans, path: seq<string>, name: string)
    requires IsPath(plans, path) && name in path && DependsOn(plans, path[|path| - 1], name)
    ensures !WellFormed(plans)
  {
    var start :| 0 <= start < |path| && path[start] == name;
    assert IsCycle(plans, path[start..]);
  }

  class Visitor {
    const plans: Plans
    var visiting: set<string>
    var visited: set<string>
    var ordered: seq<string>
    /** The chain of services being visited, outermost first. */
    ghost var path: seq<string>

    ghost predicate Valid()
      reads this
    {
      && Ordered(plans, ordered)
      && (forall s :: s in visited <==> s in ordered)
      && IsPath(plans, path)
      && (forall s :: s in visiting <==> s in path)
      && visiting <= plans.Keys
      && visiting !! visited
    }

    constructor (plans: Plans)
      ensures Valid() && this.plans == plans && path == [] && ordered == []
    {
      this.plans := plans;
      visiting, visited, ordered, path := {}, {}, [], [];
    }

    /** `visit`: succeeds with `name` listed behind its dependencies, or the graph is not well-formed. */
    method Visit(name: string) returns (error: Option<Error>)
      requires Valid()
      requires if path == [] then name in plans else DependsOn(plans, path[|path| - 1], name)
      modifies this
      ensures error.None? ==> Valid() && path == old(path) && name in visited && old(ordered) <= ordered
      ensures error.Some? ==> !WellFormed(plans)
      decreases plans.Keys - visiting
    {
      if name in visited {
        return None;
      }
      if name in visiting {
        ClosesCycle(plans, path, name);
        return Some(DependencyCycle);
      }
      if name !in plans {
        return Some(UnknownDependency);
      }
      visiting := visiting + {name};
      path := path + [name];
      var dependencies := plans[name].dependencies;
      for i := 0 to |dependencies|
        invariant Valid() && path == old(path) + [name] && old(ordered) <= ordered
        invariant forall k | 0 <= k < i :: dependencies[k].service in visited && dependencies[k].service in plans
                                           && plans[dependencies[k].service].replicas > 0
      {
        var dependency := dependencies[i].service;
        assert DependsOn(plans, name, dependency);
        if dependency !in plans {
          return Some(UnknownDependency);
        }
        if plans[dependency].replicas == 0 {
          return Some(ZeroReplicas);
        }
        error := Visit(dependency);
        if error.Some? {
          return;
        }
      }
      OrderedSnoc(plans, ordered, name);
      visiting := visiting - {name};
      visited := visited + {name};
      path := old(path);
      ordered := ordered + [name];
      error := None;
    }
  }

  // ----- Completed jobs and the whole plan -----

  /** Some service waits for `name` to complete. */
  predicate IsJob(plans: Plans, name: string) {
    exists s | s in plans :: Dependency(name, Completed) in plans[s].dependencies
  }

  /** A completed job never overlaps its predecessor. */
  function Marked(plans: Plans): Plans {
    map n | n in plans :: if IsJob(plans, n) then plans[n].(completed := true, order := StopFirst) else plans[n]
  }

  lemma MarkedSameGraph(plans: Plans)
    ensures WellFormed(Marked(plans)) <==> WellFormed(plans)
  {
    assert forall s, d :: DependsOn(Marked(plans), s, d) <==> DependsOn(plans, s, d);
    assert forall path :: IsPath(Marked(plans), path) <==> IsPath(plans, path);
    assert forall cycle :: IsCycle(Marked(plans), cycle) <==> IsCycle(plans, cycle);
  }

  ghost predicate Lists(plans: Plans, names: seq<string>) {
    && (forall n :: n in names <==> n in plans)
    && (forall i, j | 0 <= i < j < |names| :: names[i] != names[j])
  }

  method Order(plans: Plans, names: seq<string>) returns (r: Result<seq<string>, Error>)
    requires forall n :: n in names <==> n in plans
    ensures r.Ok? <==> WellFormed(plans)
    ensures r.Ok? ==> Lists(plans, r.value) && Ordered(plans, r.value)
  {
    var visitor := new Visitor(plans);
    for i := 0 to |names|
      invariant visitor.Valid() && visitor.path == [] && visitor.plans == plans
      invariant forall k | 0 <= k < i :: names[k] in visitor.ordered
    {
      var error := visitor.Visit(names[i]);
      if error.Some? {
        return Err(error.value);
      }
    }
    OrderedIsAcyclic(plans, visitor.ordered);
    r := Ok(visitor.ordered);
  }

  /**
  The part of `Plan::new` after the services are read: succeeds exactly on closed,
  acyclic graphs whose HTTP ingress is no completed job, with every service once and
  behind its dependencies.
  */
  method NewPlan(plans: Plans, names: seq<string>, ingress: string) returns (r: Result<seq<ServicePlan>, Error>)
    requires Lists(plans, names) && forall n | n in plans :: plans[n].name == n
    ensures r.Ok? <==> WellFormed(plans) && !(ingress in plans && IsJob(plans, ingress))
    ensures r.Ok? ==> IsPlanOf(plans, r.value)
  {
    var jobs := set s, d | s in plans && d in plans[s].dependencies && d.condition.Completed? :: d.service;
    assert forall n :: n in jobs <==> IsJob(plans, n) by {
      forall n
        ensures n in jobs <==> IsJob(plans, n)
      {
        if n in jobs {
          var s, d :| s in plans && d in plans[s].dependencies && d.condition.Completed? && d.service == n;
          assert d == Dependency(n, Completed);
        }
      }
    }
    if exists job | job in jobs :: job !in plans {
      ghost var job :| job in jobs && job !in plans;
      ghost var s :| s in plans && Dependency(job, Completed) in plans[s].dependencies;
      assert DependsOn(plans, s, job);
      return Err(UnknownDependency);
    }
    if ingress in jobs {
      return Err(IngressCompleted);
    }
    var marked := Marked(plans);
    MarkedSameGraph(plans);
    var ordered := Order(marked, names);
    if ordered.Err? {
      return Err(ordered.error);
    }
    var services := seq(|ordered.value|, i requires 0 <= i < |ordered.value| => marked[ordered.value[i]]);
    assert IsListing(plans, ordered.value, services);
    r := Ok(services);
  }

  ghost predicate IsListing(plans: Plans, names: seq<string>, services: seq<ServicePlan>) {
    && Lists(plans, names) && Ordered(Marked(plans), names)
    && |services| == |names|
    && forall i | 0 <= i < |names| :: services[i] == Marked(plans)[names[i]]
  }

  /** Each planned service exactly once, marked if it is a job, behind its dependencies. */
  ghost predicate IsPlanOf(plans: Plans, services: seq<ServicePlan>) {
    exists names :: IsListing(plans, names, services)
  }

  // ----- What the rollout relies on -----

  /** Distinct names, and every dependency earlier with at least one replica. */
  ghost predicate DependenciesFirst(services: seq<ServicePlan>) {
    && (forall i, j | 0 <= i < j < |services| :: services[i].name != services[j].name)
    && (forall i | 0 <= i < |services| :: Provided(services, i))
  }

  ghost predicate Provided(services: seq<ServicePlan>, i: nat)
    requires i < |services|
  {
    forall d | d in services[i].dependencies ::
      exists j | 0 <= j < i :: services[j].name == d.service && services[j].replicas > 0
  }

  lemma ListedDependency(plans: Plans, names: seq<string>, services: seq<ServicePlan>, i: nat, d: Dependency) returns (j: nat)
    requires IsListing(plans, names, services) && forall n | n in plans :: plans[n].name == n
    requires i < |services| && d in services[i].dependencies
    ensures j < i && services[j].name == d.service && services[j].replicas > 0
  {
    assert DependsOn(Marked(plans), names[i], d.service);
    assert Satisfied(Marked(plans), names[..i], names[i]);
    j :| 0 <= j < i && names[..i][j] == d.service;
  }

  lemma ListedNames(plans: Plans, names: seq<string>, services: seq<ServicePlan>)
    requires IsListing(plans, names, services) && forall n | n in plans :: plans[n].name == n
    ensures forall i | 0 <= i < |names| :: services[i].name == names[i]
  {}

  lemma PlanPutsDependenciesFirst(plans: Plans, services: seq<ServicePlan>)
    requires IsPlanOf(plans, services) && forall n | n in plans :: plans[n].name == n
    ensures DependenciesFirst(services)
  {
    var names :| IsListing(plans, names, services);
    ListedNames(plans, names, services);
    forall i | 0 <= i < |services|
      ensures Provided(services, i)
    {
      forall d | d in services[i].dependencies
        ensures exists j | 0 <= j < i :: services[j].name == d.service && services[j].replicas > 0
      {
        var j := ListedDependency(plans, names, services, i, d);
      }
    }
  }
}
