/**
The order in which `rollback` takes the predecessors (tako-compose/src/rollout.rs): each
after those it needs, unless they need each other in a loop.
*/
module RestoreOrder {
  import opened Results
  import opened Planner
  import opened Engine

  /** The states that `rollback` brings back. */
  predicate WasUp(c: Container) { c.state.Running? || c.state.Restarting? }

  /** What a predecessor's dependency may rely on. */
  predicate Provides(c: Container) { WasUp(c) || IsCompleted(c) }

  predicate Offers(c: Container, name: string) { c.service == name && Provides(c) }

  ghost function Ids(before: seq<Container>): set<Id> { set c | c in before :: c.id }

  lemma SameId(before: seq<Container>, c: Container, d: Container)
    requires DistinctIds(before) && c in before && d in before && c.id == d.id
    ensures c == d
  {}

  function UpOf(before: seq<Container>): (up: seq<Container>)
    ensures forall c :: c in up <==> c in before && WasUp(c)
    ensures |up| <= |before|
  {
    if before == [] then []
    else if WasUp(before[0]) then [before[0]] + UpOf(before[1..])
    else UpOf(before[1..])
  }

  // ----- The predecessors' dependency graph -----

  predicate Needs(c: Container, d: Container) { exists dep | dep in c.dependencies :: dep.service == d.service }

  /** Predecessors, each needing the next. */
  ghost predicate IsChain(up: seq<Container>, chain: seq<Container>) {
    && (forall i | 0 <= i < |chain| :: chain[i] in up)
    && (forall i | 0 <= i < |chain| - 1 :: Needs(chain[i], chain[i + 1]))
  }

  ghost predicate IsLoop(up: seq<Container>, loop: seq<Container>) {
    loop != [] && IsChain(up, loop) && Needs(loop[|loop| - 1], loop[0])
  }

  ghost predicate HasLoop(up: seq<Container>) { exists loop :: IsLoop(up, loop) }

  predicate Blocked(c: Container, remaining: seq<Container>) { exists d | d in remaining :: Needs(c, d) }

  ghost predicate AllBlocked(nodes: seq<Container>) {
    forall c {:trigger Blocked(c, nodes)} | c in nodes :: Blocked(c, nodes)
  }

  /** `done` never needs anything that comes at or after it. */
  ghost predicate InOrder(done: seq<Container>, remaining: seq<Container>) {
    && (forall i, j | 0 <= i <= j < |done| :: !Needs(done[i], done[j]))
    && (forall c, d | c in done && d in remaining :: !Needs(c, d))
  }

  lemma {:induction false} LoopDescends(done: seq<Container>, loop: seq<Container>, i: nat, at: nat) returns (end: nat)
    requires InOrder(done, []) && IsLoop(done, loop) && i < |loop| && at < |done| && done[at] == loop[i]
    ensures end <= at && end < |done| && done[end] == loop[|loop| - 1]
    decreases |loop| - i
  {
    if i + 1 == |loop| {
      end := at;
    } else {
      assert loop[i + 1] in done;
      var next :| 0 <= next < |done| && done[next] == loop[i + 1];
      assert Needs(loop[i], loop[i + 1]);
      end := LoopDescends(done, loop, i + 1, next);
    }
  }

  /** A complete order leaves no room for a loop. */
  lemma OrderHasNoLoop(up: seq<Container>, done: seq<Container>)
    requires InOrder(done, []) && forall c | c in up :: c in done
    ensures !HasLoop(up)
  {
    if loop :| IsLoop(up, loop) {
      assert loop[0] in done && IsLoop(done, loop);
      var at :| 0 <= at < |done| && done[at] == loop[0];
      var end := LoopDescends(done, loop, 0, at);
    }
  }

  lemma TailIsLoop(nodes: seq<Container>, path: seq<Container>, start: nat)
    requires IsChain(nodes, path) && start < |path| && Needs(path[|path| - 1], path[start])
    ensures HasLoop(nodes)
  {
    assert IsLoop(nodes, path[start..]);
  }

  lemma {:induction false} WalkCloses(nodes: seq<Container>, path: seq<Container>, left: set<Container>)
    requires AllBlocked(nodes)
    requires path != [] && IsChain(nodes, path) && forall c | c in nodes :: c in path || c in left
    ensures HasLoop(nodes)
    decreases |left|
  {
    var last := path[|path| - 1];
    assert Blocked(last, nodes);
    var next :| next in nodes && Needs(last, next);
    if next in path {
      var start :| 0 <= start < |path| && path[start] == next;
      TailIsLoop(nodes, path, start);
    } else {
      assert next in left;
      WalkCloses(nodes, path + [next], left - {next});
    }
  }

  /** When nothing can go next, there is a loop. */
  lemma StuckHasLoop(up: seq<Container>, remaining: seq<Container>)
    requires remaining != [] && AllBlocked(remaining) && forall c | c in remaining :: c in up
    ensures HasLoop(up)
  {
    WalkCloses(remaining, [remaining[0]], set c | c in remaining);
    var loop :| IsLoop(remaining, loop);
    assert IsLoop(up, loop);
  }

  /** The first predecessor that needs none of the others. */
  function FirstFree(remaining: seq<Container>, from: nat): (r: Option<nat>)
    requires from <= |remaining|
    ensures r.Some? ==> r.value < |remaining| && !Blocked(remaining[r.value], remaining)
    ensures r.None? ==> forall i | from <= i < |remaining| :: Blocked(remaining[i], remaining)
    decreases |remaining| - from
  {
    if from == |remaining| then None
    else if !Blocked(remaining[from], remaining) then Some(from)
    else FirstFree(remaining, from + 1)
  }

  function Without(cs: seq<Container>, i: nat): seq<Container>
    requires i < |cs|
  {
    cs[..i] + cs[i + 1..]
  }

  /** `done` and `remaining` divide the predecessors, in an order that respects their needs. */
  ghost predicate Scheduled(up: seq<Container>, done: seq<Container>, remaining: seq<Container>) {
    && InOrder(done, remaining) && DistinctIds(remaining)
    && (forall c :: c in up <==> c in done || c in remaining)
    && (forall c, d | c in done && d in remaining :: c.id != d.id)
  }

  lemma WithoutKeeps(cs: seq<Container>, i: nat)
    requires i < |cs| && DistinctIds(cs)
    ensures DistinctIds(Without(cs, i))
    ensures forall c :: c in cs <==> c == cs[i] || c in Without(cs, i)
    ensures forall c | c in Without(cs, i) :: c.id != cs[i].id
  {
    var rest := Without(cs, i);
    forall c | c in cs
      ensures c == cs[i] || c in rest
    {
      var k :| 0 <= k < |cs| && cs[k] == c;
      if k < i { assert rest[k] == c; } else if k > i { assert rest[k - 1] == c; }
    }
  }

  /** One step of the schedule. */
  lemma TakeNext(up: seq<Container>, done: seq<Container>, remaining: seq<Container>, i: nat)
    requires Scheduled(up, done, remaining) && i < |remaining| && !Blocked(remaining[i], remaining)
    ensures Scheduled(up, done + [remaining[i]], Without(remaining, i))
    ensures !Needs(remaining[i], remaining[i]) && remaining[i] in up
    ensures forall c | c in done :: c in up && c.id != remaining[i].id && !Needs(c, remaining[i])
  {
    WithoutKeeps(remaining, i);
  }
}
