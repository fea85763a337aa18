/**
Channel delivery: commits, watch notifications and the loop that serves one subscriber
(tako-channels/src/live_store.rs, mesh.rs and store.rs), as steps that may interleave in
any order.
*/
module Delivery {
  import opened Results
  import Scripts

  type Position = int

  const PAGE: nat := 100

  datatype Backend = Sqlite | Postgres

  /** The committed messages of one channel, some of them pruned, and the replay epoch. */
  datatype Store = Store(messages: seq<Position>, deleted: set<Position>, floor: Position, epoch: nat)

  /** A watch: the latest announced head and a version that counts the changes. */
  datatype Watch = Watch(value: Option<Position>, version: nat)

  datatype Phase =
    | Connecting
    | Subscribed
    | LoopTop
    | Marked
    | Checking(read: seq<Position>)
    | Emitting(page: seq<Position>, full: bool)
    | Blocked
    | Ended

  /**
  The store, the watches and one subscriber. The last six fields only record history: what
  was announced, the heads when the watch and the cursor were taken and at the last read,
  the value last marked as seen, and what was pruned before a read without a cursor.
  */
  datatype State = State(
    backend: Backend,
    store: Store,
    watch: Watch,
    resets: nat,
    phase: Phase,
    seen: nat,
    resetSeen: nat,
    after: Option<Position>,
    epoch: nat,
    emitted: seq<Position>,
    announced: set<Position>,
    base: Position,
    start: Position,
    known: Option<Position>,
    readHead: Position,
    skipped: set<Position>)

  datatype Action =
    | Commit(position: Position)
    | Prune(gone: set<Position>, floor: Position)
    | Invalidate
    | Announce(head: Position)
    | Hint
    | Gap
    | Forget
    | Subscribe
    | Capture
    | Mark
    | Read
    | Check
    | Emit
    | Turn
    | Changed
    | Timer
    | Reset
    | Leave

  function Head(store: Store): Position {
    if store.messages == [] then 0 else store.messages[|store.messages| - 1]
  }

  function Place(after: Option<Position>): Position { if after.Some? then after.value else 0 }

  /** The messages after a position, except some. */
  function Rest(messages: seq<Position>, after: Position, except: set<Position>): seq<Position> {
    if messages == [] then []
    else
      var rest := Rest(messages[..|messages| - 1], after, except);
      var last := messages[|messages| - 1];
      if last > after && last !in except then rest + [last] else rest
  }

  function Page(messages: seq<Position>): seq<Position> {
    if |messages| <= PAGE then messages else messages[..PAGE]
  }

  /** `notify_committed`: heads only move forward. */
  function Notified(watch: Watch, head: Position): Watch {
    if watch.value.None? || head > watch.value.value then Watch(Some(head), watch.version + 1) else watch
  }

  /** `resolve_replay_cursor(None, ..)`, and the SQLite cursor that always has a position. */
  function Captured(backend: Backend, store: Store): Option<Position> {
    if backend.Postgres? && store.messages == [] then None else Some(Head(store))
  }

  predicate Stale(s: State) {
    s.after.Some? && (s.epoch != s.store.epoch || s.after.value < s.store.floor || s.after.value > Head(s.store))
  }

  /** `read_after`: a read without a cursor does not look at the floor. */
  function ReadPage(s: State): seq<Position> {
    Page(Rest(s.store.messages, Place(s.after), if s.after.Some? then {} else s.store.deleted))
  }

  predicate Enabled(s: State, a: Action) {
    match a
    case Commit(p) => p > Head(s.store) && p > 0
    case Prune(gone, floor) =>
      (forall p | p in gone :: p in s.store.messages && p <= floor) && s.store.floor <= floor <= Head(s.store)
    case Invalidate => true
    case Announce(p) => p in s.store.messages
    case Hint => true
    case Gap => true
    case Forget => s.phase.Connecting?
    case Subscribe => s.phase.Connecting?
    case Capture => s.phase.Subscribed?
    case Mark => s.phase.LoopTop?
    case Read => s.phase.Marked?
    case Check => s.phase.Checking?
    case Emit => s.phase.Emitting? && s.phase.page != []
    case Turn => s.phase.Emitting? && s.phase.page == []
    case Changed => s.phase.Blocked? && s.seen != s.watch.version
    case Timer => s.phase.Blocked?
    case Reset => s.phase.Blocked? && s.resetSeen != s.resets
    case Leave => !s.phase.Ended?
  }

  function Apply(s: State, a: Action): State
    requires Enabled(s, a)
  {
    match a
    case Commit(p) => s.(store := s.store.(messages := s.store.messages + [p]))
    case Prune(gone, floor) => s.(store := s.store.(deleted := s.store.deleted + gone, floor := floor))
    case Invalidate =>
      s.(store := s.store.(epoch := s.store.epoch + if s.backend.Sqlite? then 1 else 0), resets := s.resets + 1)
    case Announce(p) => s.(watch := Notified(s.watch, p), announced := s.announced + {p})
    case Hint => s.(watch := s.watch.(version := s.watch.version + 1))
    case Gap => s.(resets := s.resets + 1)
    case Forget => s.(watch := Watch(None, 0))
    case Subscribe => s.(phase := Subscribed, seen := s.watch.version, known := s.watch.value, base := Head(s.store))
    case Capture =>
      s.(phase := LoopTop, after := Captured(s.backend, s.store), epoch := s.store.epoch, start := Head(s.store))
    case Mark => s.(phase := Marked, seen := s.watch.version, known := s.watch.value)
    case Read =>
      if Stale(s) then s.(phase := Ended)
      else
        s.(phase := Checking(ReadPage(s)), readHead := Head(s.store),
           skipped := if s.after.None? then s.store.deleted else s.skipped)
    case Check =>
      if s.resetSeen != s.resets then s.(phase := Ended)
      else s.(phase := Emitting(s.phase.read, |s.phase.read| == PAGE))
    case Emit =>
      var p := s.phase.page[0];
      s.(phase := Emitting(s.phase.page[1..], s.phase.full), after := Some(p), emitted := s.emitted + [p])
    case Turn => s.(phase := if s.phase.full then LoopTop else Blocked)
    case Changed => s.(phase := LoopTop, seen := s.watch.version, known := s.watch.value)
    case Timer => s.(phase := LoopTop)
    case Reset => s.(phase := Ended)
    case Leave => s.(phase := Ended)
  }

  // ----- Runs -----

  predicate Initial(s: State) {
    && s.phase.Connecting? && s.resetSeen == s.resets && s.emitted == [] && s.skipped == {}
    && StoreOk(s)
  }

  function Next(s: State, a: Action): State { if Enabled(s, a) then Apply(s, a) else s }

  /** Each action is enabled when it is its turn. */
  predicate Possible(s: State, actions: seq<Action>) { Scripts.Possible(Enabled, Next, s, actions) }

  function Run(s: State, actions: seq<Action>): State { Scripts.RunAll(Next, s, actions) }

  // ----- Invariant -----

  predicate StoreOk(s: State) {
    && (forall i, j | 0 <= i < j < |s.store.messages| :: s.store.messages[i] < s.store.messages[j])
    && (forall i | 0 <= i < |s.store.messages| :: s.store.messages[i] > 0)
    && 0 <= s.store.floor <= Head(s.store)
    && (forall p | p in s.store.deleted :: p in s.store.messages && p <= s.store.floor)
    && (forall p | p in s.announced :: p in s.store.messages)
    && (s.watch.value.Some? ==> s.watch.value.value in s.store.messages)
    && s.resetSeen <= s.resets
  }

  predicate WatchOk(s: State) {
    && s.seen <= s.watch.version && (s.seen == s.watch.version ==> s.known == s.watch.value)
    && (s.known.Some? ==> s.known.value <= Head(s.store))
    && (forall p | p in s.announced :: p <= s.base || (s.watch.value.Some? && p <= s.watch.value.value))
    && s.base <= Head(s.store)
  }

  /** What is still to be emitted. */
  function Owed(s: State): seq<Position> { Rest(s.store.messages, Place(s.after), s.skipped) }

  predicate CursorOk(s: State) {
    && s.base <= s.start <= Place(s.after) <= Head(s.store)
    && (s.after.None? ==> s.backend.Postgres? && s.start == 0 && s.emitted == [])
    && s.emitted + Owed(s) == Rest(s.store.messages, s.start, s.skipped)
  }

  predicate Covers(s: State, page: seq<Position>, full: bool) {
    && page <= Owed(s)
    && (s.known.Some? ==> s.known.value <= s.readHead) && s.readHead <= Head(s.store)
    && (!full ==> forall p | p in Owed(s) && p <= s.readHead :: p in page)
  }

  predicate PhaseOk(s: State) {
    match s.phase
    case Checking(read) => Covers(s, read, |read| == PAGE)
    case Emitting(page, full) => Covers(s, page, full)
    case Blocked => Covers(s, [], false)
    case _ => true
  }

  predicate Inv(s: State) {
    && StoreOk(s)
    && s.emitted <= Rest(s.store.messages, s.start, s.skipped)
    && (forall p | p in s.skipped :: p in s.store.deleted && s.backend.Postgres? && s.start == 0)
    && (s.phase.Connecting? ==> s.emitted == [] && s.skipped == {})
    && (s.phase.Subscribed? ==> WatchOk(s) && s.emitted == [] && s.skipped == {})
    && (Serving(s) ==> WatchOk(s) && CursorOk(s) && PhaseOk(s))
  }

  predicate Serving(s: State) { !s.phase.Connecting? && !s.phase.Subscribed? && !s.phase.Ended? }

  // ----- Ordered messages -----

  ghost predicate Rising(ms: seq<Position>) { forall i, j | 0 <= i < j < |ms| :: ms[i] < ms[j] }

  lemma {:induction false} RestMembers(ms: seq<Position>, after: Position, except: set<Position>)
    ensures forall p :: p in Rest(ms, after, except) <==> p in ms && p > after && p !in except
  {
    if ms != [] {
      RestMembers(ms[..|ms| - 1], after, except);
      assert ms == ms[..|ms| - 1] + [ms[|ms| - 1]];
    }
  }

  lemma {:induction false} RestRises(ms: seq<Position>, after: Position, except: set<Position>)
    requires Rising(ms)
    ensures Rising(Rest(ms, after, except))
  {
    if ms != [] {
      var init := ms[..|ms| - 1];
      RestRises(init, after, except);
      RestMembers(init, after, except);
      var rest := Rest(init, after, except);
      forall i | 0 <= i < |rest|
        ensures rest[i] < ms[|ms| - 1]
      {
        assert rest[i] in rest;
        assert rest[i] in init;
      }
    }
  }

  lemma {:induction false} RestIgnores(ms: seq<Position>, after: Position, except: set<Position>, other: set<Position>)
    requires forall p | p in except || p in other :: p <= after
    ensures Rest(ms, after, except) == Rest(ms, after, other)
  {
    if ms != [] { RestIgnores(ms[..|ms| - 1], after, except, other); }
  }

  /** Nothing lies beyond the last message. */
  lemma {:induction false} RestBeyond(ms: seq<Position>, after: Position, except: set<Position>)
    requires forall i | 0 <= i < |ms| :: ms[i] <= after
    ensures Rest(ms, after, except) == []
  {
    if ms != [] { RestBeyond(ms[..|ms| - 1], after, except); }
  }

  lemma {:induction false} RestAllExcept(ms: seq<Position>, after: Position, except: set<Position>)
    requires forall i | 0 <= i < |ms| :: ms[i] in except
    ensures Rest(ms, after, except) == []
  {
    if ms != [] { RestAllExcept(ms[..|ms| - 1], after, except); }
  }

  /** Moving past the first message leaves the others. */
  lemma {:induction false} RestNext(ms: seq<Position>, after: Position, except: set<Position>)
    requires Rising(ms) && Rest(ms, after, except) != []
    ensures Rest(ms, Rest(ms, after, except)[0], except) == Rest(ms, after, except)[1..]
  {
    var init, last := ms[..|ms| - 1], ms[|ms| - 1];
    var rest := Rest(init, after, except);
    RestMembers(init, after, except);
    if rest == [] {
      assert Rest(ms, after, except) == [last];
      RestBeyond(init, last, except);
    } else {
      RestNext(init, after, except);
      assert rest[0] in init;
    }
  }

  // ----- Every step keeps the invariant -----

  lemma HeadIsLast(s: State)
    requires StoreOk(s)
    ensures forall p | p in s.store.messages :: 0 < p <= Head(s.store)
  {}

  lemma CommitKeepsStore(s: State, p: Position)
    requires StoreOk(s) && Enabled(s, Commit(p))
    ensures StoreOk(Apply(s, Commit(p)))
  {
    HeadIsLast(s);
  }

  lemma CommitExtends(s: State, p: Position, after: Position)
    requires StoreOk(s) && Enabled(s, Commit(p)) && forall q | q in s.skipped :: q in s.store.deleted
    ensures Rest(s.store.messages, after, s.skipped) <= Rest(s.store.messages + [p], after, s.skipped)
    ensures after <= Head(s.store) ==>
              Rest(s.store.messages + [p], after, s.skipped) == Rest(s.store.messages, after, s.skipped) + [p]
  {
    HeadIsLast(s);
    assert (s.store.messages + [p])[..|s.store.messages|] == s.store.messages;
  }

  lemma CommitKeepsPhase(s: State, p: Position)
    requires StoreOk(s) && CursorOk(s) && PhaseOk(s) && Enabled(s, Commit(p)) && forall q | q in s.skipped :: q in s.store.deleted
    ensures CursorOk(Apply(s, Commit(p))) && PhaseOk(Apply(s, Commit(p)))
  {
    CommitExtends(s, p, s.start);
    CommitExtends(s, p, Place(s.after));
    assert Owed(Apply(s, Commit(p))) == Owed(s) + [p];
  }

  lemma CommitKeeps(s: State, p: Position)
    requires Inv(s) && Enabled(s, Commit(p))
    ensures Inv(Apply(s, Commit(p)))
  {
    CommitKeepsStore(s, p);
    CommitExtends(s, p, s.start);
    if Serving(s) {
      CommitKeepsPhase(s, p);
    }
  }

  lemma AnnounceKeeps(s: State, p: Position)
    requires Inv(s) && Enabled(s, Announce(p))
    ensures Inv(Apply(s, Announce(p)))
  {
    HeadIsLast(s);
  }

  lemma CaptureKeeps(s: State)
    requires Inv(s) && Enabled(s, Capture)
    ensures Inv(Apply(s, Capture))
  {
    HeadIsLast(s);
  }

  lemma MarkKeeps(s: State, a: Action)
    requires Inv(s) && Enabled(s, a) && (a.Mark? || a.Changed? || a.Subscribe?)
    ensures Inv(Apply(s, a))
  {
    HeadIsLast(s);
  }

  lemma ReadKeeps(s: State)
    requires Inv(s) && Enabled(s, Read)
    ensures Inv(Apply(s, Read))
  {
    var ms := s.store.messages;
    if !Stale(s) {
      if s.after.Some? {
        RestIgnores(ms, s.after.value, {}, s.skipped);
      }
      var next := Apply(s, Read);
      assert ReadPage(s) == Page(Owed(next));
    }
  }

  lemma EmitMoves(s: State)
    requires Inv(s) && Enabled(s, Emit)
    ensures Owed(s) != [] && s.phase.page[0] == Owed(s)[0] && Owed(Apply(s, Emit)) == Owed(s)[1..]
    ensures Place(s.after) < Owed(s)[0] <= Head(s.store)
  {
    RestNext(s.store.messages, Place(s.after), s.skipped);
    RestMembers(s.store.messages, Place(s.after), s.skipped);
    HeadIsLast(s);
    assert Owed(s)[0] in Owed(s);
  }

  lemma PageMoves(owed: seq<Position>, page: seq<Position>, readHead: Position, full: bool)
    requires page != [] && page <= owed && Rising(owed)
    requires !full ==> forall p | p in owed && p <= readHead :: p in page
    ensures page[1..] <= owed[1..]
    ensures !full ==> forall p | p in owed[1..] && p <= readHead :: p in page[1..]
  {
    if !full {
      forall p | p in owed[1..] && p <= readHead
        ensures p in page[1..]
      {
        assert p in owed && p > owed[0];
      }
    }
  }

  lemma EmitKeeps(s: State)
    requires Inv(s) && Enabled(s, Emit)
    ensures Inv(Apply(s, Emit))
  {
    EmitMoves(s);
    RestRises(s.store.messages, Place(s.after), s.skipped);
    PageMoves(Owed(s), s.phase.page, s.readHead, s.phase.full);
    var next := Apply(s, Emit);
    assert next.emitted + Owed(next) == s.emitted + Owed(s);
  }

  lemma PruneKeeps(s: State, gone: set<Position>, floor: Position)
    requires Inv(s) && Enabled(s, Prune(gone, floor))
    ensures Inv(Apply(s, Prune(gone, floor)))
  {}

  lemma TurnKeeps(s: State, a: Action)
    requires Inv(s) && Enabled(s, a) && (a.Check? || a.Turn? || a.Timer? || a.Reset? || a.Leave?)
    ensures Inv(Apply(s, a))
  {}

  lemma SignalKeeps(s: State, a: Action)
    requires Inv(s) && Enabled(s, a) && (a.Invalidate? || a.Hint? || a.Gap? || a.Forget?)
    ensures Inv(Apply(s, a))
  {}

  lemma StepKeepsInv(s: State, a: Action)
    requires Inv(s) && Enabled(s, a)
    ensures Inv(Apply(s, a))
  {
    if a.Commit? {
      CommitKeeps(s, a.position);
    } else if a.Prune? {
      PruneKeeps(s, a.gone, a.floor);
    } else if a.Announce? {
      AnnounceKeeps(s, a.head);
    } else if a.Capture? {
      CaptureKeeps(s);
    } else if a.Subscribe? || a.Mark? || a.Changed? {
      MarkKeeps(s, a);
    } else if a.Read? {
      ReadKeeps(s);
    } else if a.Emit? {
      EmitKeeps(s);
    } else if a.Invalidate? || a.Hint? || a.Gap? || a.Forget? {
      SignalKeeps(s, a);
    } else {
      TurnKeeps(s, a);
    }
  }

  // ----- Whole runs -----

  lemma RunKeepsInv(s: State, actions: seq<Action>)
    requires Inv(s) && Possible(s, actions)
    ensures Inv(Run(s, actions))
  {
    forall x, a | Inv(x) && Enabled(x, a)
      ensures Inv(Next(x, a))
    {
      StepKeepsInv(x, a);
    }
    Scripts.RunKeeps(Enabled, Next, Inv, s, actions);
  }

  /** No pending wake-up, although the loop sleeps. */
  predicate Quiet(s: State) { s.phase.Blocked? && s.seen == s.watch.version }

  /** A quiet loop has emitted every announced message after its start that was not skipped. */
  lemma QuietHasEmitted(s: State, p: Position)
    requires Inv(s) && Quiet(s) && p in s.announced && p > s.start
    ensures p in s.emitted <==> p !in s.skipped
  {
    RestMembers(s.store.messages, s.start, s.skipped);
    assert p in s.emitted + Owed(s) <==> p !in s.skipped;
    assert p <= s.readHead;
    assert p !in Owed(s);
  }

  /**
  No lost wake-up. In every run, when the loop blocks, the watch is marked changed or every
  announced message after the start has been emitted, unless it was pruned before a read
  without a cursor. In every state the emitted messages are the first ones after the start,
  each once and in order. Only the subscriber of an empty Postgres channel skips anything, and
  only what was pruned.
  */
  lemma NoLostWakeup(s: State, actions: seq<Action>)
    requires Initial(s) && Possible(s, actions)
    ensures var t := Run(s, actions);
            && t.emitted <= Rest(t.store.messages, t.start, t.skipped) && Rising(t.emitted)
            && (Quiet(t) ==> forall p | p in t.announced && p > t.start :: p in t.emitted <==> p !in t.skipped)
            && (Quiet(t) && (t.backend.Sqlite? || t.start > 0) ==> forall p | p in t.announced && p > t.start :: p in t.emitted)
            && (forall p | p in t.skipped :: p !in t.emitted && p in t.store.deleted && t.backend.Postgres? && t.start == 0)
  {
    RunKeepsInv(s, actions);
    var t := Run(s, actions);
    RestRises(t.store.messages, t.start, t.skipped);
    RestMembers(t.store.messages, t.start, t.skipped);
    assert forall p | p in t.emitted :: p in Rest(t.store.messages, t.start, t.skipped);
    if Quiet(t) {
      forall p | p in t.announced && p > t.start
        ensures p in t.emitted <==> p !in t.skipped
      {
        QuietHasEmitted(t, p);
      }
    }
  }

  /** Without a cursor, a loop that finds everything pruned goes to sleep and reports nothing. */
  lemma PrunedIsLost(s: State)
    requires Inv(s) && s.phase.LoopTop? && s.after.None? && s.resetSeen == s.resets
    requires forall p | p in s.store.messages :: p in s.store.deleted
    ensures Possible(s, [Mark, Read, Check, Turn])
    ensures var t := Run(s, [Mark, Read, Check, Turn]); Quiet(t) && t.emitted == [] && t.announced == s.announced
  {
    RestAllExcept(s.store.messages, 0, s.store.deleted);
    var marked := Apply(s, Mark);
    assert ReadPage(marked) == [];
    var read := Apply(marked, Read);
    var checked := Apply(read, Check);
    Scripts.PossibleOne(Enabled, Next, checked, Turn, []);
    Scripts.PossibleOne(Enabled, Next, read, Check, [Turn]);
    Scripts.PossibleOne(Enabled, Next, marked, Read, [Check, Turn]);
    Scripts.PossibleOne(Enabled, Next, s, Mark, [Read, Check, Turn]);
  }

  lemma CommitThenPrune(s: State)
    requires s.phase.LoopTop? && s.store.messages == [] && s.store.deleted == {} && s.store.floor == 0
    ensures Possible(s, [Commit(1), Prune({1}, 1), Announce(1)])
    ensures var t := Run(s, [Commit(1), Prune({1}, 1), Announce(1)]);
            t == s.(store := s.store.(messages := [1], deleted := {1}, floor := 1), watch := Notified(s.watch, 1),
                    announced := s.announced + {1})
  {
    var committed := Apply(s, Commit(1));
    assert committed.store.messages == [1];
    var pruned := Apply(committed, Prune({1}, 1));
    Scripts.PossibleOne(Enabled, Next, pruned, Announce(1), []);
    Scripts.PossibleOne(Enabled, Next, committed, Prune({1}, 1), [Announce(1)]);
    Scripts.PossibleOne(Enabled, Next, s, Commit(1), [Prune({1}, 1), Announce(1)]);
  }

  lemma PrunedStart() returns (s: State, actions: seq<Action>)
    ensures Initial(s) && Possible(s, actions)
    ensures var t := Run(s, actions);
            && t.phase.LoopTop? && t.after.None? && t.resetSeen == t.resets && t.start == 0
            && t.store.messages == [1] && t.store.deleted == {1} && t.announced == {1}
  {
    s := State(Postgres, Store([], {}, 0, 0), Watch(None, 0), 0, Connecting, 0, 0, None, 0, [], {}, 0, 0, None, 0, {});
    var subscribed := Apply(s, Subscribe);
    Scripts.PossibleOne(Enabled, Next, subscribed, Capture, []);
    Scripts.PossibleOne(Enabled, Next, s, Subscribe, [Capture]);
    CommitThenPrune(Apply(subscribed, Capture));
    Scripts.PossibleAppend(Enabled, Next, s, [Subscribe] + [Capture], [Commit(1), Prune({1}, 1), Announce(1)]);
    actions := [Subscribe] + [Capture] + [Commit(1), Prune({1}, 1), Announce(1)];
  }

  /** So an announced message can be lost: the property needs its exception. */
  lemma PrunedBeforeFirstRead() returns (s: State, actions: seq<Action>)
    ensures Initial(s) && Possible(s, actions)
    ensures var t := Run(s, actions); Quiet(t) && 1 in t.announced && 1 > t.start && 1 !in t.emitted
  {
    s, actions := PrunedStart();
    RunKeepsInv(s, actions);
    var t := Run(s, actions);
    PrunedIsLost(t);
    Scripts.PossibleAppend(Enabled, Next, s, actions, [Mark, Read, Check, Turn]);
    RunKeepsStart(t, [Mark, Read, Check, Turn]);
    actions := actions + [Mark, Read, Check, Turn];
  }

  lemma {:induction false} RunKeepsStart(s: State, actions: seq<Action>)
    requires Possible(s, actions) && Serving(s)
    ensures Run(s, actions).start == s.start
    ensures Serving(Run(s, actions)) || Run(s, actions).phase.Ended?
    decreases |actions|
  {
    if actions != [] && Serving(Apply(s, actions[0])) {
      RunKeepsStart(Apply(s, actions[0]), actions[1..]);
    } else if actions != [] {
      EndedStays(Apply(s, actions[0]), actions[1..]);
    }
  }

  lemma {:induction false} EndedStays(s: State, actions: seq<Action>)
    requires Possible(s, actions) && s.phase.Ended?
    ensures Run(s, actions).phase.Ended? && Run(s, actions).start == s.start && Run(s, actions).emitted == s.emitted
    decreases |actions|
  {
    if actions != [] {
      EndedStays(Apply(s, actions[0]), actions[1..]);
    }
  }

  // ----- Gaps -----

  function Pending(s: State): seq<Position> { if s.phase.Emitting? then s.phase.page else [] }

  /** Once a gap is signalled, only what was already read and checked is still emitted. */
  lemma {:induction false} GapEndsStream(s: State, actions: seq<Action>)
    requires Possible(s, actions) && s.resetSeen < s.resets
    ensures Run(s, actions).emitted <= s.emitted + Pending(s)
    decreases |actions|
  {
    if actions != [] {
      GapEndsStream(Apply(s, actions[0]), actions[1..]);
    }
  }
}
