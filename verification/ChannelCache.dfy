/**
The cache of channel definitions (tako-channels/src/registry.rs): two builds for each app,
shared cells that are filled once, and invalidation while loads are under way. Requests
take their steps in any interleaving.
*/
module ChannelCache {
  import opened Results
  import Scripts

  type App = string
  type Build = string
  type CellId = nat
  type LoadId = nat
  type RequestId = nat
  type Builds = seq<(Build, CellId)>

  const MAX_BUILDS: nat := 2

  // ----- The builds of one app -----

  /** The first cell of a build. */
  function Find(builds: Builds, build: Build): (cell: Option<CellId>)
    ensures cell.Some? ==> (build, cell.value) in builds
    ensures cell.None? ==> forall i | 0 <= i < |builds| :: builds[i].0 != build
  {
    if builds == [] then None
    else if builds[0].0 == build then Some(builds[0].1)
    else Find(builds[1..], build)
  }

  /** A new build at the back, the oldest one dropped when there are two. */
  function Inserted(builds: Builds, build: Build, cell: CellId): Builds {
    (if |builds| == MAX_BUILDS then builds[1..] else builds) + [(build, cell)]
  }

  predicate Distinct(builds: Builds) {
    forall i, j | 0 <= i < j < |builds| :: builds[i].0 != builds[j].0 && builds[i].1 != builds[j].1
  }

  function BuildsOf(cache: map<App, Builds>, app: App): Builds { if app in cache then cache[app] else [] }

  // ----- Interleaved requests -----

  /** A cell, what it was made for and when, the load that filled it and the request filling it. */
  datatype Cell = Cell(app: App, build: Build, born: nat, value: Option<LoadId>, loader: Option<RequestId>)

  datatype Phase =
    | Looking
    | Missing
    | Waiting(cell: CellId)
    | Loading(cell: CellId, load: LoadId)
    | Returned(cell: CellId, load: LoadId)
    | Failed

  datatype Request = Request(app: App, build: Build, began: nat, phase: Phase)

  /** `loads` records when each load began, `invalidated` every invalidation with its time. */
  datatype State = State(
    clock: nat,
    cache: map<App, Builds>,
    cells: seq<Cell>,
    requests: map<RequestId, Request>,
    loads: seq<nat>,
    invalidated: set<(App, nat)>)

  datatype Action =
    | Begin(request: RequestId, app: App, build: Build)
    | Lookup(request: RequestId)
    | Insert(request: RequestId)
    | Return(request: RequestId)
    | StartLoad(request: RequestId)
    | LoadSucceeds(request: RequestId)
    | LoadFails(request: RequestId)
    | Invalidate(of: App)

  predicate In(s: State, r: RequestId) { r in s.requests }

  predicate Enabled(s: State, a: Action) {
    match a
    case Begin(r, _, _) => !In(s, r)
    case Lookup(r) => In(s, r) && s.requests[r].phase.Looking?
    case Insert(r) => In(s, r) && s.requests[r].phase.Missing?
    case Return(r) =>
      In(s, r) && s.requests[r].phase.Waiting? && s.requests[r].phase.cell < |s.cells|
      && s.cells[s.requests[r].phase.cell].value.Some?
    case StartLoad(r) =>
      In(s, r) && s.requests[r].phase.Waiting? && s.requests[r].phase.cell < |s.cells|
      && s.cells[s.requests[r].phase.cell].value.None? && s.cells[s.requests[r].phase.cell].loader.None?
    case LoadSucceeds(r) => In(s, r) && s.requests[r].phase.Loading? && s.requests[r].phase.cell < |s.cells|
    case LoadFails(r) => In(s, r) && s.requests[r].phase.Loading? && s.requests[r].phase.cell < |s.cells|
    case Invalidate(_) => true
  }

  function To(s: State, r: RequestId, phase: Phase): map<RequestId, Request>
    requires In(s, r)
  {
    s.requests[r := s.requests[r].(phase := phase)]
  }

  function Apply(s: State, a: Action): State
    requires Enabled(s, a)
  {
    var t := s.(clock := s.clock + 1);
    match a
    case Begin(r, app, build) => t.(requests := s.requests[r := Request(app, build, s.clock, Looking)])
    case Lookup(r) =>
      var found := Find(BuildsOf(s.cache, s.requests[r].app), s.requests[r].build);
      t.(requests := To(s, r, if found.Some? then Waiting(found.value) else Missing))
    case Insert(r) =>
      var app, build := s.requests[r].app, s.requests[r].build;
      var found := Find(BuildsOf(s.cache, app), build);
      if found.Some? then t.(requests := To(s, r, Waiting(found.value)))
      else
        t.(cache := s.cache[app := Inserted(BuildsOf(s.cache, app), build, |s.cells|)],
           cells := s.cells + [Cell(app, build, s.clock, None, None)],
           requests := To(s, r, Waiting(|s.cells|)))
    case Return(r) =>
      var cell := s.requests[r].phase.cell;
      t.(requests := To(s, r, Returned(cell, s.cells[cell].value.value)))
    case StartLoad(r) =>
      var cell := s.requests[r].phase.cell;
      t.(requests := To(s, r, Loading(cell, |s.loads|)), loads := s.loads + [s.clock],
         cells := s.cells[cell := s.cells[cell].(loader := Some(r))])
    case LoadSucceeds(r) =>
      var cell, load := s.requests[r].phase.cell, s.requests[r].phase.load;
      t.(requests := To(s, r, Returned(cell, load)),
         cells := s.cells[cell := s.cells[cell].(value := Some(load), loader := None)])
    case LoadFails(r) =>
      var cell := s.requests[r].phase.cell;
      t.(requests := To(s, r, Failed), cells := s.cells[cell := s.cells[cell].(loader := None)])
    case Invalidate(app) =>
      t.(cache := s.cache - {app}, invalidated := s.invalidated + {(app, s.clock)})
  }

  function Next(s: State, a: Action): State { if Enabled(s, a) then Apply(s, a) else s }

  /** Each action is enabled when it is its turn. */
  predicate Possible(s: State, actions: seq<Action>) { Scripts.Possible(Enabled, Next, s, actions) }

  function Run(s: State, actions: seq<Action>): State { Scripts.RunAll(Next, s, actions) }

  const EMPTY := State(0, map[], [], map[], [], {})

  // ----- Invariant -----

  /** An app's entry: at most two builds, no build and no cell twice, cells made for it since its last invalidation. */
  predicate EntryOk(s: State, app: App, builds: Builds) {
    && |builds| <= MAX_BUILDS
    && Distinct(builds)
    && (forall i | 0 <= i < |builds| :: builds[i].1 < |s.cells| && CellFor(s, builds[i].1, app, builds[i].0, s.clock))
  }

  /** The cell was made for this app and build, and after every invalidation before `time`. */
  predicate CellFor(s: State, cell: CellId, app: App, build: Build, time: nat)
    requires cell < |s.cells|
  {
    && s.cells[cell].app == app && s.cells[cell].build == build
    && (forall at | (app, at) in s.invalidated && at < time :: at < s.cells[cell].born)
  }

  predicate CellOk(s: State, cell: Cell) {
    && cell.born <= s.clock
    && (cell.value.Some? ==> cell.value.value < |s.loads| && cell.born <= s.loads[cell.value.value])
  }

  predicate RequestOk(s: State, r: RequestId, request: Request) {
    && request.began <= s.clock
    && match request.phase
       case Waiting(cell) => cell < |s.cells| && CellFor(s, cell, request.app, request.build, request.began)
       case Loading(cell, load) =>
         && cell < |s.cells| && CellFor(s, cell, request.app, request.build, request.began)
         && s.cells[cell].loader == Some(r) && s.cells[cell].value.None?
         && load < |s.loads| && s.cells[cell].born <= s.loads[load]
       case Returned(cell, load) =>
         && cell < |s.cells| && CellFor(s, cell, request.app, request.build, request.began)
         && s.cells[cell].value == Some(load)
       case _ => true
  }

  predicate Inv(s: State) {
    && (forall app | app in s.cache :: EntryOk(s, app, s.cache[app]))
    && (forall c | 0 <= c < |s.cells| :: CellOk(s, s.cells[c]))
    && (forall r | r in s.requests :: RequestOk(s, r, s.requests[r]))
    && (forall i | i in s.invalidated :: i.1 < s.clock)
  }

  lemma BeginKeeps(s: State, a: Action)
    requires Inv(s) && Enabled(s, a) && a.Begin?
    ensures Inv(Apply(s, a))
  {}

  lemma FoundIsRight(s: State, request: Request, cell: CellId)
    requires Inv(s) && RequestOk(s, 0, request) && Find(BuildsOf(s.cache, request.app), request.build) == Some(cell)
    ensures cell < |s.cells| && CellFor(s, cell, request.app, request.build, request.began)
  {
    var builds := BuildsOf(s.cache, request.app);
    var i :| 0 <= i < |builds| && builds[i] == (request.build, cell);
  }

  lemma LookupKeeps(s: State, a: Action)
    requires Inv(s) && Enabled(s, a) && a.Lookup?
    ensures Inv(Apply(s, a))
  {
    var request := s.requests[a.request];
    var found := Find(BuildsOf(s.cache, request.app), request.build);
    if found.Some? { FoundIsRight(s, request, found.value); }
  }

  /** A new cell for a build that the app does not have. */
  predicate Makes(s: State, a: Action) {
    && Enabled(s, a) && a.Insert?
    && Find(BuildsOf(s.cache, s.requests[a.request].app), s.requests[a.request].build).None?
  }

  lemma InsertedShape(builds: Builds, build: Build, cell: CellId)
    requires |builds| <= MAX_BUILDS && Distinct(builds)
    requires forall i | 0 <= i < |builds| :: builds[i].0 != build && builds[i].1 < cell
    ensures |Inserted(builds, build, cell)| <= MAX_BUILDS && Distinct(Inserted(builds, build, cell))
    ensures forall entry | entry in Inserted(builds, build, cell) :: entry == (build, cell) || entry in builds
  {}

  lemma InsertedEntry(s: State, a: Action)
    requires Inv(s) && Makes(s, a)
    ensures var t, app := Apply(s, a), s.requests[a.request].app; EntryOk(t, app, t.cache[app])
  {
    var t, app, build := Apply(s, a), s.requests[a.request].app, s.requests[a.request].build;
    var before := BuildsOf(s.cache, app);
    assert EntryOk(s, app, before);
    InsertedShape(before, build, |s.cells|);
    var after := t.cache[app];
    forall i | 0 <= i < |after|
      ensures after[i].1 < |t.cells| && CellFor(t, after[i].1, app, after[i].0, t.clock)
    {
      assert after[i] in after;
      if after[i] in before {
        var k :| 0 <= k < |before| && before[k] == after[i];
        assert CellFor(s, before[k].1, app, before[k].0, s.clock);
      }
    }
  }

  lemma OtherEntries(s: State, a: Action, app: App)
    requires Inv(s) && Makes(s, a) && app in s.cache && app != s.requests[a.request].app
    ensures EntryOk(Apply(s, a), app, Apply(s, a).cache[app])
  {
    assert EntryOk(s, app, s.cache[app]);
  }

  lemma MakeKeepsRequests(s: State, a: Action, r: RequestId)
    requires Inv(s) && Makes(s, a) && r in s.requests
    ensures RequestOk(Apply(s, a), r, Apply(s, a).requests[r])
  {
    assert RequestOk(s, r, s.requests[r]);
  }

  lemma MakeKeeps(s: State, a: Action)
    requires Inv(s) && Makes(s, a)
    ensures Inv(Apply(s, a))
  {
    var t := Apply(s, a);
    InsertedEntry(s, a);
    forall app | app in t.cache
      ensures EntryOk(t, app, t.cache[app])
    {
      if app != s.requests[a.request].app { OtherEntries(s, a, app); }
    }
    forall r | r in t.requests
      ensures RequestOk(t, r, t.requests[r])
    {
      MakeKeepsRequests(s, a, r);
    }
  }

  lemma ShareKeeps(s: State, a: Action)
    requires Inv(s) && Enabled(s, a) && a.Insert? && !Makes(s, a)
    ensures Inv(Apply(s, a))
  {
    var request := s.requests[a.request];
    var found := Find(BuildsOf(s.cache, request.app), request.build);
    FoundIsRight(s, request, found.value);
  }

  lemma ReturnKeeps(s: State, a: Action)
    requires Inv(s) && Enabled(s, a) && a.Return?
    ensures Inv(Apply(s, a))
  {}

  lemma StartLoadKeeps(s: State, a: Action)
    requires Inv(s) && Enabled(s, a) && a.StartLoad?
    ensures Inv(Apply(s, a))
  {}

  lemma LoadSucceedsKeeps(s: State, a: Action)
    requires Inv(s) && Enabled(s, a) && a.LoadSucceeds?
    ensures Inv(Apply(s, a))
  {}

  lemma LoadFailsKeeps(s: State, a: Action)
    requires Inv(s) && Enabled(s, a) && a.LoadFails?
    ensures Inv(Apply(s, a))
  {}

  lemma InvalidateKeeps(s: State, a: Action)
    requires Inv(s) && Enabled(s, a) && a.Invalidate?
    ensures Inv(Apply(s, a))
  {}

  lemma StepKeepsInv(s: State, a: Action)
    requires Inv(s) && Enabled(s, a)
    ensures Inv(Apply(s, a))
  {
    match a
    case Begin(_, _, _) => BeginKeeps(s, a);
    case Lookup(_) => LookupKeeps(s, a);
    case Insert(_) => if Makes(s, a) { MakeKeeps(s, a); } else { ShareKeeps(s, a); }
    case Return(_) => ReturnKeeps(s, a);
    case StartLoad(_) => StartLoadKeeps(s, a);
    case LoadSucceeds(_) => LoadSucceedsKeeps(s, a);
    case LoadFails(_) => LoadFailsKeeps(s, a);
    case Invalidate(_) => InvalidateKeeps(s, a);
  }

  lemma ReachableInv(actions: seq<Action>)
    requires Possible(EMPTY, actions)
    ensures Inv(Run(EMPTY, actions))
  {
    forall x, a | Inv(x) && Enabled(x, a)
      ensures Inv(Next(x, a))
    {
      StepKeepsInv(x, a);
    }
    Scripts.RunKeeps(Enabled, Next, Inv, EMPTY, actions);
  }

  // ----- What every run guarantees -----

  predicate HasReturned(s: State, r: RequestId) { r in s.requests && s.requests[r].phase.Returned? }

  /** Two builds at most for each app, and no build twice. */
  lemma TwoBuilds(actions: seq<Action>, app: App)
    requires Possible(EMPTY, actions)
    ensures var builds := BuildsOf(Run(EMPTY, actions).cache, app);
            |builds| <= 2 && forall i, j | 0 <= i < j < |builds| :: builds[i].0 != builds[j].0
  {
    ReachableInv(actions);
  }

  /** Requests that share a cell agree, and a cell serves one app and build. */
  lemma SharersAgree(actions: seq<Action>, r: RequestId, q: RequestId)
    requires Possible(EMPTY, actions) && HasReturned(Run(EMPTY, actions), r) && HasReturned(Run(EMPTY, actions), q)
    requires Run(EMPTY, actions).requests[r].phase.cell == Run(EMPTY, actions).requests[q].phase.cell
    ensures var a, b := Run(EMPTY, actions).requests[r], Run(EMPTY, actions).requests[q];
            a.phase.load == b.phase.load && a.app == b.app && a.build == b.build
  {
    ReachableInv(actions);
  }

  /** A request that began after an invalidation returns a load that began after it too. */
  lemma NoStaleDefinitions(actions: seq<Action>, r: RequestId, at: nat)
    requires Possible(EMPTY, actions) && HasReturned(Run(EMPTY, actions), r)
    requires (Run(EMPTY, actions).requests[r].app, at) in Run(EMPTY, actions).invalidated
    requires at < Run(EMPTY, actions).requests[r].began
    ensures var t := Run(EMPTY, actions);
            t.requests[r].phase.load < |t.loads| && at < t.loads[t.requests[r].phase.load]
  {
    ReachableInv(actions);
    var t := Run(EMPTY, actions);
    assert CellOk(t, t.cells[t.requests[r].phase.cell]);
  }

  /** One successful load decides a cell for good. */
  lemma {:induction false} FilledForGood(s: State, actions: seq<Action>, cell: CellId)
    requires Inv(s) && Possible(s, actions) && cell < |s.cells| && s.cells[cell].value.Some?
    ensures cell < |Run(s, actions).cells| && Run(s, actions).cells[cell].value == s.cells[cell].value
    decreases |actions|
  {
    if actions != [] {
      StepKeepsInv(s, actions[0]);
      FilledForGood(Apply(s, actions[0]), actions[1..], cell);
    }
  }

  predicate Attached(s: State, cell: CellId) {
    exists app | app in s.cache :: exists i | 0 <= i < |s.cache[app]| :: s.cache[app][i].1 == cell
  }

  /** A cell that was dropped or invalidated never comes back, whoever still fills it. */
  lemma {:induction false} DetachedStays(s: State, actions: seq<Action>, cell: CellId)
    requires Inv(s) && Possible(s, actions) && cell < |s.cells| && !Attached(s, cell)
    ensures !Attached(Run(s, actions), cell)
    decreases |actions|
  {
    if actions != [] {
      StepKeepsInv(s, actions[0]);
      StaysDetached(s, actions[0], cell);
      DetachedStays(Apply(s, actions[0]), actions[1..], cell);
    }
  }

  lemma StaysDetached(s: State, a: Action, cell: CellId)
    requires Inv(s) && Enabled(s, a) && cell < |s.cells| && !Attached(s, cell)
    ensures !Attached(Apply(s, a), cell)
  {
    var t := Apply(s, a);
    forall app, i | app in t.cache && 0 <= i < |t.cache[app]|
      ensures t.cache[app][i].1 != cell
    {
      if app in s.cache && t.cache[app][i] in s.cache[app] {
        var k :| 0 <= k < |s.cache[app]| && s.cache[app][k] == t.cache[app][i];
      }
    }
  }

  // ----- The map in place -----

  /** The locked map of the cache. */
  class ChannelRegistry {
    var byApp: map<App, Builds>

    constructor ()
      ensures byApp == map[]
    {
      byApp := map[];
    }

    method Lookup(app: App, build: Build) returns (cell: Option<CellId>)
      ensures cell == Find(BuildsOf(byApp, app), build)
    {
      cell := None;
      if app in byApp {
        cell := Find(byApp[app], build);
      }
    }

    /** Under the write lock: the cell of the build, or `cell` as a new one. */
    method GetOrInsert(app: App, build: Build, cell: CellId) returns (r: CellId)
      requires forall a | a in byApp :: |byApp[a]| <= MAX_BUILDS
      modifies this
      ensures forall a | a in byApp :: |byApp[a]| <= MAX_BUILDS
      ensures match Find(BuildsOf(old(byApp), app), build)
              case Some(found) => r == found && BuildsOf(byApp, app) == BuildsOf(old(byApp), app)
              case None => r == cell && byApp == old(byApp)[app := Inserted(BuildsOf(old(byApp), app), build, cell)]
      ensures forall a | a != app :: BuildsOf(byApp, a) == BuildsOf(old(byApp), a)
    {
      if app !in byApp {
        byApp := byApp[app := []];
      }
      var builds := byApp[app];
      var found := Find(builds, build);
      if found.Some? {
        return found.value;
      }
      if |builds| == MAX_BUILDS {
        builds := builds[1..];
      }
      byApp := byApp[app := builds + [(build, cell)]];
      r := cell;
    }

    method InvalidateApp(app: App)
      modifies this
      ensures byApp == old(byApp) - {app}
    {
      byApp := byApp - {app};
    }
  }
}
