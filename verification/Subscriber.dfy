/**
The in-place parts of channel delivery: the shared map of watches (tako-channels/src/mesh.rs,
store.rs) and the serving loop of one subscriber (tako-channels/src/live_store.rs) between
two disturbances.
*/
module Subscriber {
  import opened Results
  import Scripts
  import opened Delivery

  /** The watches of all channels. A channel has one only while somebody is subscribed. */
  class Watches {
    var streams: map<string, Watch>

    constructor ()
      ensures streams == map[]
    {
      streams := map[];
    }

    /** `notify_committed` */
    method NotifyCommitted(channel: string, latest: Position)
      modifies this
      ensures streams.Keys == old(streams).Keys
      ensures forall c | c in streams && c != channel :: streams[c] == old(streams)[c]
      ensures channel in streams ==> streams[channel] == Notified(old(streams)[channel], latest)
    {
      if channel in streams {
        var w := streams[channel];
        if w.value.None? || latest > w.value.value {
          streams := streams[channel := Watch(Some(latest), w.version + 1)];
        }
      }
    }

    /** `DeliveryState::wake`: with a head as above, without one as a bare hint. */
    method Wake(channel: string, head: Option<Position>)
      modifies this
      ensures streams.Keys == old(streams).Keys
      ensures forall c | c in streams && c != channel :: streams[c] == old(streams)[c]
      ensures channel in streams ==>
                streams[channel] ==
                match head
                case Some(latest) => Notified(old(streams)[channel], latest)
                case None => old(streams)[channel].(version := old(streams)[channel].version + 1)
    {
      match head {
        case Some(latest) => NotifyCommitted(channel, latest);
        case None =>
          if channel in streams {
            streams := streams[channel := streams[channel].(version := streams[channel].version + 1)];
          }
      }
    }

    /** `ChannelStore::changes`: a new receiver has seen the current version. */
    method Changes(channel: string) returns (seen: nat)
      modifies this
      ensures channel in streams && streams[channel].version == seen
      ensures streams == if channel in old(streams) then old(streams) else old(streams)[channel := Watch(None, 0)]
    {
      if channel !in streams {
        streams := streams[channel := Watch(None, 0)];
      }
      seen := streams[channel].version;
    }

    /** The poll of committed heads: afterwards no watched channel lags behind its head. */
    method Poll(heads: seq<(string, Position)>)
      modifies this
      ensures streams.Keys == old(streams).Keys
      ensures forall c | c in streams :: Follows(old(streams)[c], streams[c])
      ensures forall i | 0 <= i < |heads| && heads[i].0 in streams ::
                streams[heads[i].0].value.Some? && streams[heads[i].0].value.value >= heads[i].1
    {
      for i := 0 to |heads|
        invariant streams.Keys == old(streams).Keys
        invariant forall c | c in streams :: Follows(old(streams)[c], streams[c])
        invariant forall k | 0 <= k < i && heads[k].0 in streams ::
                    streams[heads[k].0].value.Some? && streams[heads[k].0].value.value >= heads[k].1
      {
        NotifyCommitted(heads[i].0, heads[i].1);
      }
    }
  }

  /** Heads never regress, and every change of the value counts as a change. */
  predicate Follows(before: Watch, after: Watch) {
    && before.version <= after.version
    && (before.value.Some? ==> after.value.Some? && before.value.value <= after.value.value)
    && (before.version == after.version ==> before.value == after.value)
  }

  lemma FollowsThen(a: Watch, b: Watch, c: Watch)
    requires Follows(a, b) && Follows(b, c)
    ensures Follows(a, c)
  {}

  /** Over a whole run a subscribed watch only moves forward. */
  lemma {:induction false} HeadsNeverRegress(s: State, actions: seq<Action>)
    requires Possible(s, actions) && !s.phase.Connecting?
    ensures Follows(s.watch, Run(s, actions).watch)
    decreases |actions|
  {
    if actions != [] {
      var next := Apply(s, actions[0]);
      HeadsNeverRegress(next, actions[1..]);
      FollowsThen(s.watch, next.watch, Run(s, actions).watch);
    }
  }

  // ----- The serving loop, undisturbed -----

  predicate OwnStep(a: Action) { a.Mark? || a.Read? || a.Check? || a.Emit? || a.Turn? }

  /** One step of the loop, recorded. */
  ghost predicate Came(s: State, actions: seq<Action>, t: State) {
    && Possible(s, actions) && Run(s, actions) == t && (forall a | a in actions :: OwnStep(a))
    && t.store == s.store && t.watch == s.watch && t.resets == s.resets && t.resetSeen == s.resetSeen
  }

  method Advance(t: State, a: Action, ghost s: State, ghost actions: seq<Action>) returns (t': State, ghost actions': seq<Action>)
    requires Came(s, actions, t) && Enabled(t, a) && OwnStep(a)
    ensures Came(s, actions', t') && t' == Apply(t, a)
  {
    t' := Apply(t, a);
    actions' := actions + [a];
    Scripts.PossibleOne(Enabled, Next, t, a, []);
    Scripts.PossibleAppend(Enabled, Next, s, actions, [a] + []);
    assert actions + ([a] + []) == actions + [a];
  }

  lemma FirstIsMember(ms: seq<Position>)
    ensures ms == [] || ms[0] in ms
  {}

  lemma NothingOwed(s: State, actions: seq<Action>, t: State)
    requires Inv(s) && Came(s, actions, t) && t.phase.Blocked? && t.readHead == Head(t.store)
    ensures Owed(t) == [] && t.emitted == Rest(t.store.messages, t.start, t.skipped)
  {
    RunKeepsInv(s, actions);
    RestMembers(t.store.messages, Place(t.after), t.skipped);
    HeadIsLast(t);
    assert forall p :: p !in Owed(t);
    FirstIsMember(Owed(t));
  }

  lemma EmitGrows(s: State, actions: seq<Action>, t: State)
    requires Inv(s) && Came(s, actions, t) && Enabled(t, Emit)
    ensures t.phase.page[0] > Place(t.after)
  {
    RunKeepsInv(s, actions);
    EmitMoves(t);
  }

  /** The inner loop over one page. */
  method EmitPage(r: State, ghost s: State, ghost actions: seq<Action>) returns (t: State, ghost actions': seq<Action>)
    requires Inv(s) && Came(s, actions, r) && r.phase.Emitting?
    ensures Came(s, actions', t)
    ensures t == r.(phase := Emitting([], r.phase.full), after := t.after, emitted := t.emitted)
    ensures t.emitted == r.emitted + r.phase.page
    ensures if r.phase.page == [] then t.after == r.after else t.after.Some? && Place(t.after) > Place(r.after)
  {
    t, actions' := r, actions;
    while t.phase.page != []
      invariant Came(s, actions', t) && t.phase.Emitting?
      invariant t == r.(phase := t.phase, after := t.after, emitted := t.emitted) && t.phase.full == r.phase.full
      invariant t.emitted + t.phase.page == r.emitted + r.phase.page
      invariant if t.phase.page == r.phase.page then t.after == r.after else t.after.Some? && Place(t.after) > Place(r.after)
      decreases |t.phase.page|
    {
      EmitGrows(s, actions', t);
      t, actions' := Advance(t, Emit, s, actions');
    }
  }

  lemma CursorWithinHead(s: State, actions: seq<Action>, t: State)
    requires Inv(s) && Came(s, actions, t)
    ensures Serving(t) ==> Place(t.after) <= Head(t.store)
  {
    RunKeepsInv(s, actions);
  }

  /** One turn of the loop. */
  method Round(r: State, ghost s: State, ghost actions: seq<Action>) returns (t: State, ghost actions': seq<Action>)
    requires Inv(s) && Came(s, actions, r) && r.phase.LoopTop?
    ensures Came(s, actions', t) && t.epoch == r.epoch && t.start == r.start
    ensures t.phase.Ended? <==> r.resetSeen != r.resets || Stale(r)
    ensures t.phase.Ended? || t.phase.LoopTop? || (Quiet(t) && t.readHead == Head(t.store))
    ensures Place(t.after) >= Place(r.after) && (r.after.Some? ==> t.after.Some?)
    ensures t.phase.LoopTop? ==> Place(t.after) > Place(r.after)
    ensures t.phase.Ended? ==> t.after == r.after
  {
    t, actions' := Advance(r, Mark, s, actions);
    t, actions' := Advance(t, Read, s, actions');
    if t.phase.Ended? {
      return;
    }
    t, actions' := Advance(t, Check, s, actions');
    if t.phase.Ended? {
      return;
    }
    t, actions' := EmitPage(t, s, actions');
    t, actions' := Advance(t, Turn, s, actions');
  }

  /**
  From the top of the loop, undisturbed: it ends, or it sleeps with every message after its
  start emitted. With a cursor it ends exactly when a reset is pending or the cursor is stale.
  */
  method Serve(s: State) returns (t: State, ghost actions: seq<Action>)
    requires Inv(s) && s.phase.LoopTop?
    ensures Came(s, actions, t)
    ensures t.phase.Ended? || (Quiet(t) && Owed(t) == [] && t.emitted == Rest(t.store.messages, t.start, t.skipped))
    ensures s.after.Some? ==> (t.phase.Ended? <==> s.resetSeen != s.resets || Stale(s))
  {
    t, actions := Round(s, s, []);
    CursorWithinHead(s, actions, t);
    while t.phase.LoopTop?
      invariant Came(s, actions, t) && t.epoch == s.epoch && Place(t.after) >= Place(s.after)
      invariant Place(t.after) <= Head(s.store)
      invariant t.phase.Ended? || t.phase.LoopTop? || (Quiet(t) && t.readHead == Head(t.store))
      invariant s.after.Some? ==> t.after.Some? && (t.phase.Ended? <==> s.resetSeen != s.resets || Stale(s))
      decreases Head(s.store) - Place(t.after), t.phase.LoopTop?
    {
      t, actions := Round(t, s, actions);
      CursorWithinHead(s, actions, t);
    }
    if t.phase.Blocked? {
      NothingOwed(s, actions, t);
    }
  }
}
