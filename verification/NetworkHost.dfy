/**
The helper's host object as it updates the saved state and the kernel command by
command (scripts/tako-network-helper.py): the process may stop after any command.
*/
module NetworkHost {
  import opened Results
  import opened Scripts
  import opened OwnershipJournal

  datatype Outcome = Done | Rejected | Stopped

  lemma NextRoute(dev: Device, listed: seq<Address>, i: nat, wanted: seq<Address>)
    requires i < |listed|
    ensures DeleteRoutes(dev, listed[i..], wanted) ==
            (if listed[i] in wanted then [] else [DeleteRoute(dev, listed[i])]) + DeleteRoutes(dev, listed[i + 1..], wanted)
  {
    assert listed[i..][1..] == listed[i + 1..];
  }

  class Host {
    var networks: map<NetworkId, Config>
    var links: map<Device, Link>
    /** How many more commands and saves happen before the process stops. */
    var budget: nat

    ghost function View(): World
      reads this
    {
      World(networks, links)
    }

    constructor (w: World, budget: nat)
      ensures View() == w && this.budget == budget
    {
      networks, links := w.networks, w.links;
      this.budget := budget;
    }

    /** One save or one command. */
    method Perform(e: Effect) returns (alive: bool)
      modifies this
      ensures Ran(Do, old(View()), old(budget), [e], View(), budget, alive)
    {
      RunOne(Do, View(), e);
      if budget == 0 {
        return false;
      }
      budget := budget - 1;
      match e {
        case Save(ident, c) => networks := networks[ident := c];
        case Forget(ident) => networks := networks - {ident};
        case AddLink(dev, group) =>
          if dev !in links {
            links := links[dev := Link(true, None, group, false, [], [], false)];
          }
        case DeleteLink(dev) => links := links - {dev};
        case Reboot => links := map[];
        case _ =>
          if e.dev in links {
            ChangeOne(e);
          }
      }
      alive := true;
    }

    /** A command on an existing link. */
    method ChangeOne(e: Effect)
      requires !e.Save? && !e.Forget? && !e.AddLink? && !e.DeleteLink? && !e.Reboot? && e.dev in links
      modifies this`links
      ensures View() == Do(old(View()), e)
    {
      var link := links[e.dev];
      match e {
        case TagLink(_, alias) => link := link.(alias := Some(alias), group := 0);
        case DeleteAddress(_, a) => link := link.(addresses := Without(link.addresses, a));
        case ReplaceAddress(_, a) => link := link.(addresses := With(link.addresses, a));
        case LinkUp(_) => link := link.(up := true);
        case DeleteRoute(_, r) => link := link.(routes := Without(link.routes, r));
        case ReplaceRoute(_, r) => link := link.(routes := With(link.routes, r));
        case LinkDown(_, addresses, routes) =>
          link := link.(up := false, addresses := Keep(link.addresses, addresses), routes := Keep(link.routes, routes));
      }
      links := links[e.dev := link];
    }

    /** Appends one command to those already done since `w`. */
    method Continue(ghost w: World, ghost start: nat, ghost done: seq<Effect>, e: Effect) returns (alive: bool)
      requires Ran(Do, w, start, done, View(), budget, true)
      modifies this
      ensures Ran(Do, w, start, done + [e], View(), budget, alive)
    {
      ghost var v, left := View(), budget;
      alive := Perform(e);
      RanThen(Do, w, start, done, v, left, [e], View(), budget, alive);
    }

    method DropAddresses(dev: Device, listed: seq<Address>, keep: Address) returns (alive: bool)
      modifies this
      ensures Ran(Do, old(View()), old(budget), DeleteAddresses(dev, listed, keep), View(), budget, alive)
    {
      ghost var w, start, done := View(), budget, [];
      RunOne(Do, w, Reboot);
      assert listed[0..] == listed;
      for i := 0 to |listed|
        invariant Ran(Do, w, start, done, View(), budget, true)
        invariant DeleteAddresses(dev, listed, keep) == done + DeleteAddresses(dev, listed[i..], keep)
      {
        assert listed[i..][1..] == listed[i + 1..];
        if listed[i] != keep {
          alive := Continue(w, start, done, DeleteAddress(dev, listed[i]));
          done := done + [DeleteAddress(dev, listed[i])];
          if !alive {
            RanDead(Do, w, start, done, View(), budget, DeleteAddresses(dev, listed[i + 1..], keep));
            return;
          }
        }
      }
      assert DeleteAddresses(dev, listed, keep) == done;
      alive := true;
    }

    method DropRoutes(dev: Device, listed: seq<Address>, wanted: seq<Address>) returns (alive: bool)
      modifies this
      ensures Ran(Do, old(View()), old(budget), DeleteRoutes(dev, listed, wanted), View(), budget, alive)
    {
      ghost var w, start, done := View(), budget, [];
      RunOne(Do, w, Reboot);
      assert listed[0..] == listed;
      for i := 0 to |listed|
        invariant Ran(Do, w, start, done, View(), budget, true)
        invariant DeleteRoutes(dev, listed, wanted) == done + DeleteRoutes(dev, listed[i..], wanted)
      {
        NextRoute(dev, listed, i, wanted);
        if listed[i] !in wanted {
          alive := Continue(w, start, done, DeleteRoute(dev, listed[i]));
          done := done + [DeleteRoute(dev, listed[i])];
          if !alive {
            RanDead(Do, w, start, done, View(), budget, DeleteRoutes(dev, listed[i + 1..], wanted));
            return;
          }
        }
      }
      assert DeleteRoutes(dev, listed, wanted) == done;
      alive := true;
    }

    method InstallRoutes(dev: Device, wanted: seq<Address>) returns (alive: bool)
      modifies this
      ensures Ran(Do, old(View()), old(budget), ReplaceRoutes(dev, wanted), View(), budget, alive)
    {
      ghost var w, start, done := View(), budget, [];
      RunOne(Do, w, Reboot);
      assert wanted[0..] == wanted;
      for i := 0 to |wanted|
        invariant Ran(Do, w, start, done, View(), budget, true)
        invariant ReplaceRoutes(dev, wanted) == done + ReplaceRoutes(dev, wanted[i..])
      {
        assert wanted[i..][1..] == wanted[i + 1..];
        alive := Continue(w, start, done, ReplaceRoute(dev, wanted[i]));
        done := done + [ReplaceRoute(dev, wanted[i])];
        if !alive {
          RanDead(Do, w, start, done, View(), budget, ReplaceRoutes(dev, wanted[i + 1..]));
          return;
        }
      }
      assert ReplaceRoutes(dev, wanted) == done;
      alive := true;
    }

    /** Brings the addresses and routes of an existing link in line, from what was listed before the first save. */
    method ReconcileLink(dev: Device, addresses: seq<Address>, routes: seq<Address>, desired: Desired) returns (alive: bool)
      modifies this
      ensures Ran(Do, old(View()), old(budget), Reconcile(dev, addresses, routes, desired), View(), budget, alive)
    {
      ghost var w, start := View(), budget;
      ghost var e1 := DeleteAddresses(dev, addresses, desired.address);
      ghost var e2 := [ReplaceAddress(dev, desired.address), LinkUp(dev)];
      ghost var e3 := DeleteRoutes(dev, routes, desired.peers);
      ghost var e4 := ReplaceRoutes(dev, desired.peers);
      assert Reconcile(dev, addresses, routes, desired) == e1 + e2 + e3 + e4
          == e1 + (e2 + e3 + e4) == e1 + [e2[0]] + ([e2[1]] + e3 + e4) == e1 + e2 + (e3 + e4);
      assert e1 + [e2[0]] + [e2[1]] == e1 + e2;
      alive := DropAddresses(dev, addresses, desired.address);
      if !alive {
        RanDead(Do, w, start, e1, View(), budget, e2 + e3 + e4);
        return;
      }
      alive := Continue(w, start, e1, ReplaceAddress(dev, desired.address));
      if !alive {
        RanDead(Do, w, start, e1 + [e2[0]], View(), budget, [e2[1]] + e3 + e4);
        return;
      }
      alive := Continue(w, start, e1 + [e2[0]], LinkUp(dev));
      if !alive {
        RanDead(Do, w, start, e1 + e2, View(), budget, e3 + e4);
        return;
      }
      ghost var v, left := View(), budget;
      alive := DropRoutes(dev, routes, desired.peers);
      RanThen(Do, w, start, e1 + e2, v, left, e3, View(), budget, alive);
      if !alive {
        RanDead(Do, w, start, e1 + e2 + e3, View(), budget, e4);
        return;
      }
      v, left := View(), budget;
      alive := InstallRoutes(dev, desired.peers);
      RanThen(Do, w, start, e1 + e2 + e3, v, left, e4, View(), budget, alive);
    }

    /** Creates the link when it is missing and tags it while the journal still names a creation group. */
    method CreateAndTag(dev: Device, linked: bool, c: Config) returns (alive: bool)
      modifies this
      ensures Ran(Do, old(View()), old(budget), EnsureLink(dev, linked, c), View(), budget, alive)
    {
      ghost var w, start := View(), budget;
      RunOne(Do, w, Reboot);
      ghost var tag := if c.creationGroup.Some? then [TagLink(dev, c.alias)] else [];
      alive := true;
      ghost var done: seq<Effect> := [];
      if !linked && c.creationGroup.Some? {
        alive := Continue(w, start, done, AddLink(dev, c.creationGroup.value));
        done := done + [AddLink(dev, c.creationGroup.value)];
        if !alive {
          RanDead(Do, w, start, done, View(), budget, tag);
          return;
        }
      }
      assert EnsureLink(dev, linked, c) == done + tag;
      if c.creationGroup.Some? {
        alive := Continue(w, start, done, TagLink(dev, c.alias));
      }
    }

    /**
    `Host.apply`. Whatever happens, everything on the managed links stays in the journal and the
    same request is accepted again; a call that completes leaves exactly what was desired.
    */
    method Apply(ident: NetworkId, desired: Desired, choices: Choices) returns (outcome: Outcome)
      modifies this
      ensures outcome.Rejected? <==> !ApplyAccepted(old(View()), ident, desired)
      ensures outcome.Rejected? ==> View() == old(View())
      ensures Inv(old(View())) ==> Inv(View())
      ensures !outcome.Rejected? ==>
                Ran(Do, old(View()), old(budget), ApplyScript(old(View()), ident, desired, choices), View(), budget, outcome.Done?)
      ensures Inv(old(View())) && !outcome.Rejected? ==> ApplyAccepted(View(), ident, desired)
      ensures Inv(old(View())) && outcome.Done? ==>
                && SameElsewhere(old(View()), View(), ident)
                && Interface(ident) in links && Reconciled(links[Interface(ident)], desired)
                && ident in networks && networks[ident] == Settled(Proposed(old(View()), ident, desired, choices))
    {
      ghost var w, start := View(), budget;
      outcome := RunApply(ident, desired, choices);
      if Inv(w) && !outcome.Rejected? {
        ghost var script := ApplyScript(w, ident, desired, choices);
        RetryIsAccepted(w, ident, desired, choices, if start < |script| then start else |script|, ({}, {}));
        assert script[..|script|] == script;
        ApplyAlways(w, ident, desired, choices, x => true);
      }
    }

    /** Reject without a trace, or save first and then change the kernel. */
    method RunApply(ident: NetworkId, desired: Desired, choices: Choices) returns (outcome: Outcome)
      modifies this
      ensures !ApplyAccepted(old(View()), ident, desired) ==> outcome == Rejected && View() == old(View())
      ensures ApplyAccepted(old(View()), ident, desired) ==>
                && !outcome.Rejected?
                && Ran(Do, old(View()), old(budget), ApplyScript(old(View()), ident, desired, choices), View(), budget, outcome.Done?)
    {
      var dev := Interface(ident);
      if !ApplyAccepted(World(networks, links), ident, desired) {
        return Rejected;
      }
      var c := Proposed(World(networks, links), ident, desired, choices);
      var alive := SaveAndReconcile(ident, c, desired, choices.dns);
      outcome := if alive then Done else Stopped;
    }

    method SaveAndReconcile(ident: NetworkId, c: Config, desired: Desired, dns: bool) returns (alive: bool)
      modifies this
      ensures Ran(Do, old(View()), old(budget),
                  [Save(ident, c)] + Middle(old(links), Interface(ident), c, desired) + Settle(ident, c, dns),
                  View(), budget, alive)
    {
      ghost var w, start := View(), budget;
      var dev := Interface(ident);
      var linked := dev in links;
      var addresses := if linked then links[dev].addresses else [];
      var routes := if linked then links[dev].routes else [];
      ghost var rest := EnsureLink(dev, linked, c) + Reconcile(dev, addresses, routes, desired) + Settle(ident, c, dns);
      assert [Save(ident, c)] + Middle(links, dev, c, desired) + Settle(ident, c, dns) == [Save(ident, c)] + rest;
      alive := Perform(Save(ident, c));
      if !alive {
        RanDead(Do, w, start, [Save(ident, c)], View(), budget, rest);
        return;
      }
      ghost var v, left := View(), budget;
      alive := ChangeAndSettle(ident, linked, addresses, routes, c, desired, dns);
      RanThen(Do, w, start, [Save(ident, c)], v, left, rest, View(), budget, alive);
    }

    method ChangeAndSettle(
      ident: NetworkId, linked: bool, addresses: seq<Address>, routes: seq<Address>, c: Config, desired: Desired, dns: bool)
      returns (alive: bool)
      modifies this
      ensures Ran(Do, old(View()), old(budget),
                  EnsureLink(Interface(ident), linked, c) + Reconcile(Interface(ident), addresses, routes, desired)
                  + Settle(ident, c, dns), View(), budget, alive)
    {
      ghost var w, start := View(), budget;
      var dev := Interface(ident);
      ghost var kernel := EnsureLink(dev, linked, c) + Reconcile(dev, addresses, routes, desired);
      alive := ChangeKernel(dev, linked, addresses, routes, c, desired);
      if !alive {
        RanDead(Do, w, start, kernel, View(), budget, Settle(ident, c, dns));
        return;
      }
      ghost var v, left := View(), budget;
      alive := SaveSettled(ident, c, dns);
      RanThen(Do, w, start, kernel, v, left, Settle(ident, c, dns), View(), budget, alive);
    }

    method ChangeKernel(dev: Device, linked: bool, addresses: seq<Address>, routes: seq<Address>, c: Config, desired: Desired)
      returns (alive: bool)
      modifies this
      ensures Ran(Do, old(View()), old(budget),
                  EnsureLink(dev, linked, c) + Reconcile(dev, addresses, routes, desired), View(), budget, alive)
    {
      ghost var w, start := View(), budget;
      alive := CreateAndTag(dev, linked, c);
      if !alive {
        RanDead(Do, w, start, EnsureLink(dev, linked, c), View(), budget, Reconcile(dev, addresses, routes, desired));
        return;
      }
      ghost var v, left := View(), budget;
      alive := ReconcileLink(dev, addresses, routes, desired);
      RanThen(Do, w, start, EnsureLink(dev, linked, c), v, left, Reconcile(dev, addresses, routes, desired), View(), budget, alive);
    }

    method SaveSettled(ident: NetworkId, c: Config, dns: bool) returns (alive: bool)
      modifies this
      ensures Ran(Do, old(View()), old(budget), Settle(ident, c, dns), View(), budget, alive)
    {
      ghost var w, start, done := View(), budget, [];
      RunOne(Do, w, Reboot);
      if dns {
        alive := Continue(w, start, done, Save(ident, c.(creationGroup := None)));
        done := done + [Save(ident, c.(creationGroup := None))];
        if !alive {
          RanDead(Do, w, start, done, View(), budget, [Save(ident, Settled(c))]);
          return;
        }
      }
      assert Settle(ident, c, dns) == done + [Save(ident, Settled(c))];
      alive := Continue(w, start, done, Save(ident, Settled(c)));
    }

    /** `Host.remove`. Whatever happens, the journal covers what is left and removal is accepted again. */
    method Remove(ident: NetworkId, kept: (set<Address>, set<Address>)) returns (outcome: Outcome)
      modifies this
      ensures outcome.Rejected? <==> !RemoveAccepted(old(View()), ident)
      ensures outcome.Rejected? ==> View() == old(View())
      ensures Inv(old(View())) ==> Inv(View())
      ensures !outcome.Rejected? ==>
                Ran(Do, old(View()), old(budget), RemoveScript(old(View()), ident, kept.0, kept.1), View(), budget, outcome.Done?)
      ensures Inv(old(View())) && !outcome.Rejected? ==> RemoveAccepted(View(), ident)
      ensures Inv(old(View())) && outcome.Done? && ident in old(networks) ==> ident !in networks && Interface(ident) !in links
    {
      ghost var w, start := View(), budget;
      outcome := RunRemove(ident, kept);
      if Inv(w) && !outcome.Rejected? {
        ghost var script := RemoveScript(w, ident, kept.0, kept.1);
        RemovalCanBeRepeated(w, ident, kept, if start < |script| then start else |script|);
        assert script[..|script|] == script;
        RemoveAlways(w, ident, kept, x => true);
      }
    }

    /** The record is dropped only after the link is gone. */
    method RunRemove(ident: NetworkId, kept: (set<Address>, set<Address>)) returns (outcome: Outcome)
      modifies this
      ensures !RemoveAccepted(old(View()), ident) ==> outcome == Rejected && View() == old(View())
      ensures RemoveAccepted(old(View()), ident) ==>
                && !outcome.Rejected?
                && Ran(Do, old(View()), old(budget), RemoveScript(old(View()), ident, kept.0, kept.1), View(), budget, outcome.Done?)
    {
      ghost var w, start, done := View(), budget, [];
      RunOne(Do, w, Reboot);
      var dev := Interface(ident);
      if !RemoveAccepted(World(networks, links), ident) {
        return Rejected;
      }
      if ident !in networks {
        return Done;
      }
      if dev in links {
        assert RemoveScript(w, ident, kept.0, kept.1)
            == [LinkDown(dev, kept.0, kept.1)] + [DeleteLink(dev), Forget(ident)]
            == [LinkDown(dev, kept.0, kept.1), DeleteLink(dev)] + [Forget(ident)];
        var alive := Continue(w, start, done, LinkDown(dev, kept.0, kept.1));
        done := done + [LinkDown(dev, kept.0, kept.1)];
        if !alive {
          RanDead(Do, w, start, done, View(), budget, [DeleteLink(dev), Forget(ident)]);
          return Stopped;
        }
        alive := Continue(w, start, done, DeleteLink(dev));
        done := done + [DeleteLink(dev)];
        assert done == [LinkDown(dev, kept.0, kept.1), DeleteLink(dev)];
        if !alive {
          RanDead(Do, w, start, done, View(), budget, [Forget(ident)]);
          return Stopped;
        }
      }
      assert RemoveScript(w, ident, kept.0, kept.1) == done + [Forget(ident)];
      var alive := Continue(w, start, done, Forget(ident));
      outcome := if alive then Done else Stopped;
    }
  }
}
