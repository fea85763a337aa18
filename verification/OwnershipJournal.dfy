/**
The root network helper's write-ahead ownership journal
(scripts/tako-network-helper.py): state.json is saved before the kernel is changed,
so that after a crash at any command the helper still recognises what it left behind.

A link carries its non-link-local addresses and the routes that use the helper's
protocol and metric, in the order in which `ip` lists them. WireGuard peers, firewall
rules, SSH keys and DNS settings are not part of this model.
*/
module OwnershipJournal {
  import opened Results
  import opened Scripts

  type NetworkId = s: string | |s| == 32 witness seq(32, _ => '0')
  type Device = string

  /** An IPv6 address of a network's /48. */
  datatype Address = Address(prefix: nat, host: nat)

  const MAX_NETWORKS := 32

  function Interface(ident: NetworkId): Device { "tako" + ident[..10] }

  datatype Config = Config(
    alias: string,
    creationGroup: Option<nat>,
    port: nat,
    address: Address,
    peers: seq<Address>,
    managedAddresses: set<Address>,
    retiringRoutes: set<Address>)

  datatype Link = Link(
    wireguard: bool,
    alias: Option<string>,
    group: nat,
    up: bool,
    addresses: seq<Address>,
    routes: seq<Address>,
    foreignRoutes: bool)

  /** The saved state and the kernel's links. */
  datatype World = World(networks: map<NetworkId, Config>, links: map<Device, Link>)

  datatype Desired = Desired(port: nat, address: Address, peers: seq<Address>)

  /** The random values and host facts that one call draws on. */
  datatype Choices = Choices(alias: string, group: nat, dns: bool)

  // ----- Recognising one's own leftovers -----

  function OwnedRoutes(c: Config): set<Address> { (set p | p in c.peers) + c.retiringRoutes }

  /** `owned_link`: by alias, or by the creation group while the alias is not set. */
  predicate Recognised(link: Link, c: Config) {
    && link.wireguard
    && (link.alias == Some(c.alias) || (link.alias.None? && c.creationGroup == Some(link.group)))
  }

  /** The part of `inspect_host_state` about the network's own link. */
  predicate Inspected(link: Link, c: Config) {
    && (forall a | a in link.addresses :: a in c.managedAddresses)
    && (forall r | r in link.routes :: r in OwnedRoutes(c))
    && !link.foreignRoutes
  }

  predicate OwnLinkAccepted(w: World, ident: NetworkId) {
    Interface(ident) in w.links ==>
      && ident in w.networks
      && Recognised(w.links[Interface(ident)], w.networks[ident])
      && Inspected(w.links[Interface(ident)], w.networks[ident])
  }

  /** The checks of `apply` against the other networks and the other links. */
  predicate OthersAccept(w: World, ident: NetworkId, desired: Desired) {
    && (forall other | other in w.networks && other != ident ::
          && Interface(other) != Interface(ident)
          && w.networks[other].port != desired.port
          && w.networks[other].address.prefix != desired.address.prefix)
    && (ident in w.networks || |w.networks| < MAX_NETWORKS)
    && (forall dev | dev in w.links && dev != Interface(ident) ::
          && (forall r | r in w.links[dev].routes :: r !in desired.peers)
          && (forall a | a in w.links[dev].addresses :: a != desired.address && a !in desired.peers))
  }

  predicate ApplyAccepted(w: World, ident: NetworkId, desired: Desired) {
    OthersAccept(w, ident, desired) && OwnLinkAccepted(w, ident)
  }

  // ----- Effects -----

  datatype Effect =
    | Save(ident: NetworkId, config: Config)
    | Forget(ident: NetworkId)
    | AddLink(dev: Device, group: nat)
    | TagLink(dev: Device, alias: string)
    | DeleteAddress(dev: Device, address: Address)
    | ReplaceAddress(dev: Device, address: Address)
    | LinkUp(dev: Device)
    | DeleteRoute(dev: Device, route: Address)
    | ReplaceRoute(dev: Device, route: Address)
    // Taking a link down lets the kernel drop any of its addresses and routes.
    | LinkDown(dev: Device, keptAddresses: set<Address>, keptRoutes: set<Address>)
    | DeleteLink(dev: Device)
    // A reboot loses every link and keeps the saved state.
    | Reboot

  function Keep(xs: seq<Address>, kept: set<Address>): (r: seq<Address>)
    ensures forall x :: x in r <==> x in xs && x in kept
  {
    if xs == [] then [] else (if xs[0] in kept then [xs[0]] else []) + Keep(xs[1..], kept)
  }

  function Without(xs: seq<Address>, x: Address): (r: seq<Address>)
    ensures forall y :: y in r <==> y in xs && y != x
  {
    if xs == [] then [] else (if xs[0] == x then [] else [xs[0]]) + Without(xs[1..], x)
  }

  function With(xs: seq<Address>, x: Address): seq<Address> { if x in xs then xs else xs + [x] }

  /** What one command does to one link. Commands on a missing link fail and change nothing. */
  function ChangeLink(link: Link, e: Effect): Link {
    match e
    case TagLink(_, alias) => link.(alias := Some(alias), group := 0)
    case DeleteAddress(_, a) => link.(addresses := Without(link.addresses, a))
    case ReplaceAddress(_, a) => link.(addresses := With(link.addresses, a))
    case LinkUp(_) => link.(up := true)
    case DeleteRoute(_, r) => link.(routes := Without(link.routes, r))
    case ReplaceRoute(_, r) => link.(routes := With(link.routes, r))
    case LinkDown(_, addresses, routes) =>
      link.(up := false, addresses := Keep(link.addresses, addresses), routes := Keep(link.routes, routes))
    case _ => link
  }

  function Do(w: World, e: Effect): World {
    match e
    case Save(ident, c) => w.(networks := w.networks[ident := c])
    case Forget(ident) => w.(networks := w.networks - {ident})
    case AddLink(dev, group) =>
      if dev in w.links then w else w.(links := w.links[dev := Link(true, None, group, false, [], [], false)])
    case DeleteLink(dev) => w.(links := w.links - {dev})
    case Reboot => w.(links := map[])
    case _ => if e.dev in w.links then w.(links := w.links[e.dev := ChangeLink(w.links[e.dev], e)]) else w
  }

  // ----- The script of one call -----

  /** The configuration that is saved before anything else: nothing owned so far is dropped from it. */
  function Proposed(w: World, ident: NetworkId, desired: Desired, choices: Choices): Config {
    var known := ident in w.networks;
    var linked := Interface(ident) in w.links;
    Config(
      if known then w.networks[ident].alias else choices.alias,
      if !linked then Some(choices.group) else if known then w.networks[ident].creationGroup else None,
      desired.port,
      desired.address,
      desired.peers,
      (if known then w.networks[ident].managedAddresses else {}) + {desired.address},
      (if known then OwnedRoutes(w.networks[ident]) else {}) - (set p | p in desired.peers))
  }

  function Settled(c: Config): Config {
    c.(creationGroup := None, managedAddresses := {c.address}, retiringRoutes := {})
  }

  function DeleteAddresses(dev: Device, listed: seq<Address>, keep: Address): seq<Effect> {
    if listed == [] then []
    else (if listed[0] == keep then [] else [DeleteAddress(dev, listed[0])]) + DeleteAddresses(dev, listed[1..], keep)
  }

  function DeleteRoutes(dev: Device, listed: seq<Address>, wanted: seq<Address>): seq<Effect> {
    if listed == [] then []
    else (if listed[0] in wanted then [] else [DeleteRoute(dev, listed[0])]) + DeleteRoutes(dev, listed[1..], wanted)
  }

  function ReplaceRoutes(dev: Device, wanted: seq<Address>): seq<Effect> {
    if wanted == [] then [] else [ReplaceRoute(dev, wanted[0])] + ReplaceRoutes(dev, wanted[1..])
  }

  function EnsureLink(dev: Device, linked: bool, c: Config): seq<Effect> {
    (if linked || c.creationGroup.None? then [] else [AddLink(dev, c.creationGroup.value)])
    + (if c.creationGroup.Some? then [TagLink(dev, c.alias)] else [])
  }

  function Reconcile(dev: Device, addresses: seq<Address>, routes: seq<Address>, desired: Desired): seq<Effect> {
    DeleteAddresses(dev, addresses, desired.address)
    + [ReplaceAddress(dev, desired.address), LinkUp(dev)]
    + DeleteRoutes(dev, routes, desired.peers)
    + ReplaceRoutes(dev, desired.peers)
  }

  /** Between the saves: the link exists and is tagged, then its addresses and routes are brought in line. */
  function Middle(links: map<Device, Link>, dev: Device, c: Config, desired: Desired): seq<Effect> {
    var linked := dev in links;
    EnsureLink(dev, linked, c)
    + Reconcile(dev, if linked then links[dev].addresses else [], if linked then links[dev].routes else [], desired)
  }

  /** The effects of an accepted `apply`, in order. DNS configuration saves the state once more on the way. */
  function ApplyScript(w: World, ident: NetworkId, desired: Desired, choices: Choices): seq<Effect> {
    var c := Proposed(w, ident, desired, choices);
    [Save(ident, c)] + Middle(w.links, Interface(ident), c, desired) + Settle(ident, c, choices.dns)
  }

  function Settle(ident: NetworkId, c: Config, dns: bool): seq<Effect> {
    (if dns then [Save(ident, c.(creationGroup := None))] else []) + [Save(ident, Settled(c))]
  }

  /** `remove`: the link goes first, and only then the record that owns it. */
  function RemoveScript(w: World, ident: NetworkId, keptAddresses: set<Address>, keptRoutes: set<Address>): seq<Effect> {
    var dev := Interface(ident);
    if ident !in w.networks then []
    else (if dev in w.links then [LinkDown(dev, keptAddresses, keptRoutes), DeleteLink(dev)] else []) + [Forget(ident)]
  }

  // ----- Write-ahead ownership -----

  /** Whatever is on a managed network's link is in that network's journal. */
  ghost predicate Inv(w: World) {
    && (forall i, j | i in w.networks && j in w.networks && i != j :: Interface(i) != Interface(j))
    && (forall i | i in w.networks :: OwnLinkAccepted(w, i))
  }

  /** Only the record and the link of `ident` may differ. */
  ghost predicate SameElsewhere(w: World, x: World, ident: NetworkId) {
    && x.networks - {ident} == w.networks - {ident}
    && x.links - {Interface(ident)} == w.links - {Interface(ident)}
  }

  /** In the middle of a call that has saved `c` for `ident`. */
  ghost predicate Working(w: World, ident: NetworkId, c: Config, x: World) {
    Inv(x) && SameElsewhere(w, x, ident) && ident in x.networks && x.networks[ident] == c
  }

  /** A command on the network's own link that the saved configuration covers. */
  predicate Covered(dev: Device, c: Config, e: Effect) {
    match e
    case AddLink(d, group) => d == dev && c.creationGroup == Some(group)
    case TagLink(d, alias) => d == dev && alias == c.alias
    case DeleteAddress(d, _) => d == dev
    case ReplaceAddress(d, a) => d == dev && a in c.managedAddresses
    case LinkUp(d) => d == dev
    case DeleteRoute(d, _) => d == dev
    case ReplaceRoute(d, r) => d == dev && r in OwnedRoutes(c)
    case LinkDown(d, _, _) => d == dev
    case _ => false
  }

  lemma CoveredKeepsWorking(w: World, ident: NetworkId, c: Config, x: World, e: Effect)
    requires Working(w, ident, c, x) && Covered(Interface(ident), c, e)
    ensures Working(w, ident, c, Do(x, e))
  {
    var y := Do(x, e);
    var dev := Interface(ident);
    assert y.links - {dev} == x.links - {dev};
    forall i | i in y.networks
      ensures OwnLinkAccepted(y, i)
    {
      assert OwnLinkAccepted(x, i);
      assert OwnLinkAccepted(x, ident);
      assert i != ident ==> Interface(i) != dev && (Interface(i) in y.links <==> Interface(i) in (x.links - {dev}));
    }
  }

  lemma {:induction false} AllCovered(w: World, ident: NetworkId, c: Config, p: World -> bool, x: World, es: seq<Effect>)
    requires Working(w, ident, c, x) && forall e | e in es :: Covered(Interface(ident), c, e)
    requires forall y | Working(w, ident, c, y) :: p(y)
    ensures Always(Do, p, x, es) && Working(w, ident, c, RunAll(Do, x, es))
    decreases |es|
  {
    if es != [] {
      CoveredKeepsWorking(w, ident, c, x, es[0]);
      AllCovered(w, ident, c, p, Do(x, es[0]), es[1..]);
    }
  }

  /** The first save covers everything that is already on the link. */
  lemma ProposedCoversLink(w: World, ident: NetworkId, desired: Desired, choices: Choices)
    requires OwnLinkAccepted(w, ident) && Interface(ident) in w.links
    ensures var c := Proposed(w, ident, desired, choices);
            Recognised(w.links[Interface(ident)], c) && Inspected(w.links[Interface(ident)], c)
  {}

  lemma SaveKeepsInv(x: World, ident: NetworkId, c: Config)
    requires Inv(x)
    requires forall other | other in x.networks && other != ident :: Interface(other) != Interface(ident)
    requires Interface(ident) in x.links ==>
               Recognised(x.links[Interface(ident)], c) && Inspected(x.links[Interface(ident)], c)
    ensures Inv(Do(x, Save(ident, c))) && SameElsewhere(x, Do(x, Save(ident, c)), ident)
  {
    var y := Do(x, Save(ident, c));
    forall i | i in y.networks
      ensures OwnLinkAccepted(y, i)
    {
      assert i != ident ==> OwnLinkAccepted(x, i);
    }
  }

  lemma ProposedIsWorking(w: World, ident: NetworkId, desired: Desired, choices: Choices)
    requires Inv(w) && ApplyAccepted(w, ident, desired)
    ensures Working(w, ident, Proposed(w, ident, desired, choices), Do(w, Save(ident, Proposed(w, ident, desired, choices))))
  {
    if Interface(ident) in w.links {
      ProposedCoversLink(w, ident, desired, choices);
    }
    SaveKeepsInv(w, ident, Proposed(w, ident, desired, choices));
  }

  lemma {:induction false} DeletionsAreCovered(dev: Device, c: Config, listed: seq<Address>, keep: Address, wanted: seq<Address>)
    ensures forall e | e in DeleteAddresses(dev, listed, keep) :: Covered(dev, c, e)
    ensures forall e | e in DeleteRoutes(dev, listed, wanted) :: Covered(dev, c, e)
  {
    if listed != [] {
      DeletionsAreCovered(dev, c, listed[1..], keep, wanted);
    }
  }

  lemma {:induction false} ReplacementsAreCovered(dev: Device, c: Config, wanted: seq<Address>)
    requires forall r | r in wanted :: r in OwnedRoutes(c)
    ensures forall e | e in ReplaceRoutes(dev, wanted) :: Covered(dev, c, e)
  {
    if wanted != [] {
      ReplacementsAreCovered(dev, c, wanted[1..]);
    }
  }

  lemma ReconcileIsCovered(dev: Device, c: Config, addresses: seq<Address>, routes: seq<Address>, desired: Desired)
    requires desired.address in c.managedAddresses && c.peers == desired.peers
    ensures forall e | e in Reconcile(dev, addresses, routes, desired) :: Covered(dev, c, e)
  {
    DeletionsAreCovered(dev, c, addresses, desired.address, desired.peers);
    DeletionsAreCovered(dev, c, routes, desired.address, desired.peers);
    ReplacementsAreCovered(dev, c, desired.peers);
  }

  // ----- What reconciliation achieves -----

  /** `x` with the link `dev` replaced. */
  function WithLink(x: World, dev: Device, link: Link): World { x.(links := x.links[dev := link]) }

  lemma {:induction false} DeleteAddressesResult(x: World, dev: Device, listed: seq<Address>, keep: Address) returns (left: seq<Address>)
    requires dev in x.links
    ensures RunAll(Do, x, DeleteAddresses(dev, listed, keep)) == WithLink(x, dev, x.links[dev].(addresses := left))
    ensures forall a :: a in left <==> a in x.links[dev].addresses && (a == keep || a !in listed)
    decreases |listed|
  {
    if listed == [] {
      left := x.links[dev].addresses;
      assert WithLink(x, dev, x.links[dev].(addresses := left)).links == x.links;
    } else if listed[0] == keep {
      left := DeleteAddressesResult(x, dev, listed[1..], keep);
      assert DeleteAddresses(dev, listed, keep) == DeleteAddresses(dev, listed[1..], keep);
    } else {
      var y := Do(x, DeleteAddress(dev, listed[0]));
      left := DeleteAddressesResult(y, dev, listed[1..], keep);
      var es := DeleteAddresses(dev, listed, keep);
      assert es[0] == DeleteAddress(dev, listed[0]) && es[1..] == DeleteAddresses(dev, listed[1..], keep);
      assert WithLink(y, dev, y.links[dev].(addresses := left)).links
          == WithLink(x, dev, x.links[dev].(addresses := left)).links;
    }
  }

  lemma {:induction false} DeleteRoutesResult(x: World, dev: Device, listed: seq<Address>, wanted: seq<Address>) returns (left: seq<Address>)
    requires dev in x.links
    ensures RunAll(Do, x, DeleteRoutes(dev, listed, wanted)) == WithLink(x, dev, x.links[dev].(routes := left))
    ensures forall r :: r in left <==> r in x.links[dev].routes && (r in wanted || r !in listed)
    decreases |listed|
  {
    if listed == [] {
      left := x.links[dev].routes;
      assert WithLink(x, dev, x.links[dev].(routes := left)).links == x.links;
    } else if listed[0] in wanted {
      left := DeleteRoutesResult(x, dev, listed[1..], wanted);
      assert DeleteRoutes(dev, listed, wanted) == DeleteRoutes(dev, listed[1..], wanted);
    } else {
      var y := Do(x, DeleteRoute(dev, listed[0]));
      left := DeleteRoutesResult(y, dev, listed[1..], wanted);
      var es := DeleteRoutes(dev, listed, wanted);
      assert es[0] == DeleteRoute(dev, listed[0]) && es[1..] == DeleteRoutes(dev, listed[1..], wanted);
      assert WithLink(y, dev, y.links[dev].(routes := left)).links == WithLink(x, dev, x.links[dev].(routes := left)).links;
    }
  }

  lemma {:induction false} ReplaceRoutesResult(x: World, dev: Device, wanted: seq<Address>) returns (all: seq<Address>)
    requires dev in x.links
    ensures RunAll(Do, x, ReplaceRoutes(dev, wanted)) == WithLink(x, dev, x.links[dev].(routes := all))
    ensures forall r :: r in all <==> r in x.links[dev].routes || r in wanted
    decreases |wanted|
  {
    if wanted == [] {
      all := x.links[dev].routes;
      assert WithLink(x, dev, x.links[dev].(routes := all)).links == x.links;
    } else {
      var y := Do(x, ReplaceRoute(dev, wanted[0]));
      all := ReplaceRoutesResult(y, dev, wanted[1..]);
      var es := ReplaceRoutes(dev, wanted);
      assert es[0] == ReplaceRoute(dev, wanted[0]) && es[1..] == ReplaceRoutes(dev, wanted[1..]);
      assert WithLink(y, dev, y.links[dev].(routes := all)).links == WithLink(x, dev, x.links[dev].(routes := all)).links;
    }
  }

  /** Exactly the desired address and the peers' routes. */
  ghost predicate Reconciled(link: Link, desired: Desired) {
    && link.up
    && (forall a :: a in link.addresses <==> a == desired.address)
    && (forall r :: r in link.routes <==> r in desired.peers)
  }

  lemma ReconcileResult(x: World, dev: Device, desired: Desired)
    requires dev in x.links
    ensures var y := RunAll(Do, x, Reconcile(dev, x.links[dev].addresses, x.links[dev].routes, desired));
            && dev in y.links && Reconciled(y.links[dev], desired)
            && y.links[dev].alias == x.links[dev].alias && y.links[dev].wireguard == x.links[dev].wireguard
            && y.networks == x.networks
  {
    var link := x.links[dev];
    var d1 := DeleteAddresses(dev, link.addresses, desired.address);
    var d2 := [ReplaceAddress(dev, desired.address), LinkUp(dev)];
    var d3 := DeleteRoutes(dev, link.routes, desired.peers);
    var d4 := ReplaceRoutes(dev, desired.peers);
    var left := DeleteAddressesResult(x, dev, link.addresses, desired.address);
    var x1 := RunAll(Do, x, d1);
    RunAppend(Do, x, d1, d2);
    var x2 := RunAll(Do, x1, d2);
    assert x2 == Do(Do(x1, d2[0]), d2[1]) by {
      assert d2[1..] == [d2[1]];
      RunOne(Do, Do(x1, d2[0]), d2[1]);
    }
    var kept := DeleteRoutesResult(x2, dev, link.routes, desired.peers);
    RunAppend(Do, x, d1 + d2, d3);
    var x3 := RunAll(Do, x2, d3);
    var all := ReplaceRoutesResult(x3, dev, desired.peers);
    RunAppend(Do, x, d1 + d2 + d3, d4);
  }

  // ----- One call -----

  lemma EnsureLinkResult(x: World, ident: NetworkId, c: Config)
    requires Inv(x) && ident in x.networks && x.networks[ident] == c
    requires Interface(ident) !in x.links ==> c.creationGroup.Some?
    ensures var dev := Interface(ident);
            var y := RunAll(Do, x, EnsureLink(dev, dev in x.links, c));
            && dev in y.links && y.links[dev].wireguard && y.links[dev].alias == Some(c.alias)
            && y.links[dev].addresses == (if dev in x.links then x.links[dev].addresses else [])
            && y.links[dev].routes == (if dev in x.links then x.links[dev].routes else [])
    ensures forall e | e in EnsureLink(Interface(ident), Interface(ident) in x.links, c) :: Covered(Interface(ident), c, e)
  {
    var dev := Interface(ident);
    assert OwnLinkAccepted(x, ident);
    var add := if dev in x.links || c.creationGroup.None? then [] else [AddLink(dev, c.creationGroup.value)];
    var tag := if c.creationGroup.Some? then [TagLink(dev, c.alias)] else [];
    RunAppend(Do, x, add, tag);
    if add != [] {
      RunOne(Do, x, add[0]);
    }
    var y := RunAll(Do, x, add);
    if tag != [] {
      RunOne(Do, y, tag[0]);
    }
  }

  /** `p` holds of every world that a call for `ident` can leave behind. */
  ghost predicate Tolerates(p: World -> bool, w: World, ident: NetworkId) {
    forall y | Inv(y) && SameElsewhere(w, y, ident) && ident in y.networks :: p(y)
  }

  lemma SaveAgain(w: World, ident: NetworkId, c: Config, p: World -> bool, x: World)
    requires Inv(x) && SameElsewhere(w, x, ident) && ident in x.networks && Interface(ident) in x.links
    requires Recognised(x.links[Interface(ident)], c) && Inspected(x.links[Interface(ident)], c)
    requires Tolerates(p, w, ident)
    ensures Always(Do, p, x, [Save(ident, c)])
    ensures Working(w, ident, c, RunAll(Do, x, [Save(ident, c)]))
    ensures RunAll(Do, x, [Save(ident, c)]) == x.(networks := x.networks[ident := c])
  {
    SaveKeepsInv(x, ident, c);
    RunOne(Do, x, Save(ident, c));
    AlwaysOne(Do, p, x, Save(ident, c));
  }

  /** The saves at the end, once the link is exactly as desired. */
  lemma SettleAlways(w: World, ident: NetworkId, desired: Desired, c: Config, p: World -> bool, x: World, dns: bool)
    requires Working(w, ident, c, x) && Interface(ident) in x.links
    requires x.links[Interface(ident)].alias == Some(c.alias) && Reconciled(x.links[Interface(ident)], desired)
    requires c.address == desired.address && c.peers == desired.peers
    requires Tolerates(p, w, ident)
    ensures Always(Do, p, x, Settle(ident, c, dns))
    ensures Working(w, ident, Settled(c), RunAll(Do, x, Settle(ident, c, dns)))
    ensures RunAll(Do, x, Settle(ident, c, dns)).links == x.links
  {
    assert OwnLinkAccepted(x, ident);
    if dns {
      var untagged := c.(creationGroup := None);
      SaveAgain(w, ident, untagged, p, x);
      var y := RunAll(Do, x, [Save(ident, untagged)]);
      SaveAgain(w, ident, Settled(c), p, y);
      Sequence(Do, p, x, [Save(ident, untagged)], [Save(ident, Settled(c))]);
    } else {
      SaveAgain(w, ident, Settled(c), p, x);
      assert [] + [Save(ident, Settled(c))] == [Save(ident, Settled(c))];
    }
  }

  /** The commands between the first save and the last ones. */
  lemma MiddleAlways(w: World, ident: NetworkId, desired: Desired, c: Config, p: World -> bool, x: World)
    requires Working(w, ident, c, x) && Tolerates(p, w, ident)
    requires Interface(ident) !in x.links ==> c.creationGroup.Some?
    requires desired.address in c.managedAddresses && c.peers == desired.peers
    ensures var dev := Interface(ident);
            var es := Middle(x.links, dev, c, desired);
            var y := RunAll(Do, x, es);
            && Always(Do, p, x, es) && Working(w, ident, c, y)
            && dev in y.links && y.links[dev].alias == Some(c.alias) && Reconciled(y.links[dev], desired)
  {
    var dev := Interface(ident);
    var es := EnsureLink(dev, dev in x.links, c);
    EnsureLinkResult(x, ident, c);
    AllCovered(w, ident, c, p, x, es);
    var y := RunAll(Do, x, es);
    var rest := Reconcile(dev, y.links[dev].addresses, y.links[dev].routes, desired);
    ReconcileIsCovered(dev, c, y.links[dev].addresses, y.links[dev].routes, desired);
    AllCovered(w, ident, c, p, y, rest);
    ReconcileResult(y, dev, desired);
    Sequence(Do, p, x, es, rest);
  }

  lemma FirstSave(w: World, ident: NetworkId, desired: Desired, choices: Choices, p: World -> bool)
    requires Inv(w) && ApplyAccepted(w, ident, desired) && p(w) && Tolerates(p, w, ident)
    ensures var c := Proposed(w, ident, desired, choices);
            var x := RunAll(Do, w, [Save(ident, c)]);
            && Always(Do, p, w, [Save(ident, c)]) && Working(w, ident, c, x) && x.links == w.links
            && (Interface(ident) !in w.links ==> c.creationGroup.Some?)
            && desired.address in c.managedAddresses && c.peers == desired.peers && c.address == desired.address
  {
    var c := Proposed(w, ident, desired, choices);
    ProposedIsWorking(w, ident, desired, choices);
    AlwaysOne(Do, p, w, Save(ident, c));
    RunOne(Do, w, Save(ident, c));
  }

  /** A call keeps the invariant wherever it stops, touches nothing else, and reaches the desired state when it does not stop. */
  lemma ApplyAlways(w: World, ident: NetworkId, desired: Desired, choices: Choices, p: World -> bool)
    requires Inv(w) && ApplyAccepted(w, ident, desired) && p(w) && Tolerates(p, w, ident)
    ensures var y := RunAll(Do, w, ApplyScript(w, ident, desired, choices));
            && Always(Do, p, w, ApplyScript(w, ident, desired, choices))
            && Working(w, ident, Settled(Proposed(w, ident, desired, choices)), y)
            && Interface(ident) in y.links && Reconciled(y.links[Interface(ident)], desired)
  {
    var c := Proposed(w, ident, desired, choices);
    FirstSave(w, ident, desired, choices, p);
    ComposeApply(w, ident, desired, c, choices.dns, p);
  }

  lemma ComposeApply(w: World, ident: NetworkId, desired: Desired, c: Config, dns: bool, p: World -> bool)
    requires Tolerates(p, w, ident)
    requires Always(Do, p, w, [Save(ident, c)])
    requires Working(w, ident, c, RunAll(Do, w, [Save(ident, c)])) && RunAll(Do, w, [Save(ident, c)]).links == w.links
    requires Interface(ident) !in w.links ==> c.creationGroup.Some?
    requires desired.address in c.managedAddresses && c.peers == desired.peers && c.address == desired.address
    ensures var es := [Save(ident, c)] + Middle(w.links, Interface(ident), c, desired) + Settle(ident, c, dns);
            var y := RunAll(Do, w, es);
            && Always(Do, p, w, es)
            && Working(w, ident, Settled(c), y)
            && Interface(ident) in y.links && Reconciled(y.links[Interface(ident)], desired)
  {
    var first, middle := [Save(ident, c)], Middle(w.links, Interface(ident), c, desired);
    var x := RunAll(Do, w, first);
    MiddleAlways(w, ident, desired, c, p, x);
    Sequence(Do, p, w, first, middle);
    SettleAlways(w, ident, desired, c, p, RunAll(Do, x, middle), dns);
    Sequence(Do, p, w, first + middle, Settle(ident, c, dns));
  }

  lemma StillAccepted(w: World, ident: NetworkId, desired: Desired, x: World)
    requires ApplyAccepted(w, ident, desired) && Inv(x) && SameElsewhere(w, x, ident) && ident in x.networks
    ensures ApplyAccepted(x, ident, desired)
  {
    assert OwnLinkAccepted(x, ident);
    forall other | other in x.networks && other != ident
      ensures other in w.networks && w.networks[other] == x.networks[other]
    {
      assert other in x.networks - {ident};
    }
    forall dev | dev in x.links && dev != Interface(ident)
      ensures dev in w.links && w.links[dev] == x.links[dev]
    {
      assert dev in x.links - {Interface(ident)};
    }
  }

  /** Wherever `apply` stops, and whether or not the link is then taken down, the same request is accepted again. */
  lemma RetryIsAccepted(
    w: World, ident: NetworkId, desired: Desired, choices: Choices, k: nat, kept: (set<Address>, set<Address>))
    requires Inv(w) && ApplyAccepted(w, ident, desired) && k <= |ApplyScript(w, ident, desired, choices)|
    ensures var x := RunAll(Do, w, ApplyScript(w, ident, desired, choices)[..k]);
            && Inv(x) && ApplyAccepted(x, ident, desired)
            && Inv(Do(x, LinkDown(Interface(ident), kept.0, kept.1)))
            && ApplyAccepted(Do(x, LinkDown(Interface(ident), kept.0, kept.1)), ident, desired)
  {
    var p := (x: World) => x == w || (Inv(x) && SameElsewhere(w, x, ident) && ident in x.networks);
    ApplyAlways(w, ident, desired, choices, p);
    var x := RunAll(Do, w, ApplyScript(w, ident, desired, choices)[..k]);
    AtEveryCrash(Do, p, w, ApplyScript(w, ident, desired, choices), k);
    var down := Do(x, LinkDown(Interface(ident), kept.0, kept.1));
    if ident in x.networks {
      StillAccepted(w, ident, desired, x);
      assert Working(x, ident, x.networks[ident], x);
      CoveredKeepsWorking(x, ident, x.networks[ident], x, LinkDown(Interface(ident), kept.0, kept.1));
      StillAccepted(x, ident, desired, down);
    } else {
      assert down == w;
    }
  }

  // ----- Removal -----

  predicate RemoveAccepted(w: World, ident: NetworkId) {
    && OwnLinkAccepted(w, ident)
    && (ident in w.networks ==>
          forall dev | dev in w.links && dev != Interface(ident) ::
            forall r | r in w.links[dev].routes :: r !in w.networks[ident].peers)
  }

  /** Removal keeps the record until the link is gone, so wherever it stops it is accepted again. */
  lemma RemoveAlways(w: World, ident: NetworkId, kept: (set<Address>, set<Address>), p: World -> bool)
    requires Inv(w) && RemoveAccepted(w, ident)
    requires forall y | Inv(y) && SameElsewhere(w, y, ident) && OwnLinkAccepted(y, ident)
                        && (ident in y.networks ==> ident in w.networks && y.networks == w.networks) :: p(y)
    ensures var y := RunAll(Do, w, RemoveScript(w, ident, kept.0, kept.1));
            && Always(Do, p, w, RemoveScript(w, ident, kept.0, kept.1))
            && Inv(y) && SameElsewhere(w, y, ident) && OwnLinkAccepted(y, ident)
            && ident !in y.networks && Interface(ident) !in y.links
  {
    var dev := Interface(ident);
    RunOne(Do, w, Reboot);
    AlwaysOne(Do, p, w, Reboot);
    if ident in w.networks {
      var link := if dev in w.links then [LinkDown(dev, kept.0, kept.1), DeleteLink(dev)] else [];
      var x := RunAll(Do, w, link);
      if dev in w.links {
        var c := w.networks[ident];
        var down, gone := [LinkDown(dev, kept.0, kept.1)], [DeleteLink(dev)];
        CoveredKeepsWorking(w, ident, c, w, down[0]);
        RunOne(Do, w, down[0]);
        AlwaysOne(Do, p, w, down[0]);
        var y := Do(w, down[0]);
        assert OwnLinkAccepted(y, ident);
        DeleteLinkKeepsInv(y, ident);
        RunOne(Do, y, gone[0]);
        AlwaysOne(Do, p, y, gone[0]);
        Sequence(Do, p, w, down, gone);
        assert down + gone == link;
      }
      ForgetKeepsInv(x, ident);
      RunOne(Do, x, Forget(ident));
      AlwaysOne(Do, p, x, Forget(ident));
      Sequence(Do, p, w, link, [Forget(ident)]);
    }
  }

  lemma StillRemovable(w: World, ident: NetworkId, y: World)
    requires RemoveAccepted(w, ident) && SameElsewhere(w, y, ident) && OwnLinkAccepted(y, ident)
    requires ident in y.networks ==> ident in w.networks && y.networks == w.networks
    ensures RemoveAccepted(y, ident)
  {
    forall dev | dev in y.links && dev != Interface(ident)
      ensures dev in w.links && w.links[dev] == y.links[dev]
    {
      assert dev in y.links - {Interface(ident)};
    }
  }

  /** Wherever removal stops it is accepted again. */
  lemma RemovalCanBeRepeated(w: World, ident: NetworkId, kept: (set<Address>, set<Address>), k: nat)
    requires Inv(w) && RemoveAccepted(w, ident) && k <= |RemoveScript(w, ident, kept.0, kept.1)|
    ensures var x := RunAll(Do, w, RemoveScript(w, ident, kept.0, kept.1)[..k]); Inv(x) && RemoveAccepted(x, ident)
  {
    var p := (y: World) => Inv(y) && RemoveAccepted(y, ident);
    forall y | Inv(y) && SameElsewhere(w, y, ident) && OwnLinkAccepted(y, ident)
               && (ident in y.networks ==> ident in w.networks && y.networks == w.networks)
      ensures p(y)
    {
      StillRemovable(w, ident, y);
    }
    RemoveAlways(w, ident, kept, p);
    AtEveryCrash(Do, p, w, RemoveScript(w, ident, kept.0, kept.1), k);
  }

  lemma DeleteLinkKeepsInv(x: World, ident: NetworkId)
    requires Inv(x)
    ensures var y := Do(x, DeleteLink(Interface(ident)));
            Inv(y) && SameElsewhere(x, y, ident) && y.networks == x.networks && Interface(ident) !in y.links
  {
    var y := Do(x, DeleteLink(Interface(ident)));
    forall i | i in y.networks
      ensures OwnLinkAccepted(y, i)
    {
      assert OwnLinkAccepted(x, i);
    }
  }

  lemma ForgetKeepsInv(x: World, ident: NetworkId)
    requires Inv(x)
    ensures var y := Do(x, Forget(ident));
            Inv(y) && SameElsewhere(x, y, ident) && y.links == x.links && ident !in y.networks
  {
    var y := Do(x, Forget(ident));
    forall i | i in y.networks
      ensures OwnLinkAccepted(y, i)
    {
      assert OwnLinkAccepted(x, i);
    }
  }

  // ----- Whole histories -----

  /** Every link that somebody else did not create belongs to a managed network. */
  ghost predicate NoOrphans(w: World, foreign: set<Device>) {
    forall dev | dev in w.links && dev !in foreign :: exists ident | ident in w.networks :: Interface(ident) == dev
  }

  lemma NoOrphansElsewhere(w: World, x: World, ident: NetworkId, foreign: set<Device>)
    requires NoOrphans(w, foreign) && SameElsewhere(w, x, ident)
    requires Interface(ident) in x.links && Interface(ident) !in foreign ==> ident in x.networks
    ensures NoOrphans(x, foreign)
  {
    forall dev | dev in x.links && dev !in foreign
      ensures exists i | i in x.networks :: Interface(i) == dev
    {
      if dev != Interface(ident) {
        assert dev in x.links - {Interface(ident)};
        var i :| i in w.networks && Interface(i) == dev;
        assert i in w.networks - {ident};
      }
    }
  }

  /** One call of the helper or one reboot; `done` effects of the call happen before it stops. */
  datatype Call =
    | Apply(ident: NetworkId, desired: Desired, choices: Choices, done: nat, down: Option<(set<Address>, set<Address>)>)
    | Remove(ident: NetworkId, kept: (set<Address>, set<Address>), done: nat)
    | Restart

  function After(w: World, call: Call): World {
    match call
    case Apply(ident, desired, choices, done, down) =>
      if !ApplyAccepted(w, ident, desired) then w
      else
        var es := ApplyScript(w, ident, desired, choices);
        var x := RunAll(Do, w, Survives(done, es));
        if done < |es| && down.Some? then Do(x, LinkDown(Interface(ident), down.value.0, down.value.1)) else x
    case Remove(ident, kept, done) =>
      if !RemoveAccepted(w, ident) then w
      else RunAll(Do, w, Survives(done, RemoveScript(w, ident, kept.0, kept.1)))
    case Restart => Do(w, Reboot)
  }

  function AfterAll(w: World, calls: seq<Call>): World
    decreases |calls|
  {
    if calls == [] then w else AfterAll(After(w, calls[0]), calls[1..])
  }

  lemma SurvivesIsPrefix<E>(budget: nat, es: seq<E>)
    ensures Survives(budget, es) == es[..if budget < |es| then budget else |es|]
  {}

  lemma DownKeeps(x: World, ident: NetworkId, kept: (set<Address>, set<Address>), foreign: set<Device>)
    requires Inv(x) && NoOrphans(x, foreign) && OwnLinkAccepted(x, ident)
    ensures var y := Do(x, LinkDown(Interface(ident), kept.0, kept.1));
            Inv(y) && NoOrphans(y, foreign)
  {
    var e := LinkDown(Interface(ident), kept.0, kept.1);
    if Interface(ident) in x.links {
      assert Working(x, ident, x.networks[ident], x);
      CoveredKeepsWorking(x, ident, x.networks[ident], x, e);
      NoOrphansElsewhere(x, Do(x, e), ident, foreign);
    }
  }

  lemma StoppedApplyKeeps(w: World, ident: NetworkId, desired: Desired, choices: Choices, done: nat, foreign: set<Device>)
    requires Inv(w) && NoOrphans(w, foreign) && ApplyAccepted(w, ident, desired)
    ensures var x := RunAll(Do, w, Survives(done, ApplyScript(w, ident, desired, choices)));
            Inv(x) && NoOrphans(x, foreign) && OwnLinkAccepted(x, ident)
  {
    var es := ApplyScript(w, ident, desired, choices);
    var p := (x: World) => x == w || (Inv(x) && SameElsewhere(w, x, ident) && ident in x.networks);
    ApplyAlways(w, ident, desired, choices, p);
    SurvivesIsPrefix(done, es);
    AtEveryCrash(Do, p, w, es, if done < |es| then done else |es|);
    var x := RunAll(Do, w, Survives(done, es));
    if x != w {
      NoOrphansElsewhere(w, x, ident, foreign);
    }
  }

  lemma ApplyCallKeeps(w: World, call: Call, foreign: set<Device>)
    requires call.Apply? && Inv(w) && NoOrphans(w, foreign)
    ensures Inv(After(w, call)) && NoOrphans(After(w, call), foreign)
  {
    var Apply(ident, desired, choices, done, down) := call;
    if ApplyAccepted(w, ident, desired) {
      StoppedApplyKeeps(w, ident, desired, choices, done, foreign);
      var x := RunAll(Do, w, Survives(done, ApplyScript(w, ident, desired, choices)));
      if down.Some? {
        DownKeeps(x, ident, down.value, foreign);
      }
    }
  }

  lemma RemoveCallKeeps(w: World, call: Call, foreign: set<Device>)
    requires call.Remove? && Inv(w) && NoOrphans(w, foreign)
    ensures Inv(After(w, call)) && NoOrphans(After(w, call), foreign)
  {
    var Remove(ident, kept, done) := call;
    if RemoveAccepted(w, ident) {
      var es := RemoveScript(w, ident, kept.0, kept.1);
      var p := (x: World) => Inv(x) && SameElsewhere(w, x, ident) && OwnLinkAccepted(x, ident);
      RemoveAlways(w, ident, kept, p);
      SurvivesIsPrefix(done, es);
      AtEveryCrash(Do, p, w, es, if done < |es| then done else |es|);
      NoOrphansElsewhere(w, After(w, call), ident, foreign);
    }
  }

  lemma {:induction false} HistoryKeepsInv(w: World, calls: seq<Call>, foreign: set<Device>)
    requires Inv(w) && NoOrphans(w, foreign)
    ensures Inv(AfterAll(w, calls)) && NoOrphans(AfterAll(w, calls), foreign)
    decreases |calls|
  {
    if calls != [] {
      match calls[0] {
        case Apply(_, _, _, _, _) => ApplyCallKeeps(w, calls[0], foreign);
        case Remove(_, _, _) => RemoveCallKeeps(w, calls[0], foreign);
        case Restart =>
          assert forall i | i in After(w, Restart).networks :: OwnLinkAccepted(After(w, Restart), i);
      }
      HistoryKeepsInv(After(w, calls[0]), calls[1..], foreign);
    }
  }

  /**
  After any history of calls, crashes, failures and reboots on a host whose own links
  are `foreign`, no leftover of the helper is rejected as foreign.
  */
  lemma LeftoversAreRecognised(links: map<Device, Link>, calls: seq<Call>, ident: NetworkId)
    requires Interface(ident) !in links
    ensures var w := AfterAll(World(map[], links), calls);
            (forall other | other in w.networks && other != ident :: Interface(other) != Interface(ident))
            ==> OwnLinkAccepted(w, ident)
  {
    HistoryKeepsInv(World(map[], links), calls, links.Keys);
  }

  /** And a call that is accepted then and not interrupted ends with exactly the desired address and routes. */
  lemma CompletedApplyIsExact(links: map<Device, Link>, calls: seq<Call>, ident: NetworkId, desired: Desired, choices: Choices)
    ensures var w := AfterAll(World(map[], links), calls);
            var y := RunAll(Do, w, ApplyScript(w, ident, desired, choices));
            ApplyAccepted(w, ident, desired) ==>
              && Interface(ident) in y.links && Reconciled(y.links[Interface(ident)], desired)
              && ident in y.networks && y.networks[ident].managedAddresses == {desired.address}
              && OwnedRoutes(y.networks[ident]) == (set r | r in desired.peers)
              && SameElsewhere(w, y, ident)
  {
    HistoryKeepsInv(World(map[], links), calls, links.Keys);
    var w := AfterAll(World(map[], links), calls);
    if ApplyAccepted(w, ident, desired) {
      ApplyAlways(w, ident, desired, choices, x => true);
    }
  }
}
