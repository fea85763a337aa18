/**
Leaf-certificate renewal (tako-network/src/server_identity.rs and its
secure.rs): a journal, four file replacements and a crash at any point.

A certificate is its serial, validity interval and issuer. A leaf whose key, names,
roles or signature do not bind it to an issuer's files counts as issued by somebody
else. Times are unbounded integers in seconds.
*/
module LeafRenewal {
  import opened Results
  import opened Scripts

  const RENEW_BEFORE := 2_592_000
  const LEAF_LIFETIME := 31_536_000
  const VERSION := 1

  datatype Ca = Ca(id: nat, start: int, end: int)
  datatype Leaf = Leaf(serial: nat, start: int, end: int, issuer: nat)
  datatype Chain = Chain(leaf: Leaf, ca: Ca)
  datatype Pair = Pair(leaf: Leaf, chain: Chain)
  datatype Update = Update(previous: Leaf, replacement: Leaf)
  datatype Journal = Journal(version: nat, digest: nat, https: Update, gossip: Update)

  /** The files that renewal reads and replaces. `stage` tells whether a staging file is left over. */
  datatype Disk = Disk(https: Pair, gossip: Pair, journal: Option<Journal>, stage: bool)

  /** The prepared identity, which renewal never changes. */
  datatype Identity = Identity(intact: bool, digest: nat, https: Ca, gossip: Ca)

  datatype Policy = Current | Renewal

  // ----- Validation -----

  predicate CaValid(ca: Ca, now: int) { ca.start <= now < ca.end }

  /** `validate_leaf`: binding and interval, with the chain verified at a time inside the leaf's own validity. */
  predicate LeafValid(ca: Ca, leaf: Leaf, now: int, policy: Policy) {
    var verifyAt := if now < leaf.end - 1 then now else leaf.end - 1;
    && leaf.issuer == ca.id
    && leaf.start <= now
    && leaf.start < leaf.end
    && (policy.Current? ==> now < leaf.end)
    && CaValid(ca, verifyAt)
  }

  /** `validate_tls`: against the journal's two generations, or as one consistent pair. */
  predicate PairValid(ca: Ca, pair: Pair, now: int, policy: Policy, update: Option<Update>) {
    && CaValid(ca, now)
    && match update
       case None => pair.chain == Chain(pair.leaf, ca) && LeafValid(ca, pair.leaf, now, policy)
       case Some(u) =>
         && LeafValid(ca, u.previous, now, policy)
         && LeafValid(ca, u.replacement, now, policy)
         && pair.leaf in {u.previous, u.replacement}
         && pair.chain in {Chain(u.previous, ca), Chain(u.replacement, ca)}
         && u.previous.end <= u.replacement.end
  }

  predicate DiskValid(id: Identity, d: Disk, now: int, policy: Policy, journal: Option<Journal>) {
    && id.intact
    && id.https != id.gossip
    && PairValid(id.https, d.https, now, policy, if journal.Some? then Some(journal.value.https) else None)
    && PairValid(id.gossip, d.gossip, now, policy, if journal.Some? then Some(journal.value.gossip) else None)
  }

  /** `load` accepts the directory at `now`. */
  predicate Loads(id: Identity, d: Disk, now: int) {
    d.journal.None? && DiskValid(id, d, now, Current, None)
  }

  // ----- Planning -----

  function NewExpiry(ca: Ca, now: int): int {
    if now + LEAF_LIFETIME < ca.end then now + LEAF_LIFETIME else ca.end
  }

  /** `LeafUpdate::plan`: a new leaf when at most thirty days are left and a longer one is possible. */
  function PlanUpdate(ca: Ca, leaf: Leaf, now: int, serial: nat): Update {
    if leaf.end <= now + RENEW_BEFORE && leaf.end < NewExpiry(ca, now)
    then Update(leaf, Leaf(serial, now, NewExpiry(ca, now), ca.id))
    else Update(leaf, leaf)
  }

  predicate UpdateValid(ca: Ca, u: Update, now: int) {
    u.previous != u.replacement ==> LeafValid(ca, u.replacement, now, Current)
  }

  function PlanJournal(id: Identity, d: Disk, now: int, serials: (nat, nat)): Journal {
    Journal(VERSION, id.digest, PlanUpdate(id.https, d.https.leaf, now, serials.0),
            PlanUpdate(id.gossip, d.gossip.leaf, now, serials.1))
  }

  predicate Changes(j: Journal) {
    j.https.previous != j.https.replacement || j.gossip.previous != j.gossip.replacement
  }

  // ----- Durable effects -----

  /** One step that survives a crash. A rename consumes the staging file. */
  datatype Effect =
    | CreateStage
    | DropStage
    | PublishJournal(journal: Journal)
    | HttpsLeaf(leaf: Leaf)
    | HttpsChain(chain: Chain)
    | GossipLeaf(leaf: Leaf)
    | GossipChain(chain: Chain)
    | DropJournal

  function Do(d: Disk, e: Effect): Disk {
    match e
    case CreateStage => d.(stage := true)
    case DropStage => d.(stage := false)
    case PublishJournal(j) => d.(journal := Some(j), stage := false)
    case HttpsLeaf(leaf) => d.(https := d.https.(leaf := leaf), stage := false)
    case HttpsChain(chain) => d.(https := d.https.(chain := chain), stage := false)
    case GossipLeaf(leaf) => d.(gossip := d.gossip.(leaf := leaf), stage := false)
    case GossipChain(chain) => d.(gossip := d.gossip.(chain := chain), stage := false)
    case DropJournal => d.(journal := None)
  }

  function Discard(d: Disk): seq<Effect> { if d.stage then [DropStage] else [] }

  /** `replace_path` writes only a file that differs. */
  function Replace(same: bool, e: Effect): seq<Effect> { if same then [] else [CreateStage, e] }

  /** `LeafUpdate::apply` for both roles, then the removal of the journal. */
  function Install(id: Identity, d: Disk, j: Journal): seq<Effect> {
    Replace(d.https.leaf == j.https.replacement, HttpsLeaf(j.https.replacement))
    + Replace(d.https.chain == Chain(j.https.replacement, id.https), HttpsChain(Chain(j.https.replacement, id.https)))
    + Replace(d.gossip.leaf == j.gossip.replacement, GossipLeaf(j.gossip.replacement))
    + Replace(d.gossip.chain == Chain(j.gossip.replacement, id.gossip), GossipChain(Chain(j.gossip.replacement, id.gossip)))
    + [DropJournal]
  }

  /** Publishes the journal and installs it, when it replaces anything. */
  function Commit(id: Identity, d: Disk, j: Journal): seq<Effect> {
    if Changes(j) then [CreateStage, PublishJournal(j)] + Install(id, d, j) else []
  }

  datatype Script = Script(effects: seq<Effect>, accepted: bool)

  /** What `renew_with_clock` does to the disk when nothing interrupts it. `later` is the second clock reading. */
  function RenewScript(id: Identity, d: Disk, now: int, later: int, serials: (nat, nat)): Script {
    match d.journal
    case None => FreshScript(id, d, now, later, serials)
    case Some(j) =>
      if j.version != VERSION || j.digest != id.digest || !DiskValid(id, d, now, Renewal, Some(j)) then Script([], false)
      else
        var recovery := Discard(d) + Install(id, d, j);
        var rest := FreshScript(id, RunAll(Do, d, recovery), now, later, serials);
        Script(recovery + rest.effects, rest.accepted)
  }

  function FreshScript(id: Identity, d: Disk, now: int, later: int, serials: (nat, nat)): Script {
    if !DiskValid(id, d, now, Renewal, None) then Script([], false)
    else
      var j := PlanJournal(id, d, now, serials);
      if !UpdateValid(id.https, j.https, now) || !UpdateValid(id.gossip, j.gossip, now) then Script(Discard(d), false)
      else
        var effects := Discard(d) + Commit(id, d, j);
        Script(effects, DiskValid(id, RunAll(Do, d, effects), later, Current, None))
  }

  // ----- The invariant of every reachable disk -----

  predicate Genuine(ca: Ca, leaf: Leaf, clock: int) {
    leaf.issuer == ca.id && ca.start <= leaf.start <= clock && leaf.start < leaf.end
  }

  predicate PairGood(ca: Ca, pair: Pair, update: Option<Update>, clock: int) {
    match update
    case None => Genuine(ca, pair.leaf, clock) && pair.chain == Chain(pair.leaf, ca)
    case Some(u) =>
      && Genuine(ca, u.previous, clock) && Genuine(ca, u.replacement, clock)
      && u.previous.end <= u.replacement.end
      && pair.leaf in {u.previous, u.replacement}
      && pair.chain in {Chain(u.previous, ca), Chain(u.replacement, ca)}
  }

  /** No clock so far has gone beyond `clock`. Mixed pairs exist only under a journal that names both leaves. */
  predicate Inv(id: Identity, d: Disk, clock: int) {
    && id.intact && id.https != id.gossip
    && (d.journal.Some? ==> d.journal.value.version == VERSION && d.journal.value.digest == id.digest)
    && PairGood(id.https, d.https, if d.journal.Some? then Some(d.journal.value.https) else None, clock)
    && PairGood(id.gossip, d.gossip, if d.journal.Some? then Some(d.journal.value.gossip) else None, clock)
  }

  /** What `prepare` writes: one leaf per issuer, valid from the moment of preparation. */
  function Prepare(id: Identity, now: int, serials: (nat, nat)): Disk {
    var https := Leaf(serials.0, now, NewExpiry(id.https, now), id.https.id);
    var gossip := Leaf(serials.1, now, NewExpiry(id.gossip, now), id.gossip.id);
    Disk(Pair(https, Chain(https, id.https)), Pair(gossip, Chain(gossip, id.gossip)), None, false)
  }

  lemma PreparedIsGood(id: Identity, now: int, serials: (nat, nat))
    requires id.intact && id.https != id.gossip && CaValid(id.https, now) && CaValid(id.gossip, now)
    ensures Inv(id, Prepare(id, now, serials), now) && Loads(id, Prepare(id, now, serials), now)
  {}

  predicate Renames(e: Effect) { !e.CreateStage? && !e.DropStage? && !e.DropJournal? }

  lemma ReplaceAlways(p: Disk -> bool, d: Disk, same: bool, e: Effect)
    requires !d.stage && Renames(e) && (same ==> Do(d, e) == d)
    requires p(d) && p(d.(stage := true)) && p(Do(d, e))
    ensures Always(Do, p, d, Replace(same, e)) && RunAll(Do, d, Replace(same, e)) == Do(d, e)
  {
    assert [CreateStage, e][1..] == [e] && [e][1..] == [];
    assert Do(Do(d, CreateStage), e) == Do(d, e);
    assert RunAll(Do, Do(d, e), []) == Do(d, e);
  }

  lemma DiscardAlways(p: Disk -> bool, d: Disk)
    requires p(d) && p(d.(stage := false))
    ensures Always(Do, p, d, Discard(d)) && RunAll(Do, d, Discard(d)) == d.(stage := false)
  {
    assert [DropStage][1..] == [];
    assert RunAll(Do, Do(d, DropStage), []) == Do(d, DropStage);
  }

  // ----- One generation to the next -----

  function Installed(id: Identity, j: Journal): Disk {
    Disk(Pair(j.https.replacement, Chain(j.https.replacement, id.https)),
         Pair(j.gossip.replacement, Chain(j.gossip.replacement, id.gossip)), None, false)
  }

  /** Installing a journal passes only through disks under that journal and ends in the replacement generation. */
  lemma InstallAlways(p: Disk -> bool, id: Identity, d: Disk, clock: int, j: Journal)
    requires Inv(id, d, clock) && !d.stage && d.journal == Some(j)
    requires forall x | Inv(id, x, clock) && x.journal == Some(j) :: p(x)
    requires p(Installed(id, j))
    ensures Always(Do, p, d, Install(id, d, j)) && RunAll(Do, d, Install(id, d, j)) == Installed(id, j)
  {
    var e1, e2 := HttpsLeaf(j.https.replacement), HttpsChain(Chain(j.https.replacement, id.https));
    var e3, e4 := GossipLeaf(j.gossip.replacement), GossipChain(Chain(j.gossip.replacement, id.gossip));
    var d1 := Do(d, e1);
    var d2 := Do(d1, e2);
    var d3 := Do(d2, e3);
    var d4 := Do(d3, e4);
    var r1 := Replace(d.https.leaf == j.https.replacement, e1);
    var r2 := Replace(d.https.chain == Chain(j.https.replacement, id.https), e2);
    var r3 := Replace(d.gossip.leaf == j.gossip.replacement, e3);
    var r4 := Replace(d.gossip.chain == Chain(j.gossip.replacement, id.gossip), e4);
    ReplaceAlways(p, d, d.https.leaf == j.https.replacement, e1);
    ReplaceAlways(p, d1, d.https.chain == Chain(j.https.replacement, id.https), e2);
    ReplaceAlways(p, d2, d.gossip.leaf == j.gossip.replacement, e3);
    ReplaceAlways(p, d3, d.gossip.chain == Chain(j.gossip.replacement, id.gossip), e4);
    Sequence(Do, p, d, r1, r2);
    Sequence(Do, p, d, r1 + r2, r3);
    Sequence(Do, p, d, r1 + r2 + r3, r4);
    assert Do(d4, DropJournal) == Installed(id, j);
    assert [DropJournal][1..] == [];
    assert RunAll(Do, Installed(id, j), []) == Installed(id, j);
    Sequence(Do, p, d, r1 + r2 + r3 + r4, [DropJournal]);
  }

  /** The plan for one role: genuine, never shorter, and long enough or as long as the issuer allows. */
  lemma PlanIsGood(ca: Ca, leaf: Leaf, now: int, serial: nat)
    requires Genuine(ca, leaf, now) && CaValid(ca, now)
    ensures var u := PlanUpdate(ca, leaf, now, serial);
            && Genuine(ca, u.replacement, now)
            && UpdateValid(ca, u, now)
            && leaf.end <= u.replacement.end
            && (u.replacement.end > now + RENEW_BEFORE || u.replacement.end >= ca.end)
  {}

  lemma CommitAlways(p: Disk -> bool, id: Identity, d: Disk, now: int, j: Journal)
    requires d.journal.None? && !d.stage && Inv(id, d.(journal := Some(j)), now)
    requires d.https == Pair(j.https.previous, Chain(j.https.previous, id.https))
    requires d.gossip == Pair(j.gossip.previous, Chain(j.gossip.previous, id.gossip))
    requires p(d) && p(d.(stage := true)) && p(Installed(id, j))
    requires forall x | Inv(id, x, now) && x.journal == Some(j) :: p(x)
    ensures Always(Do, p, d, Commit(id, d, j)) && RunAll(Do, d, Commit(id, d, j)) == Installed(id, j)
  {
    if Changes(j) {
      var published := Do(d, PublishJournal(j));
      ReplaceAlways(p, d, false, PublishJournal(j));
      InstallAlways(p, id, published, now, j);
      assert Install(id, d, j) == Install(id, published, j);
      Sequence(Do, p, d, [CreateStage, PublishJournal(j)], Install(id, d, j));
    }
  }

  lemma InvIsValid(id: Identity, d: Disk, now: int)
    requires Inv(id, d, now) && CaValid(id.https, now) && CaValid(id.gossip, now)
    ensures DiskValid(id, d, now, Renewal, d.journal)
  {}

  lemma FreshScriptShape(id: Identity, d: Disk, now: int, later: int, serials: (nat, nat), j: Journal)
    requires DiskValid(id, d, now, Renewal, None) && j == PlanJournal(id, d, now, serials)
    requires UpdateValid(id.https, j.https, now) && UpdateValid(id.gossip, j.gossip, now)
    ensures FreshScript(id, d, now, later, serials).effects == Discard(d) + Commit(id, d, j)
    ensures FreshScript(id, d, now, later, serials).accepted
            == DiskValid(id, RunAll(Do, d, Discard(d) + Commit(id, d, j)), later, Current, None)
  {}

  /** The plan's effects on a disk without journal pass through: the old files, disks under the new journal, the new files. */
  lemma FreshAlways(p: Disk -> bool, id: Identity, d: Disk, now: int, later: int, serials: (nat, nat), j: Journal)
    requires Inv(id, d, now) && d.journal.None? && CaValid(id.https, now) && CaValid(id.gossip, now)
    requires j == PlanJournal(id, d, now, serials)
    requires p(d.(stage := false)) && p(d.(stage := true)) && p(Installed(id, j))
    requires forall x | Inv(id, x, now) && x.journal == Some(j) :: p(x)
    ensures var script := FreshScript(id, d, now, later, serials);
            && Always(Do, p, d, script.effects)
            && RunAll(Do, d, script.effects) == Installed(id, j)
            && script.accepted == DiskValid(id, Installed(id, j), later, Current, None)
  {
    PlanIsGood(id.https, d.https.leaf, now, serials.0);
    PlanIsGood(id.gossip, d.gossip.leaf, now, serials.1);
    InvIsValid(id, d, now);
    FreshScriptShape(id, d, now, later, serials, j);
    var clean := d.(stage := false);
    assert p(d) by {
      assert d == clean || d == d.(stage := true);
    }
    DiscardAlways(p, d);
    CommitAlways(p, id, clean, now, j);
    assert Commit(id, d, j) == Commit(id, clean, j);
    Sequence(Do, p, d, Discard(d), Commit(id, d, j));
  }

  /** The generation that a recovery leaves behind, before anything is renewed. */
  function Recovered(id: Identity, d: Disk): Disk {
    if d.journal.Some? then Installed(id, d.journal.value) else d
  }

  function NextJournal(id: Identity, d: Disk, now: int, serials: (nat, nat)): Journal {
    PlanJournal(id, Recovered(id, d), now, serials)
  }

  predicate SameFiles(d: Disk, x: Disk) { d.https == x.https && d.gossip == x.gossip }

  /** Every disk that a call of `renew` can leave behind, for a predicate on disks. */
  lemma RenewAlways(p: Disk -> bool, id: Identity, d: Disk, now: int, later: int, serials: (nat, nat), j: Journal)
    requires Inv(id, d, now) && CaValid(id.https, now) && CaValid(id.gossip, now)
    requires j == NextJournal(id, d, now, serials)
    requires forall x: Disk | x.journal.None? && SameFiles(x, Recovered(id, d)) :: p(x)
    requires forall x | Inv(id, x, now) && x.journal.Some? && x.journal == d.journal :: p(x)
    requires forall x | Inv(id, x, now) && x.journal == Some(j) :: p(x)
    requires p(Installed(id, j))
    ensures var script := RenewScript(id, d, now, later, serials);
            && Always(Do, p, d, script.effects)
            && RunAll(Do, d, script.effects) == Installed(id, j)
            && script.accepted == DiskValid(id, Installed(id, j), later, Current, None)
  {
    var base := Recovered(id, d);
    FreshAlways(p, id, base, now, later, serials, j);
    if d.journal.Some? {
      InvIsValid(id, d, now);
      var clean := d.(stage := false);
      DiscardAlways(p, d);
      InstallAlways(p, id, clean, now, d.journal.value);
      assert Install(id, d, d.journal.value) == Install(id, clean, d.journal.value);
      Sequence(Do, p, d, Discard(d), Install(id, d, d.journal.value));
      Sequence(Do, p, d, Discard(d) + Install(id, d, d.journal.value), FreshScript(id, base, now, later, serials).effects);
    }
  }

  // ----- Crash safety -----

  lemma RejectedUnchanged(id: Identity, d: Disk, now: int, later: int, serials: (nat, nat))
    requires !CaValid(id.https, now) || !CaValid(id.gossip, now)
    ensures RenewScript(id, d, now, later, serials) == Script([], false)
  {}

  lemma GenerationsAreGood(id: Identity, d: Disk, now: int, serials: (nat, nat))
    requires Inv(id, d, now) && CaValid(id.https, now) && CaValid(id.gossip, now)
    ensures Inv(id, Recovered(id, d), now) && Inv(id, Installed(id, NextJournal(id, d, now, serials)), now)
  {
    var base := Recovered(id, d);
    PlanIsGood(id.https, base.https.leaf, now, serials.0);
    PlanIsGood(id.gossip, base.gossip.leaf, now, serials.1);
  }

  /** A crash after any number of effects leaves a disk that the next call can work with. */
  lemma CrashKeepsInv(id: Identity, d: Disk, clock: int, now: int, later: int, serials: (nat, nat), k: nat)
    requires Inv(id, d, clock) && clock <= now
    requires k <= |RenewScript(id, d, now, later, serials).effects|
    ensures Inv(id, RunAll(Do, d, RenewScript(id, d, now, later, serials).effects[..k]), now)
  {
    if CaValid(id.https, now) && CaValid(id.gossip, now) {
      var p := (x: Disk) => Inv(id, x, now);
      GenerationsAreGood(id, d, now, serials);
      RenewAlways(p, id, d, now, later, serials, NextJournal(id, d, now, serials));
      AtEveryCrash(Do, p, d, RenewScript(id, d, now, later, serials).effects, k);
    } else {
      RejectedUnchanged(id, d, now, later, serials);
    }
  }

  /** The journal is gone and one role's files agree, are no shorter, and last long enough. */
  predicate RoleRenewed(ca: Ca, before: Pair, after: Pair, now: int) {
    && after.chain == Chain(after.leaf, ca)
    && before.leaf.end <= after.leaf.end
    && before.chain.leaf.end <= after.leaf.end
    && (after.leaf.end > now + RENEW_BEFORE || after.leaf.end >= ca.end)
  }

  predicate Renewed(id: Identity, before: Disk, after: Disk, now: int) {
    && after.journal.None? && !after.stage
    && RoleRenewed(id.https, before.https, after.https, now)
    && RoleRenewed(id.gossip, before.gossip, after.gossip, now)
  }

  /** The issuers and the planned leaves are still valid at `later`. */
  predicate IsCurrent(id: Identity, j: Journal, later: int) {
    && CaValid(id.https, later) && CaValid(id.gossip, later)
    && later < j.https.replacement.end && later < j.gossip.replacement.end
  }

  lemma PlannedIsRenewed(id: Identity, d: Disk, now: int, serials: (nat, nat))
    requires Inv(id, d, now) && CaValid(id.https, now) && CaValid(id.gossip, now)
    ensures Renewed(id, d, Installed(id, NextJournal(id, d, now, serials)), now)
  {
    var base := Recovered(id, d);
    PlanIsGood(id.https, base.https.leaf, now, serials.0);
    PlanIsGood(id.gossip, base.gossip.leaf, now, serials.1);
  }

  lemma InstalledIsCurrent(id: Identity, j: Journal, now: int, later: int)
    requires Inv(id, Installed(id, j), now) && now <= later
    ensures DiskValid(id, Installed(id, j), later, Current, None) <==> IsCurrent(id, j, later)
  {}

  /** With valid issuers an uninterrupted call always completes, and is accepted exactly while what it planned is current. */
  lemma UninterruptedCompletes(id: Identity, d: Disk, clock: int, now: int, later: int, serials: (nat, nat))
    requires Inv(id, d, clock) && clock <= now <= later
    requires CaValid(id.https, now) && CaValid(id.gossip, now)
    ensures var script := RenewScript(id, d, now, later, serials);
            var after := RunAll(Do, d, script.effects);
            && Renewed(id, d, after, now)
            && Inv(id, after, now)
            && (script.accepted <==> IsCurrent(id, NextJournal(id, d, now, serials), later))
            && (script.accepted ==> Loads(id, after, later))
            && (later <= now + RENEW_BEFORE && CaValid(id.https, later) && CaValid(id.gossip, later) ==> script.accepted)
  {
    var j := NextJournal(id, d, now, serials);
    PlannedIsRenewed(id, d, now, serials);
    GenerationsAreGood(id, d, now, serials);
    InstalledIsCurrent(id, j, now, later);
    RenewAlways(x => true, id, d, now, later, serials, j);
  }

  /** A call right after `prepare` whose second clock reading is a year later is refused, although all issuers are valid. */
  lemma SlowCallIsRefused(id: Identity, now: int, serials: (nat, nat), next: (nat, nat))
    requires id.intact && id.https != id.gossip && CaValid(id.https, now) && CaValid(id.gossip, now)
    requires CaValid(id.https, now + LEAF_LIFETIME) && CaValid(id.gossip, now + LEAF_LIFETIME)
    ensures RenewScript(id, Prepare(id, now, serials), now, now + LEAF_LIFETIME, next) == Script([], false)
  {
    var d := Prepare(id, now, serials);
    PreparedIsGood(id, now, serials);
    InvIsValid(id, d, now);
    FreshScriptShape(id, d, now, now + LEAF_LIFETIME, next, PlanJournal(id, d, now, next));
  }

  /** Whatever the crash point, `load` sees the generation before or after the renewal, never a mixture. */
  lemma LoadSeesOneGeneration(
    id: Identity, d: Disk, clock: int, now: int, later: int, serials: (nat, nat), k: nat, when: int)
    requires Inv(id, d, clock) && clock <= now
    requires k <= |RenewScript(id, d, now, later, serials).effects|
    requires Loads(id, RunAll(Do, d, RenewScript(id, d, now, later, serials).effects[..k]), when)
    ensures var x := RunAll(Do, d, RenewScript(id, d, now, later, serials).effects[..k]);
            || SameFiles(x, Recovered(id, d))
            || SameFiles(x, Installed(id, NextJournal(id, d, now, serials)))
  {
    if !CaValid(id.https, now) || !CaValid(id.gossip, now) {
      RejectedUnchanged(id, d, now, later, serials);
      return;
    }
    var base := Recovered(id, d);
    var j := NextJournal(id, d, now, serials);
    var p := (x: Disk) => x.journal.None? ==> SameFiles(x, base) || SameFiles(x, Installed(id, j));
    RenewAlways(p, id, d, now, later, serials, j);
    AtEveryCrash(Do, p, d, RenewScript(id, d, now, later, serials).effects, k);
  }

  // ----- Whole histories -----

  /** One call: its two clock readings, its serials, and how many of its effects reach the disk. */
  datatype Call = Call(now: int, later: int, serials: (nat, nat), done: nat)

  function After(id: Identity, d: Disk, call: Call): Disk {
    var es := RenewScript(id, d, call.now, call.later, call.serials).effects;
    RunAll(Do, d, if call.done < |es| then es[..call.done] else es)
  }

  function AfterAll(id: Identity, d: Disk, calls: seq<Call>): Disk
    decreases |calls|
  {
    if calls == [] then d else AfterAll(id, After(id, d, calls[0]), calls[1..])
  }

  predicate ClockMonotone(clock: int, calls: seq<Call>)
    decreases |calls|
  {
    calls == [] || (clock <= calls[0].now && ClockMonotone(calls[0].now, calls[1..]))
  }

  function LastClock(clock: int, calls: seq<Call>): int {
    if calls == [] then clock else calls[|calls| - 1].now
  }

  lemma {:induction false} HistoryKeepsInv(id: Identity, d: Disk, clock: int, calls: seq<Call>)
    requires Inv(id, d, clock) && ClockMonotone(clock, calls)
    ensures Inv(id, AfterAll(id, d, calls), LastClock(clock, calls))
    decreases |calls|
  {
    if calls != [] {
      var call := calls[0];
      var es := RenewScript(id, d, call.now, call.later, call.serials).effects;
      CrashKeepsInv(id, d, clock, call.now, call.later, call.serials, if call.done < |es| then call.done else |es|);
      assert es[..|es|] == es;
      HistoryKeepsInv(id, After(id, d, call), call.now, calls[1..]);
    }
  }

  /** After any history of interrupted calls, one uninterrupted call with valid issuers recovers completely. */
  lemma RenewRecovers(id: Identity, d: Disk, clock: int, calls: seq<Call>, now: int, later: int, serials: (nat, nat))
    requires Inv(id, d, clock) && ClockMonotone(clock, calls) && LastClock(clock, calls) <= now <= later <= now + RENEW_BEFORE
    requires CaValid(id.https, later) && CaValid(id.gossip, later) && id.https.start <= now && id.gossip.start <= now
    ensures var crashed := AfterAll(id, d, calls);
            var script := RenewScript(id, crashed, now, later, serials);
            script.accepted && Renewed(id, crashed, RunAll(Do, crashed, script.effects), now)
            && Loads(id, RunAll(Do, crashed, script.effects), later)
  {
    HistoryKeepsInv(id, d, clock, calls);
    UninterruptedCompletes(id, AfterAll(id, d, calls), LastClock(clock, calls), now, later, serials);
  }
}
