/**
The identity directory as the server updates it in place
(tako-network/src/server_identity.rs and its secure.rs): every file step may be
the last one before a crash.
*/
module IdentityDirectory {
  import opened Results
  import opened Scripts
  import opened LeafRenewal

  datatype Outcome = Accepted | Rejected | Crashed

  class Directory {
    var httpsLeaf: Leaf
    var httpsChain: Chain
    var gossipLeaf: Leaf
    var gossipChain: Chain
    var journal: Option<Journal>
    var stage: bool
    /** How many more effects reach the disk before the machine stops. */
    var budget: nat

    ghost function View(): Disk
      reads this
    {
      Disk(Pair(httpsLeaf, httpsChain), Pair(gossipLeaf, gossipChain), journal, stage)
    }

    constructor (d: Disk, budget: nat)
      ensures View() == d && this.budget == budget
    {
      httpsLeaf, httpsChain := d.https.leaf, d.https.chain;
      gossipLeaf, gossipChain := d.gossip.leaf, d.gossip.chain;
      journal, stage := d.journal, d.stage;
      this.budget := budget;
    }

    /** One durable step. */
    method Perform(e: Effect) returns (alive: bool)
      modifies this
      ensures Ran(Do, old(View()), old(budget), [e], View(), budget, alive)
      ensures alive ==> View() == Do(old(View()), e)
    {
      assert RunAll(Do, View(), []) == View();
      assert RunAll(Do, Do(View(), e), []) == Do(View(), e) && [e][1..] == [];
      if budget == 0 {
        return false;
      }
      budget := budget - 1;
      match e {
        case CreateStage => stage := true;
        case DropStage => stage := false;
        case PublishJournal(j) => journal, stage := Some(j), false;
        case HttpsLeaf(leaf) => httpsLeaf, stage := leaf, false;
        case HttpsChain(chain) => httpsChain, stage := chain, false;
        case GossipLeaf(leaf) => gossipLeaf, stage := leaf, false;
        case GossipChain(chain) => gossipChain, stage := chain, false;
        case DropJournal => journal := None;
      }
      alive := true;
    }

    method DiscardStage() returns (alive: bool)
      modifies this
      ensures Ran(Do, old(View()), old(budget), Discard(old(View())), View(), budget, alive)
      ensures alive ==> View() == old(View()).(stage := false)
    {
      if stage {
        alive := Perform(DropStage);
      } else {
        alive := true;
      }
    }

    /** Stages and renames. The staging file is opened exclusively, so none may be left over. */
    method WriteAtomic(e: Effect) returns (alive: bool)
      requires Renames(e) && !stage
      modifies this
      ensures Ran(Do, old(View()), old(budget), [CreateStage, e], View(), budget, alive)
      ensures alive ==> View() == Do(old(View()), e)
    {
      ghost var d, b := View(), budget;
      assert [CreateStage] + [e] == [CreateStage, e];
      alive := Perform(CreateStage);
      if !alive {
        RanDead(Do, d, b, [CreateStage], View(), budget, [e]);
        return;
      }
      ghost var v, left := View(), budget;
      alive := Perform(e);
      RanThen(Do, d, b, [CreateStage], v, left, [e], View(), budget, alive);
    }

    /** `replace_path` for one of the four files. */
    method ReplacePath(same: bool, e: Effect) returns (alive: bool)
      requires Renames(e) && !stage
      requires same ==> Do(View(), e) == View()
      modifies this
      ensures Ran(Do, old(View()), old(budget), Replace(same, e), View(), budget, alive)
      ensures alive ==> View() == Do(old(View()), e)
    {
      alive := true;
      if !same {
        alive := WriteAtomic(e);
      }
    }

    /** `LeafUpdate::apply` for both roles and the removal of the journal. */
    method InstallAll(id: Identity, j: Journal) returns (alive: bool)
      requires !stage
      modifies this
      ensures Ran(Do, old(View()), old(budget), Install(id, old(View()), j), View(), budget, alive)
    {
      ghost var d, b := View(), budget;
      var chain := Chain(j.https.replacement, id.https);
      ghost var rest := Replace(gossipLeaf == j.gossip.replacement, GossipLeaf(j.gossip.replacement))
        + Replace(gossipChain == Chain(j.gossip.replacement, id.gossip), GossipChain(Chain(j.gossip.replacement, id.gossip)))
        + [DropJournal];
      ghost var r1 := Replace(httpsLeaf == j.https.replacement, HttpsLeaf(j.https.replacement));
      ghost var r2 := Replace(httpsChain == chain, HttpsChain(chain));
      assert Install(id, d, j) == r1 + r2 + rest == r1 + (r2 + rest);
      alive := ReplacePath(httpsLeaf == j.https.replacement, HttpsLeaf(j.https.replacement));
      if !alive {
        RanDead(Do, d, b, r1, View(), budget, r2 + rest);
        return;
      }
      ghost var v, left := View(), budget;
      alive := ReplacePath(httpsChain == chain, HttpsChain(chain));
      RanThen(Do, d, b, r1, v, left, r2, View(), budget, alive);
      if !alive {
        RanDead(Do, d, b, r1 + r2, View(), budget, rest);
        return;
      }
      v, left := View(), budget;
      alive := InstallGossip(id, j);
      RanThen(Do, d, b, r1 + r2, v, left, rest, View(), budget, alive);
    }

    method InstallGossip(id: Identity, j: Journal) returns (alive: bool)
      requires !stage
      modifies this
      ensures Ran(Do, old(View()), old(budget),
                  Replace(old(gossipLeaf) == j.gossip.replacement, GossipLeaf(j.gossip.replacement))
                  + Replace(old(gossipChain) == Chain(j.gossip.replacement, id.gossip),
                            GossipChain(Chain(j.gossip.replacement, id.gossip)))
                  + [DropJournal], View(), budget, alive)
    {
      ghost var d, b := View(), budget;
      var chain := Chain(j.gossip.replacement, id.gossip);
      ghost var r1 := Replace(gossipLeaf == j.gossip.replacement, GossipLeaf(j.gossip.replacement));
      ghost var r2 := Replace(gossipChain == chain, GossipChain(chain));
      assert r1 + r2 + [DropJournal] == r1 + (r2 + [DropJournal]);
      alive := ReplacePath(gossipLeaf == j.gossip.replacement, GossipLeaf(j.gossip.replacement));
      if !alive {
        RanDead(Do, d, b, r1, View(), budget, r2 + [DropJournal]);
        return;
      }
      ghost var v, left := View(), budget;
      alive := ReplacePath(gossipChain == chain, GossipChain(chain));
      RanThen(Do, d, b, r1, v, left, r2, View(), budget, alive);
      if !alive {
        RanDead(Do, d, b, r1 + r2, View(), budget, [DropJournal]);
        return;
      }
      v, left := View(), budget;
      alive := Perform(DropJournal);
      RanThen(Do, d, b, r1 + r2, v, left, [DropJournal], View(), budget, alive);
    }

    method Validate(id: Identity, now: int, policy: Policy, j: Option<Journal>) returns (ok: bool)
      ensures ok <==> DiskValid(id, View(), now, policy, j)
    {
      ok := DiskValid(id, Disk(Pair(httpsLeaf, httpsChain), Pair(gossipLeaf, gossipChain), journal, stage), now, policy, j);
    }

    /** The part of `renew_with_clock` after recovery: plan, publish, install and check again. */
    method RenewFresh(id: Identity, now: int, later: int, serials: (nat, nat)) returns (outcome: Outcome)
      modifies this
      ensures var script := FreshScript(id, old(View()), now, later, serials);
              && Ran(Do, old(View()), old(budget), script.effects, View(), budget, !outcome.Crashed?)
              && (!outcome.Crashed? ==> (outcome.Accepted? <==> script.accepted))
    {
      ghost var d, b := View(), budget;
      var ok := Validate(id, now, Renewal, None);
      if !ok {
        assert RunAll(Do, d, []) == d;
        return Rejected;
      }
      var j := Journal(VERSION, id.digest, PlanUpdate(id.https, httpsLeaf, now, serials.0),
                       PlanUpdate(id.gossip, gossipLeaf, now, serials.1));
      var alive := DiscardStage();
      if !UpdateValid(id.https, j.https, now) || !UpdateValid(id.gossip, j.gossip, now) {
        return if alive then Rejected else Crashed;
      }
      if !alive {
        RanDead(Do, d, b, Discard(d), View(), budget, Commit(id, d, j));
        return Crashed;
      }
      ghost var v, left := View(), budget;
      alive := PublishAndInstall(id, j);
      RanThen(Do, d, b, Discard(d), v, left, Commit(id, d, j), View(), budget, alive);
      if !alive {
        return Crashed;
      }
      ok := Validate(id, later, Current, None);
      outcome := if ok then Accepted else Rejected;
    }

    method PublishAndInstall(id: Identity, j: Journal) returns (alive: bool)
      requires !stage
      modifies this
      ensures Ran(Do, old(View()), old(budget), Commit(id, old(View()), j), View(), budget, alive)
    {
      ghost var d, b := View(), budget;
      assert RunAll(Do, d, []) == d;
      alive := true;
      if Changes(j) {
        alive := WriteAtomic(PublishJournal(j));
        if !alive {
          RanDead(Do, d, b, [CreateStage, PublishJournal(j)], View(), budget, Install(id, d, j));
          return;
        }
        ghost var v, left := View(), budget;
        assert Install(id, v, j) == Install(id, d, j);
        alive := InstallAll(id, j);
        RanThen(Do, d, b, [CreateStage, PublishJournal(j)], v, left, Install(id, d, j), View(), budget, alive);
      }
    }

    /**
    `renew_with_clock`. Wherever it stops, the next call can work with the disk. A call that is
    accepted has renewed both roles and leaves a disk that loads.
    */
    method Renew(id: Identity, now: int, later: int, serials: (nat, nat)) returns (outcome: Outcome)
      modifies this
      ensures var script := RenewScript(id, old(View()), now, later, serials);
              && Ran(Do, old(View()), old(budget), script.effects, View(), budget, !outcome.Crashed?)
              && (!outcome.Crashed? ==> (outcome.Accepted? <==> script.accepted))
      ensures Inv(id, old(View()), now) ==> Inv(id, View(), now)
      ensures Inv(id, old(View()), now) && now <= later && outcome.Accepted? ==>
                Renewed(id, old(View()), View(), now) && Loads(id, View(), later)
      ensures Inv(id, old(View()), now) && now <= later && !outcome.Crashed? ==>
                (outcome.Accepted? <==>
                 && CaValid(id.https, now) && CaValid(id.gossip, now)
                 && IsCurrent(id, NextJournal(id, old(View()), now, serials), later))
    {
      ghost var d, start := View(), budget;
      outcome := RunRenew(id, now, later, serials);
      if Inv(id, d, now) {
        ghost var effects := RenewScript(id, d, now, later, serials).effects;
        CrashKeepsInv(id, d, now, now, later, serials, if start < |effects| then start else |effects|);
        assert effects[..|effects|] == effects;
        if now <= later && CaValid(id.https, now) && CaValid(id.gossip, now) {
          UninterruptedCompletes(id, d, now, now, later, serials);
        } else if now <= later {
          RejectedUnchanged(id, d, now, later, serials);
        }
      }
    }

    /** Recover an interrupted renewal first, then renew what is due. */
    method RunRenew(id: Identity, now: int, later: int, serials: (nat, nat)) returns (outcome: Outcome)
      modifies this
      ensures var script := RenewScript(id, old(View()), now, later, serials);
              && Ran(Do, old(View()), old(budget), script.effects, View(), budget, !outcome.Crashed?)
              && (!outcome.Crashed? ==> (outcome.Accepted? <==> script.accepted))
    {
      ghost var d, b := View(), budget;
      if journal.None? {
        outcome := RenewFresh(id, now, later, serials);
        return;
      }
      var j := journal.value;
      var ok := Validate(id, now, Renewal, Some(j));
      if j.version != VERSION || j.digest != id.digest || !ok {
        assert RunAll(Do, d, []) == d;
        return Rejected;
      }
      ghost var install := Install(id, d, j);
      ghost var recovery := Discard(d) + install;
      ghost var rest := FreshScript(id, RunAll(Do, d, recovery), now, later, serials).effects;
      var alive := DiscardStage();
      if !alive {
        RanDead(Do, d, b, Discard(d), View(), budget, install);
        RanDead(Do, d, b, recovery, View(), budget, rest);
        return Crashed;
      }
      ghost var v, left := View(), budget;
      assert Install(id, v, j) == install;
      alive := InstallAll(id, j);
      RanThen(Do, d, b, Discard(d), v, left, install, View(), budget, alive);
      if !alive {
        RanDead(Do, d, b, recovery, View(), budget, rest);
        return Crashed;
      }
      v, left := View(), budget;
      outcome := RenewFresh(id, now, later, serials);
      RanThen(Do, d, b, recovery, v, left, rest, View(), budget, !outcome.Crashed?);
    }
  }
}
