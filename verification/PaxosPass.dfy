/** One uninterrupted pass of the `propose` loop, as a function of the cluster's
    memory and of what the network does to each call, and how many passes a
    proposer without rivals needs. */
module PaxosPass {
  import opened PaxosNode
  import opened PaxosProtocol
  import opened PaxosSafe

  /** The fate of one call: it never arrives, its reply never arrives, or both do. */
  datatype Delivery = Lost | ReplyLost | Answered

  datatype Plan = Plan(prepare: seq<Delivery>, accept: seq<Delivery>, inform: seq<Delivery>)

  /** `Left` is the return at the loop top, `Won` the return at its end. */
  datatype Outcome = Left | Again | Won(value: Any)

  datatype Pass = Pass(nodes: seq<Node>, outcome: Outcome)

  /** A call of a node to itself cannot fail. */
  ghost predicate PlanFor(plan: Plan, n: nat, me: nat) {
    && me < n
    && |plan.prepare| == n && |plan.accept| == n && |plan.inform| == n
    && plan.prepare[me].Answered? && plan.accept[me].Answered? && plan.inform[me].Answered?
  }

  // --- One call ---

  function AskPrepare(nd: Node, args: PrepareArgs, d: Delivery): (Node, PrepareReply)
    requires nd.Valid()
  {
    if d.Lost? then (nd, NO_PROMISE)
    else (Prepare(nd, args).0, if d.Answered? then Prepare(nd, args).1 else NO_PROMISE)
  }

  function AskAccept(nd: Node, args: AcceptArgs, d: Delivery): (Node, AcceptReply)
    requires nd.Valid()
  {
    if d.Lost? then (nd, NO_VOTE)
    else (Accept(nd, args).0, if d.Answered? then Accept(nd, args).1 else NO_VOTE)
  }

  function Tell(nd: Node, args: InformArgs, d: Delivery): Node
    requires nd.Valid()
  {
    if d.Lost? then nd else Inform(nd, args).0
  }

  // --- The loops over the first n peers ---

  ghost function PrepareNodes(nodes: seq<Node>, args: PrepareArgs, ds: seq<Delivery>, n: nat): (r: seq<Node>)
    requires Cluster(nodes) && n <= |nodes| == |ds| && args.sender < |nodes|
    ensures |r| == |nodes| && Cluster(r)
    ensures forall i :: 0 <= i < |nodes| ==> r[i].propCounter == nodes[i].propCounter
  {
    seq(|nodes|, i requires 0 <= i < |nodes| =>
      if i < n then AskPrepare(nodes[i], args, ds[i]).0 else nodes[i])
  }

  ghost function PrepareReplies(nodes: seq<Node>, args: PrepareArgs, ds: seq<Delivery>, n: nat): seq<PrepareReply>
    requires Cluster(nodes) && n <= |nodes| == |ds|
  {
    seq(n, i requires 0 <= i < n => AskPrepare(nodes[i], args, ds[i]).1)
  }

  ghost function AcceptNodes(nodes: seq<Node>, args: AcceptArgs, ds: seq<Delivery>, n: nat): (r: seq<Node>)
    requires Cluster(nodes) && n <= |nodes| == |ds| && args.sender < |nodes|
    ensures |r| == |nodes| && Cluster(r)
  {
    seq(|nodes|, i requires 0 <= i < |nodes| =>
      if i < n then AskAccept(nodes[i], args, ds[i]).0 else nodes[i])
  }

  ghost function AcceptReplies(nodes: seq<Node>, args: AcceptArgs, ds: seq<Delivery>, n: nat): seq<AcceptReply>
    requires Cluster(nodes) && n <= |nodes| == |ds|
  {
    seq(n, i requires 0 <= i < n => AskAccept(nodes[i], args, ds[i]).1)
  }

  ghost function InformNodes(nodes: seq<Node>, args: InformArgs, ds: seq<Delivery>, n: nat): (r: seq<Node>)
    requires Cluster(nodes) && n <= |nodes| == |ds| && args.sender < |nodes|
    ensures |r| == |nodes| && Cluster(r)
  {
    seq(|nodes|, i requires 0 <= i < |nodes| => if i < n then Tell(nodes[i], args, ds[i]) else nodes[i])
  }

  // --- A pass ---

  ghost function Retry(nodes: seq<Node>, me: nat, seen: nat): (r: Pass)
    requires Cluster(nodes) && me < |nodes|
    ensures Cluster(r.nodes) && |r.nodes| == |nodes|
  {
    Pass(nodes[me := SetPropCounter(nodes[me], seen)], Again)
  }

  ghost function PhaseThree(nodes: seq<Node>, me: nat, acc: AcceptArgs, plan: Plan): (r: Pass)
    requires Cluster(nodes) && PlanFor(plan, |nodes|, me)
    ensures Cluster(r.nodes) && |r.nodes| == |nodes|
  {
    var args := InformArgs(acc.slot, acc.value, me, nodes[me].done[me]);
    Pass(InformNodes(nodes, args, plan.inform, |nodes|), Won(acc.value))
  }

  ghost function PhaseTwo(nodes: seq<Node>, me: nat, acc: AcceptArgs, plan: Plan): (r: Pass)
    requires Cluster(nodes) && PlanFor(plan, |nodes|, me) && acc.sender == me
    ensures Cluster(r.nodes) && |r.nodes| == |nodes|
  {
    var nodes' := AcceptNodes(nodes, acc, plan.accept, |nodes|);
    var rs := AcceptReplies(nodes, acc, plan.accept, |nodes|);
    if |VoteSet(rs)| < |nodes| / 2 + 1 then Retry(nodes', me, MaxVoteNp(rs))
    else PhaseThree(nodes', me, acc, plan)
  }

  ghost function PhaseOne(nodes: seq<Node>, me: nat, v: Any, args: PrepareArgs, plan: Plan): (r: Pass)
    requires Cluster(nodes) && PlanFor(plan, |nodes|, me) && args.sender == me
    ensures Cluster(r.nodes) && |r.nodes| == |nodes|
  {
    var nodes' := PrepareNodes(nodes, args, plan.prepare, |nodes|);
    var rs := PrepareReplies(nodes, args, plan.prepare, |nodes|);
    if |PromiseSet(rs)| < |nodes| / 2 + 1 then Retry(nodes', me, MaxNp(rs))
    else PhaseTwo(nodes', me, AcceptArgs(args.slot, args.ballot, Adopt(rs, v), me, nodes'[me].done[me]), plan)
  }

  ghost predicate Leaves(nd: Node, fate: Fate) { fate.Decided? || fate.Forgotten? || nd.dead }

  ghost function RunPass(nodes: seq<Node>, me: nat, slot: int, v: Any, plan: Plan): (r: Pass)
    requires Cluster(nodes) && PlanFor(plan, |nodes|, me)
    ensures Cluster(r.nodes) && |r.nodes| == |nodes|
  {
    var (nd, fate, _) := Status(nodes[me], slot);
    if Leaves(nd, fate) then Pass(nodes[me := nd], Left)
    else
      PhaseOne(nodes[me := DrawBallot(nd)], me, v, PrepareArgs(slot, NextBallot(nd), me, nd.done[me]), plan)
  }

  /** The loop: one plan per pass, until a pass leaves or wins. */
  ghost function RunPasses(nodes: seq<Node>, me: nat, slot: int, v: Any, plans: seq<Plan>): (r: Pass)
    requires Cluster(nodes) && forall p :: p in plans ==> PlanFor(p, |nodes|, me)
    ensures Cluster(r.nodes) && |r.nodes| == |nodes|
  {
    if plans == [] then Pass(nodes, Again)
    else
      var before := RunPasses(nodes, me, slot, v, plans[..|plans| - 1]);
      if before.outcome.Again? then RunPass(before.nodes, me, slot, v, plans[|plans| - 1]) else before
  }

  // --- How many passes it takes ---

  /** This majority answers every call of the pass. The network does what it likes
      with the calls to all other peers. */
  ghost predicate Steady(plan: Plan, n: nat, up: set<nat>) {
    && |plan.prepare| == n && |plan.accept| == n
    && |up| >= n / 2 + 1
    && forall i: nat :: i in up ==> i < n && plan.prepare[i].Answered? && plan.accept[i].Answered?
  }

  /** No node of this set has promised the proposer's next ballot or a higher one. */
  ghost predicate Beats(nodes: seq<Node>, me: nat, slot: int, up: set<nat>)
    requires me < |nodes|
  {
    forall i: nat :: i in up && i < |nodes| ==> Lookup(nodes[i], slot).np < NextBallot(nodes[me])
  }

  lemma {:induction false} MaxNpBounds(rs: seq<PrepareReply>)
    ensures forall i :: 0 <= i < |rs| && !rs[i].reply.OK? ==> rs[i].np <= MaxNp(rs)
    ensures MaxNp(rs) == 0 || exists i :: 0 <= i < |rs| && !rs[i].reply.OK? && rs[i].np == MaxNp(rs)
  {
    if rs != [] {
      var front := rs[..|rs| - 1];
      MaxNpBounds(front);
      assert forall i :: 0 <= i < |front| ==> front[i] == rs[i];
    }
  }

  lemma {:induction false} MaxVoteNpBounds(rs: seq<AcceptReply>)
    ensures forall i :: 0 <= i < |rs| && !rs[i].reply.OK? ==> rs[i].np <= MaxVoteNp(rs)
    ensures MaxVoteNp(rs) == 0 || exists i :: 0 <= i < |rs| && !rs[i].reply.OK? && rs[i].np == MaxVoteNp(rs)
  {
    if rs != [] {
      var front := rs[..|rs| - 1];
      MaxVoteNpBounds(front);
      assert forall i :: 0 <= i < |front| ==> front[i] == rs[i];
    }
  }

  /** The node's ballot after a losing pass is above every ballot that the pass was
      refused for, in whichever phase it lost. */
  lemma LosingPassJumps(st: State, k: nat)
    requires Valid(st) && k < |st.procs|
    requires Enabled(st, ClosePrepare(k)) || Enabled(st, CloseAccept(k))
    ensures var pr := st.procs[k];
            match pr.phase
            case Preparing(_, rs) =>
              |PromiseSet(rs)| < |st.nodes| / 2 + 1 ==>
                forall i :: 0 <= i < |rs| && !rs[i].reply.OK? ==>
                  rs[i].np < NextBallot(Apply(st, ClosePrepare(k)).nodes[pr.node])
            case Accepting(_, rs) =>
              |VoteSet(rs)| < |st.nodes| / 2 + 1 ==>
                forall i :: 0 <= i < |rs| && !rs[i].reply.OK? ==>
                  rs[i].np < NextBallot(Apply(st, CloseAccept(k)).nodes[pr.node])
            case _ => true
  {
    var pr := st.procs[k];
    match pr.phase
    case Preparing(_, rs) =>
      MaxNpBounds(rs);
      JumpExceeds(st.nodes[pr.node], MaxNp(rs));
    case Accepting(_, rs) =>
      MaxVoteNpBounds(rs);
      JumpExceeds(st.nodes[pr.node], MaxVoteNp(rs));
    case _ =>
  }

  /** In this node the slot is still worth proposing for. */
  ghost predicate Open(nd: Node, slot: int) {
    nd.Valid() && !Leaves(Status(nd, slot).0, Status(nd, slot).1)
  }

  // --- Exactly who promises, who votes, and which pass wins ---

  /** The peers whose promise for this ballot gets back. */
  function Promisers(nodes: seq<Node>, slot: int, ballot: int, ds: seq<Delivery>): set<nat>
    requires |nodes| == |ds|
  {
    set i: nat | i < |nodes| && ds[i].Answered? && Lookup(nodes[i], slot).np < ballot
  }

  /** The peers whose vote for this ballot gets back. They need not have promised it:
      it is enough that they have not promised a higher one. */
  function Voters(nodes: seq<Node>, slot: int, ballot: int, ds: seq<Delivery>): set<nat>
    requires |nodes| == |ds|
  {
    set i: nat | i < |nodes| && ds[i].Answered? && Lookup(nodes[i], slot).np <= ballot
  }

  lemma PromisersAnswer(nodes: seq<Node>, args: PrepareArgs, ds: seq<Delivery>)
    requires Cluster(nodes) && |nodes| == |ds|
    ensures PromiseSet(PrepareReplies(nodes, args, ds, |nodes|)) == Promisers(nodes, args.slot, args.ballot, ds)
  {
  }

  lemma VotersAnswer(nodes: seq<Node>, acc: AcceptArgs, ds: seq<Delivery>)
    requires Cluster(nodes) && |nodes| == |ds|
    ensures VoteSet(AcceptReplies(nodes, acc, ds, |nodes|)) == Voters(nodes, acc.slot, acc.ballot, ds)
  {
  }

  /** Phase 2 wins if and only if a majority that has promised nothing higher answers,
      whoever promised in Phase 1. */
  lemma PhaseTwoWins(nodes: seq<Node>, me: nat, acc: AcceptArgs, plan: Plan)
    requires Cluster(nodes) && PlanFor(plan, |nodes|, me) && acc.sender == me
    ensures PhaseTwo(nodes, me, acc, plan).outcome ==
            if |Voters(nodes, acc.slot, acc.ballot, plan.accept)| >= |nodes| / 2 + 1 then Won(acc.value) else Again
  {
    VotersAnswer(nodes, acc, plan.accept);
  }

  /** The pass's own prepares lift a promise at most to its own ballot. */
  lemma PreparingKeepsVoters(nodes: seq<Node>, args: PrepareArgs, ds: seq<Delivery>, ds': seq<Delivery>)
    requires Cluster(nodes) && |nodes| == |ds| == |ds'| && args.sender < |nodes|
    ensures Voters(PrepareNodes(nodes, args, ds, |nodes|), args.slot, args.ballot, ds')
         == Voters(nodes, args.slot, args.ballot, ds')
  {
  }

  lemma DrawingKeepsVoters(nodes: seq<Node>, me: nat, slot: int, ballot: int, ds: seq<Delivery>)
    requires Cluster(nodes) && me < |nodes| == |ds| && Open(nodes[me], slot)
    ensures var nodes' := nodes[me := DrawBallot(Status(nodes[me], slot).0)];
            && Voters(nodes', slot, ballot, ds) == Voters(nodes, slot, ballot, ds)
            && Promisers(nodes', slot, ballot, ds) == Promisers(nodes, slot, ballot, ds)
  {
    StatusFrame(nodes[me], slot);
  }

  lemma PhaseOneWins(nodes: seq<Node>, me: nat, v: Any, args: PrepareArgs, plan: Plan)
    requires Cluster(nodes) && PlanFor(plan, |nodes|, me) && args.sender == me
    ensures PhaseOne(nodes, me, v, args, plan).outcome.Won? <==>
            && |Promisers(nodes, args.slot, args.ballot, plan.prepare)| >= |nodes| / 2 + 1
            && |Voters(nodes, args.slot, args.ballot, plan.accept)| >= |nodes| / 2 + 1
  {
    hide PhaseTwo, PrepareNodes, PrepareReplies, Promisers, Voters, Adopt, MaxNp;
    var nodes' := PrepareNodes(nodes, args, plan.prepare, |nodes|);
    var value := Adopt(PrepareReplies(nodes, args, plan.prepare, |nodes|), v);
    PromisersAnswer(nodes, args, plan.prepare);
    PreparingKeepsVoters(nodes, args, plan.prepare, plan.accept);
    PhaseTwoWins(nodes', me, AcceptArgs(args.slot, args.ballot, value, me, nodes'[me].done[me]), plan);
  }

  /** A pass wins if and only if the slot is still open at the proposer, a majority
      answers Phase 1 from below its ballot, and a majority, the same or another,
      answers Phase 2 from no higher than its ballot. */
  lemma PassWinsExactly(nodes: seq<Node>, me: nat, slot: int, v: Any, plan: Plan)
    requires Cluster(nodes) && PlanFor(plan, |nodes|, me)
    ensures RunPass(nodes, me, slot, v, plan).outcome.Won? <==>
            var b, majority := NextBallot(nodes[me]), |nodes| / 2 + 1;
            && Open(nodes[me], slot)
            && |Promisers(nodes, slot, b, plan.prepare)| >= majority
            && |Voters(nodes, slot, b, plan.accept)| >= majority
  {
    hide PhaseOne, Promisers, Voters, Status, Leaves;
    StatusFrame(nodes[me], slot);
    if Open(nodes[me], slot) {
      var nd := Status(nodes[me], slot).0;
      var args := PrepareArgs(slot, NextBallot(nd), me, nd.done[me]);
      DrawingKeepsVoters(nodes, me, slot, args.ballot, plan.prepare);
      DrawingKeepsVoters(nodes, me, slot, args.ballot, plan.accept);
      PhaseOneWins(nodes[me := DrawBallot(nd)], me, v, args, plan);
    }
  }

  /** With a ballot above every promise of the answering majority, a pass wins. */
  lemma BeatingPassWins(nodes: seq<Node>, me: nat, slot: int, v: Any, plan: Plan, up: set<nat>)
    requires Cluster(nodes) && PlanFor(plan, |nodes|, me) && Steady(plan, |nodes|, up)
    requires Open(nodes[me], slot) && Beats(nodes, me, slot, up)
    ensures RunPass(nodes, me, slot, v, plan).outcome.Won?
  {
    hide RunPass, Open;
    PassWinsExactly(nodes, me, slot, v, plan);
    SubsetSize(up, Promisers(nodes, slot, NextBallot(nodes[me]), plan.prepare));
    SubsetSize(up, Voters(nodes, slot, NextBallot(nodes[me]), plan.accept));
  }

  // --- What a losing pass leaves behind ---

  ghost predicate SameView(nd: Node, nd': Node, slot: int) {
    && nd'.Valid() && nd'.me == nd.me && nd'.peers == nd.peers
    && nd'.done == nd.done && nd'.dead == nd.dead
    && Lookup(nd', slot).fate == Lookup(nd, slot).fate
  }

  /** Status looks at nothing but the watermarks, the fate and the dead flag. */
  lemma OpenStays(nd: Node, nd': Node, slot: int)
    requires Open(nd, slot) && SameView(nd, nd', slot)
    ensures Open(nd', slot)
  {
  }

  lemma OpenDraw(nd: Node, slot: int)
    requires Open(nd, slot)
    ensures Open(DrawBallot(Status(nd, slot).0), slot)
  {
    StatusFrame(nd, slot);
  }

  /** A lost Phase 1 lifts the next ballot above all that the majority promised. */
  lemma LostPrepareLifts(nodes: seq<Node>, me: nat, args: PrepareArgs, plan: Plan, up: set<nat>)
    requires Cluster(nodes) && PlanFor(plan, |nodes|, me) && args.sender == me && Steady(plan, |nodes|, up)
    requires args.ballot < NextBallot(nodes[me])
    ensures var rs := PrepareReplies(nodes, args, plan.prepare, |nodes|);
            var nodes' := PrepareNodes(nodes, args, plan.prepare, |nodes|);
            Beats(Retry(nodes', me, MaxNp(rs)).nodes, me, args.slot, up)
  {
    var rs := PrepareReplies(nodes, args, plan.prepare, |nodes|);
    var nodes' := PrepareNodes(nodes, args, plan.prepare, |nodes|);
    MaxNpBounds(rs);
    JumpExceeds(nodes'[me], MaxNp(rs));
    forall i: nat | i in up
      ensures Lookup(nodes'[i], args.slot).np < NextBallot(SetPropCounter(nodes'[me], MaxNp(rs)))
    {
      assert rs[i] == Prepare(nodes[i], args).1;
    }
  }

  /** So does a lost Phase 2: whoever of the majority refused said why. */
  lemma LostAcceptLifts(nodes: seq<Node>, me: nat, acc: AcceptArgs, plan: Plan, up: set<nat>)
    requires Cluster(nodes) && PlanFor(plan, |nodes|, me) && acc.sender == me && Steady(plan, |nodes|, up)
    requires acc.ballot < NextBallot(nodes[me])
    ensures var vs := AcceptReplies(nodes, acc, plan.accept, |nodes|);
            var nodes' := AcceptNodes(nodes, acc, plan.accept, |nodes|);
            Beats(Retry(nodes', me, MaxVoteNp(vs)).nodes, me, acc.slot, up)
  {
    var vs := AcceptReplies(nodes, acc, plan.accept, |nodes|);
    var nodes' := AcceptNodes(nodes, acc, plan.accept, |nodes|);
    MaxVoteNpBounds(vs);
    JumpExceeds(nodes'[me], MaxVoteNp(vs));
    forall i: nat | i in up
      ensures Lookup(nodes'[i], acc.slot).np < NextBallot(SetPropCounter(nodes'[me], MaxVoteNp(vs)))
    {
      assert vs[i] == Accept(nodes[i], acc).1;
    }
  }

  ghost predicate Ready(nodes: seq<Node>, me: nat, slot: int, up: set<nat>)
    requires me < |nodes|
  {
    Beats(nodes, me, slot, up) && Open(nodes[me], slot)
  }

  lemma LosingAcceptLearns(nodes: seq<Node>, me: nat, acc: AcceptArgs, plan: Plan, up: set<nat>)
    requires Cluster(nodes) && PlanFor(plan, |nodes|, me) && acc.sender == me && Steady(plan, |nodes|, up)
    requires acc.ballot < NextBallot(nodes[me]) && acc.done == nodes[me].done[me] && Open(nodes[me], acc.slot)
    requires PhaseTwo(nodes, me, acc, plan).outcome.Again?
    ensures Ready(PhaseTwo(nodes, me, acc, plan).nodes, me, acc.slot, up)
  {
    LostAcceptLifts(nodes, me, acc, plan, up);
    var nodes' := AcceptNodes(nodes, acc, plan.accept, |nodes|);
    assert nodes'[me] == Accept(nodes[me], acc).0;
    assert nodes'[me].done == nodes[me].done;
    OpenStays(nodes[me], PhaseTwo(nodes, me, acc, plan).nodes[me], acc.slot);
  }

  lemma LosingPrepareLearns(nodes: seq<Node>, me: nat, v: Any, args: PrepareArgs, plan: Plan, up: set<nat>)
    requires Cluster(nodes) && PlanFor(plan, |nodes|, me) && args.sender == me && Steady(plan, |nodes|, up)
    requires args.ballot < NextBallot(nodes[me]) && args.done == nodes[me].done[me] && Open(nodes[me], args.slot)
    requires PhaseOne(nodes, me, v, args, plan).outcome.Again?
    ensures Ready(PhaseOne(nodes, me, v, args, plan).nodes, me, args.slot, up)
  {
    var rs := PrepareReplies(nodes, args, plan.prepare, |nodes|);
    var nodes' := PrepareNodes(nodes, args, plan.prepare, |nodes|);
    assert nodes'[me] == Prepare(nodes[me], args).0;
    assert nodes'[me].done == nodes[me].done;
    OpenStays(nodes[me], nodes'[me], args.slot);
    if |PromiseSet(rs)| < |nodes| / 2 + 1 {
      LostPrepareLifts(nodes, me, args, plan, up);
      OpenStays(nodes'[me], SetPropCounter(nodes'[me], MaxNp(rs)), args.slot);
    } else {
      var acc := AcceptArgs(args.slot, args.ballot, Adopt(rs, v), me, nodes'[me].done[me]);
      LosingAcceptLearns(nodes', me, acc, plan, up);
    }
  }

  /** A losing pass, whichever phase it lost, leaves the proposer with a ballot that
      beats the majority, and free to try again. */
  lemma LosingPassLearns(nodes: seq<Node>, me: nat, slot: int, v: Any, plan: Plan, up: set<nat>)
    requires Cluster(nodes) && PlanFor(plan, |nodes|, me) && Steady(plan, |nodes|, up)
    requires RunPass(nodes, me, slot, v, plan).outcome.Again?
    ensures Ready(RunPass(nodes, me, slot, v, plan).nodes, me, slot, up)
  {
    var nd := Status(nodes[me], slot).0;
    var args := PrepareArgs(slot, NextBallot(nd), me, nd.done[me]);
    StatusFrame(nodes[me], slot);
    DrawAdvances(nd);
    OpenDraw(nodes[me], slot);
    LosingPrepareLearns(nodes[me := DrawBallot(nd)], me, v, args, plan, up);
  }

  /** Winning is deciding: every node the Inform reaches, the proposer at least,
      has the value when the pass returns. */
  lemma WinnerInforms(nodes: seq<Node>, me: nat, slot: int, v: Any, plan: Plan, i: nat)
    requires Cluster(nodes) && PlanFor(plan, |nodes|, me) && i < |nodes| && !plan.inform[i].Lost?
    requires RunPass(nodes, me, slot, v, plan).outcome.Won?
    ensures var r := RunPass(nodes, me, slot, v, plan);
            Lookup(r.nodes[i], slot).fate.Decided? && Lookup(r.nodes[i], slot).decided == r.outcome.value
  {
  }

  lemma TwoPasses(nodes: seq<Node>, me: nat, slot: int, v: Any, first: Plan, second: Plan)
    requires Cluster(nodes) && PlanFor(first, |nodes|, me) && PlanFor(second, |nodes|, me)
    ensures var one := RunPass(nodes, me, slot, v, first);
            RunPasses(nodes, me, slot, v, [first, second])
            == if one.outcome.Again? then RunPass(one.nodes, me, slot, v, second) else one
  {
    hide RunPass;
    assert [first, second][..1] == [first];
    assert [first][..0] == [];
    assert RunPasses(nodes, me, slot, v, []) == Pass(nodes, Again);
    assert RunPasses(nodes, me, slot, v, [first]) == RunPass(nodes, me, slot, v, first);
  }

  /** From any acceptor memory at all, a proposer without rivals and with a fixed
      answering majority is done after two passes, whatever becomes of the calls
      to the other peers. */
  lemma TwoPassesSuffice(nodes: seq<Node>, me: nat, slot: int, v: Any, first: Plan, second: Plan, up: set<nat>)
    requires Cluster(nodes) && PlanFor(first, |nodes|, me) && PlanFor(second, |nodes|, me)
    requires Steady(first, |nodes|, up) && Steady(second, |nodes|, up)
    ensures var out := RunPasses(nodes, me, slot, v, [first, second]).outcome;
            if Open(nodes[me], slot) then out.Won? else out.Left?
  {
    TwoPasses(nodes, me, slot, v, first, second);
    var one := RunPass(nodes, me, slot, v, first);
    if one.outcome.Again? {
      hide RunPass;
      LosingPassLearns(nodes, me, slot, v, first, up);
      BeatingPassWins(one.nodes, me, slot, v, second, up);
    }
  }

  ghost function NewCluster(n: nat): (nodes: seq<Node>)
    ensures |nodes| == n && Cluster(nodes)
  {
    seq(n, i requires 0 <= i < n => InitNode(i, n))
  }

  lemma NewClusterStatus(n: nat, me: nat, slot: int)
    requires me < n && slot >= 0
    ensures var (nd, fate, _) := Status(NewCluster(n)[me], slot); !Leaves(nd, fate)
  {
    MinDoneIsMinimum(NoneDone(n), n);
    assert NoneDone(n)[0] == -1;
  }

  /** Two passes are sometimes needed: on a new cluster the first pass wins
      exactly for the nodes other than node 0, whose first ballot is 0. */
  lemma FirstPassOnNewCluster(n: nat, me: nat, slot: int, v: Any, plan: Plan, up: set<nat>)
    requires slot >= 0 && PlanFor(plan, n, me) && Steady(plan, n, up)
    ensures RunPass(NewCluster(n), me, slot, v, plan).outcome.Won? <==> me != 0
  {
    var nodes := NewCluster(n);
    NewClusterStatus(n, me, slot);
    assert NextBallot(nodes[me]) == me;
    if me != 0 {
      BeatingPassWins(nodes, me, slot, v, plan, up);
    } else {
      StatusFrame(nodes[me], slot);
      var nd := Status(nodes[me], slot).0;
      var args := PrepareArgs(slot, NextBallot(nd), me, nd.done[me]);
      var rs := PrepareReplies(nodes[me := DrawBallot(nd)], args, plan.prepare, n);
      assert PromiseSet(rs) == {};
    }
  }
}
