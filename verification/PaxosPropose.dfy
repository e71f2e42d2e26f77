/** The `propose` loop over the mutable nodes. The network's choices come in as
    plans, and what everybody else does between the loop's critical sections as
    rivals' moves. Whatever they are, the loop takes only steps of the protocol;
    and without rivals it ends exactly where the pass functions of PaxosPass end. */
module PaxosPropose {
  import opened PaxosNode
  import opened PaxosProtocol
  import opened PaxosPass
  import opened PaxosServer
  import opened PaxosRefinement
  import opened PaxosRivals
  import PaxosInvariant
  import PaxosSafe

  // --- Rivals ---

  /** What the others do at point c of a phase: before call p at 2 p, and between
      its effect and its return at 2 p + 1. */
  type Moves = nat -> seq<Step>

  /** `pass` is for the points outside the three loops. */
  datatype Rivals = Rivals(pass: Moves, prepare: Moves, accept: Moves, inform: Moves)

  ghost predicate Idle(moves: Moves) { forall c :: moves(c) == [] }

  ghost predicate Quiet(rivals: Rivals) {
    Idle(rivals.pass) && Idle(rivals.prepare) && Idle(rivals.accept) && Idle(rivals.inform)
  }

  // --- Tallies, one reply at a time ---

  lemma PromiseSetSnoc(rs: seq<PrepareReply>, r: PrepareReply)
    ensures |PromiseSet(rs + [r])| == |PromiseSet(rs)| + if r.reply.OK? then 1 else 0
    ensures |PromiseSet(rs)| <= |rs|
  {
    PromiseSetSize(rs);
    if r.reply.OK? {
      assert PromiseSet(rs + [r]) == PromiseSet(rs) + {|rs|};
    } else {
      assert PromiseSet(rs + [r]) == PromiseSet(rs);
    }
  }

  lemma {:induction false} PromiseSetSize(rs: seq<PrepareReply>)
    ensures |PromiseSet(rs)| <= |rs|
  {
    if rs != [] {
      var front := rs[..|rs| - 1];
      PromiseSetSize(front);
      assert PromiseSet(rs) <= PromiseSet(front) + {|front|};
      PaxosSafe.SubsetSize(PromiseSet(rs), PromiseSet(front) + {|front|});
    }
  }

  lemma VoteSetSnoc(rs: seq<AcceptReply>, r: AcceptReply)
    ensures |VoteSet(rs + [r])| == |VoteSet(rs)| + if r.reply.OK? then 1 else 0
  {
    if r.reply.OK? {
      assert VoteSet(rs + [r]) == VoteSet(rs) + {|rs|};
    } else {
      assert VoteSet(rs + [r]) == VoteSet(rs);
    }
  }

  lemma HighestSnoc(rs: seq<PrepareReply>, r: PrepareReply)
    ensures Highest(rs + [r]) == if r.reply.OK? && r.na > Highest(rs).0 then (r.na, r.va) else Highest(rs)
    ensures MaxNp(rs + [r]) == if !r.reply.OK? && r.np > MaxNp(rs) then r.np else MaxNp(rs)
  {
    assert (rs + [r])[..|rs|] == rs;
  }

  lemma MaxVoteNpSnoc(rs: seq<AcceptReply>, r: AcceptReply)
    ensures MaxVoteNp(rs + [r]) == if !r.reply.OK? && r.np > MaxVoteNp(rs) then r.np else MaxVoteNp(rs)
  {
    assert (rs + [r])[..|rs|] == rs;
  }

  // --- One call ---

  /** paxos.go's `call`, and the direct call of a node to itself: what does not
      come back leaves the reply struct empty. */
  method PrepareOnce(px: seq<Paxos>, k: nat, peer: nat, args: PrepareArgs, d: Delivery, st: State)
    returns (reply: PrepareReply, st': State)
    requires Holds(px, st) && k < |st.procs| && peer < |px| && args in st.prepares && args.sender < |px|
    modifies px
    ensures Holds(px, st') && Reach(st, st') && Elsewhere(st, st', k)
    ensures reply == NO_PROMISE || (reply.sender == peer && PrepareExchange(args, reply) in st'.promises)
    ensures st'.nodes == st.nodes[peer := AskPrepare(st.nodes[peer], args, d).0]
    ensures reply == AskPrepare(st.nodes[peer], args, d).1
  {
    hide Reach, Prepare;
    ReachSelf(st);
    st' := st;
    reply := NO_PROMISE;
    if !d.Lost? {
      PrepareAnswers(st.nodes[peer], args);
      var answer := PrepareAt(px, peer, args);
      ReachThen(st, st, DeliverPrepare(peer, args));
      st' := Apply(st, DeliverPrepare(peer, args));
      if d.Answered? {
        reply := answer;
      }
    }
    assert d.Lost? ==> st.nodes[peer := st.nodes[peer]] == st.nodes;
  }

  method AcceptOnce(px: seq<Paxos>, k: nat, peer: nat, args: AcceptArgs, d: Delivery, st: State)
    returns (reply: AcceptReply, st': State)
    requires Holds(px, st) && k < |st.procs| && peer < |px| && args in st.accepts && args.sender < |px|
    modifies px
    ensures Holds(px, st') && Reach(st, st') && Elsewhere(st, st', k)
    ensures reply == NO_VOTE || (reply.sender == peer && AcceptExchange(args, reply) in st'.votes)
    ensures st'.nodes == st.nodes[peer := AskAccept(st.nodes[peer], args, d).0]
    ensures reply == AskAccept(st.nodes[peer], args, d).1
  {
    hide Reach, Accept;
    ReachSelf(st);
    st' := st;
    reply := NO_VOTE;
    if !d.Lost? {
      AcceptAnswers(st.nodes[peer], args);
      var answer := AcceptAt(px, peer, args);
      ReachThen(st, st, DeliverAccept(peer, args));
      st' := Apply(st, DeliverAccept(peer, args));
      if d.Answered? {
        reply := answer;
      }
    }
    assert d.Lost? ==> st.nodes[peer := st.nodes[peer]] == st.nodes;
  }

  /** The call inside the loop: the others may move before it and while its reply is
      on the way. */
  method CallPrepare(px: seq<Paxos>, k: nat, peer: nat, args: PrepareArgs, d: Delivery, moves: Moves, st: State)
    returns (reply: PrepareReply, st': State)
    requires Holds(px, st) && k < |st.procs| && peer < |px| && args in st.prepares && args.sender < |px|
    requires st.procs[k].phase.Preparing? && st.procs[k].phase.prepareArgs == args
    requires |st.procs[k].phase.promises| == peer
    modifies px
    ensures Holds(px, st') && Reach(st, st') && k < |st'.procs| && args in st'.prepares
    ensures st'.procs[k] == st.procs[k].(phase := Preparing(args, st.procs[k].phase.promises + [reply]))
    ensures Idle(moves) ==>
      && st'.nodes == st.nodes[peer := AskPrepare(st.nodes[peer], args, d).0]
      && reply == AskPrepare(st.nodes[peer], args, d).1
  {
    hide Reach, AskPrepare;
    st' := Meddle(px, k, moves(2 * peer), st);
    ghost var st1 := st';
    reply, st' := PrepareOnce(px, k, peer, args, d, st');
    ReachTrans(st, st1, st');
    ghost var st2 := st';
    st' := Meddle(px, k, moves(2 * peer + 1), st');
    ReachTrans(st, st2, st');
    ReachThen(st, st', HearPrepare(k, reply));
    st' := Apply(st', HearPrepare(k, reply));
  }

  method CallAccept(px: seq<Paxos>, k: nat, peer: nat, args: AcceptArgs, d: Delivery, moves: Moves, st: State)
    returns (reply: AcceptReply, st': State)
    requires Holds(px, st) && k < |st.procs| && peer < |px| && args in st.accepts && args.sender < |px|
    requires st.procs[k].phase.Accepting? && st.procs[k].phase.acceptArgs == args
    requires |st.procs[k].phase.votes| == peer
    modifies px
    ensures Holds(px, st') && Reach(st, st') && k < |st'.procs| && args in st'.accepts
    ensures st'.procs[k] == st.procs[k].(phase := Accepting(args, st.procs[k].phase.votes + [reply]))
    ensures Idle(moves) ==>
      && st'.nodes == st.nodes[peer := AskAccept(st.nodes[peer], args, d).0]
      && reply == AskAccept(st.nodes[peer], args, d).1
  {
    hide Reach, AskAccept;
    st' := Meddle(px, k, moves(2 * peer), st);
    ghost var st1 := st';
    reply, st' := AcceptOnce(px, k, peer, args, d, st');
    ReachTrans(st, st1, st');
    ghost var st2 := st';
    st' := Meddle(px, k, moves(2 * peer + 1), st');
    ReachTrans(st, st2, st');
    ReachThen(st, st', HearAccept(k, reply));
    st' := Apply(st', HearAccept(k, reply));
  }

  method CallInform(px: seq<Paxos>, k: nat, peer: nat, args: InformArgs, d: Delivery, moves: Moves, st: State)
    returns (st': State)
    requires Holds(px, st) && k < |st.procs| && peer < |px| && args in st.informs && args.sender < |px|
    modifies px
    ensures Holds(px, st') && Reach(st, st') && k < |st'.procs| && args in st'.informs
    ensures st'.procs[k] == st.procs[k]
    ensures Idle(moves) ==> st'.nodes == st.nodes[peer := Tell(st.nodes[peer], args, d)]
  {
    hide Reach, Inform;
    st' := Meddle(px, k, moves(2 * peer), st);
    if !d.Lost? {
      InformFrame(st'.nodes[peer], args);
      InformAt(px, peer, args);
      ReachThen(st, st', DeliverInform(peer, args));
      st' := Apply(st', DeliverInform(peer, args));
    }
    ghost var st1 := st';
    st' := Meddle(px, k, moves(2 * peer + 1), st');
    ReachTrans(st, st1, st');
  }

  lemma PrepareAnswers(nd: Node, args: PrepareArgs)
    requires nd.Valid() && args.sender < nd.peers
    ensures Prepare(nd, args).1.sender == nd.me
    ensures Prepare(nd, args).0.Valid() && Prepare(nd, args).0.me == nd.me && Prepare(nd, args).0.peers == nd.peers
  {
  }

  lemma AcceptAnswers(nd: Node, args: AcceptArgs)
    requires nd.Valid() && args.sender < nd.peers
    ensures Accept(nd, args).1.sender == nd.me
    ensures Accept(nd, args).0.Valid() && Accept(nd, args).0.me == nd.me && Accept(nd, args).0.peers == nd.peers
  {
  }

  lemma PrepareOneMore(nodes: seq<Node>, args: PrepareArgs, ds: seq<Delivery>, n: nat)
    requires Cluster(nodes) && n < |nodes| == |ds| && args.sender < |nodes|
    ensures PrepareNodes(nodes, args, ds, 0) == nodes
    ensures PrepareNodes(nodes, args, ds, n)[n] == nodes[n]
    ensures var (nd, r) := AskPrepare(nodes[n], args, ds[n]);
            && PrepareNodes(nodes, args, ds, n + 1) == PrepareNodes(nodes, args, ds, n)[n := nd]
            && PrepareReplies(nodes, args, ds, n + 1) == PrepareReplies(nodes, args, ds, n) + [r]
  {
  }

  lemma AcceptOneMore(nodes: seq<Node>, args: AcceptArgs, ds: seq<Delivery>, n: nat)
    requires Cluster(nodes) && n < |nodes| == |ds| && args.sender < |nodes|
    ensures AcceptNodes(nodes, args, ds, 0) == nodes
    ensures AcceptNodes(nodes, args, ds, n)[n] == nodes[n]
    ensures var (nd, r) := AskAccept(nodes[n], args, ds[n]);
            && AcceptNodes(nodes, args, ds, n + 1) == AcceptNodes(nodes, args, ds, n)[n := nd]
            && AcceptReplies(nodes, args, ds, n + 1) == AcceptReplies(nodes, args, ds, n) + [r]
  {
  }

  lemma InformOneMore(nodes: seq<Node>, args: InformArgs, ds: seq<Delivery>, n: nat)
    requires Cluster(nodes) && n < |nodes| == |ds| && args.sender < |nodes|
    ensures InformNodes(nodes, args, ds, 0) == nodes
    ensures InformNodes(nodes, args, ds, n)[n] == nodes[n]
    ensures InformNodes(nodes, args, ds, n + 1)
            == InformNodes(nodes, args, ds, n)[n := Tell(nodes[n], args, ds[n])]
  {
  }

  // --- The three loops ---

  method PreparePhase(px: seq<Paxos>, k: nat, args: PrepareArgs, ds: seq<Delivery>, moves: Moves, st: State)
    returns (okCount: nat, highestNa: int, vAdopted: Any, maxNpSeen: nat, st': State)
    requires Holds(px, st) && k < |st.procs| && |ds| == |px| && args in st.prepares && args.sender < |px|
    requires st.procs[k].phase == Preparing(args, [])
    modifies px
    ensures Holds(px, st') && Reach(st, st') && k < |st'.procs|
    ensures st'.procs[k].phase.Preparing? && |st'.procs[k].phase.promises| == |px|
    ensures var rs := st'.procs[k].phase.promises;
            && st'.procs[k] == st.procs[k].(phase := Preparing(args, rs))
            && okCount == |PromiseSet(rs)| && (highestNa, vAdopted) == Highest(rs) && maxNpSeen == MaxNp(rs)
            && (Idle(moves) ==>
                  st'.nodes == PrepareNodes(st.nodes, args, ds, |px|) && rs == PrepareReplies(st.nodes, args, ds, |px|))
  {
    hide Reach, AskPrepare;
    ghost var before := st.nodes;
    ghost var rs: seq<PrepareReply> := [];
    PrepareOneMore(before, args, ds, 0);
    ReachSelf(st);
    st' := st;
    okCount, highestNa, vAdopted, maxNpSeen := 0, 0, Nil, 0;
    var peer := 0;
    while peer < |px|
      invariant peer <= |px| == |before|
      invariant Holds(px, st') && Reach(st, st') && k < |st'.procs| && args in st'.prepares
      invariant |rs| == peer && st'.procs[k] == st.procs[k].(phase := Preparing(args, rs))
      invariant okCount == |PromiseSet(rs)| && (highestNa, vAdopted) == Highest(rs) && maxNpSeen == MaxNp(rs)
      invariant Idle(moves) ==>
        st'.nodes == PrepareNodes(before, args, ds, peer) && rs == PrepareReplies(before, args, ds, peer)
    {
      PrepareOneMore(before, args, ds, peer);
      ghost var st1 := st';
      var reply;
      reply, st' := CallPrepare(px, k, peer, args, ds[peer], moves, st');
      ReachTrans(st, st1, st');
      if reply.reply == OK {
        okCount := okCount + 1;
        if reply.na > highestNa {
          highestNa := reply.na;
          vAdopted := reply.va;
        }
      } else if reply.np > maxNpSeen {
        maxNpSeen := reply.np;
      }
      PromiseSetSnoc(rs, reply);
      HighestSnoc(rs, reply);
      rs := rs + [reply];
      peer := peer + 1;
    }
  }

  method AcceptPhase(px: seq<Paxos>, k: nat, args: AcceptArgs, ds: seq<Delivery>, moves: Moves, st: State)
    returns (okCount: nat, maxNpSeen: nat, st': State)
    requires Holds(px, st) && k < |st.procs| && |ds| == |px| && args in st.accepts && args.sender < |px|
    requires st.procs[k].phase == Accepting(args, [])
    modifies px
    ensures Holds(px, st') && Reach(st, st') && k < |st'.procs|
    ensures st'.procs[k].phase.Accepting? && |st'.procs[k].phase.votes| == |px|
    ensures var rs := st'.procs[k].phase.votes;
            && st'.procs[k] == st.procs[k].(phase := Accepting(args, rs))
            && okCount == |VoteSet(rs)| && maxNpSeen == MaxVoteNp(rs)
            && (Idle(moves) ==>
                  st'.nodes == AcceptNodes(st.nodes, args, ds, |px|) && rs == AcceptReplies(st.nodes, args, ds, |px|))
  {
    hide Reach, AskAccept;
    ghost var before := st.nodes;
    ghost var rs: seq<AcceptReply> := [];
    AcceptOneMore(before, args, ds, 0);
    ReachSelf(st);
    st' := st;
    okCount, maxNpSeen := 0, 0;
    var peer := 0;
    while peer < |px|
      invariant peer <= |px| == |before|
      invariant Holds(px, st') && Reach(st, st') && k < |st'.procs| && args in st'.accepts
      invariant |rs| == peer && st'.procs[k] == st.procs[k].(phase := Accepting(args, rs))
      invariant okCount == |VoteSet(rs)| && maxNpSeen == MaxVoteNp(rs)
      invariant Idle(moves) ==>
        st'.nodes == AcceptNodes(before, args, ds, peer) && rs == AcceptReplies(before, args, ds, peer)
    {
      AcceptOneMore(before, args, ds, peer);
      ghost var st1 := st';
      var reply;
      reply, st' := CallAccept(px, k, peer, args, ds[peer], moves, st');
      ReachTrans(st, st1, st');
      if reply.reply == OK {
        okCount := okCount + 1;
      } else if reply.np > maxNpSeen {
        maxNpSeen := reply.np;
      }
      VoteSetSnoc(rs, reply);
      MaxVoteNpSnoc(rs, reply);
      rs := rs + [reply];
      peer := peer + 1;
    }
  }

  /** Every peer whose call gets through has handled the Inform, then or earlier. */
  method InformPhase(px: seq<Paxos>, k: nat, args: InformArgs, ds: seq<Delivery>, moves: Moves, st: State)
    returns (st': State)
    requires Holds(px, st) && k < |st.procs| && |ds| == |px| && args in st.informs && args.sender < |px|
    modifies px
    ensures Holds(px, st') && Reach(st, st') && k < |st'.procs| && args in st'.informs
    ensures st'.procs[k] == st.procs[k]
    ensures Idle(moves) ==> st'.nodes == InformNodes(st.nodes, args, ds, |px|)
  {
    hide Reach, Tell;
    ghost var before := st.nodes;
    InformOneMore(before, args, ds, 0);
    ReachSelf(st);
    st' := st;
    var peer := 0;
    while peer < |px|
      invariant peer <= |px| == |before|
      invariant Holds(px, st') && Reach(st, st') && k < |st'.procs| && args in st'.informs
      invariant st'.procs[k] == st.procs[k]
      invariant Idle(moves) ==> st'.nodes == InformNodes(before, args, ds, peer)
    {
      InformOneMore(before, args, ds, peer);
      ghost var st1 := st';
      st' := CallInform(px, k, peer, args, ds[peer], moves, st');
      ReachTrans(st, st1, st');
      peer := peer + 1;
    }
  }

  // --- A pass ---

  /** Where goroutine k stands when a pass is over, and what its win is worth. */
  ghost predicate Over(st: State, st': State, k: nat, outcome: Outcome)
    requires k < |st.procs|
  {
    && Reach(st, st') && k < |st'.procs|
    && st'.procs[k] == st.procs[k].(phase := if outcome.Again? then Top else Returned)
    && (outcome.Won? ==> PaxosInvariant.Informed(st', st.procs[k].slot, outcome.value))
  }

  /** Phase 3, from the accepted request on. */
  method Announce(px: seq<Paxos>, k: nat, me: nat, acc: AcceptArgs, plan: Plan, rivals: Rivals, st: State)
    returns (st': State)
    requires Holds(px, st) && k < |st.procs| && PlanFor(plan, |px|, me) && st.procs[k].node == me
    requires st.procs[k].phase.Accepting? && st.procs[k].phase.acceptArgs == acc && acc.slot == st.procs[k].slot
    requires |st.procs[k].phase.votes| == |px| && |VoteSet(st.procs[k].phase.votes)| >= |px| / 2 + 1
    modifies px
    ensures Holds(px, st') && Over(st, st', k, Won(acc.value))
    ensures Quiet(rivals) ==> Pass(st'.nodes, Won(acc.value)) == PhaseThree(st.nodes, me, acc, plan)
  {
    hide Reach;
    ObjectAt(px, me);
    var args := InformArgs(acc.slot, acc.value, me, px[me].doneValues[me]);
    ReachSelf(st);
    ReachThen(st, st, CloseAccept(k));
    var st1 := Apply(st, CloseAccept(k));
    st' := InformPhase(px, k, args, plan.inform, rivals.inform, st1);
    ReachTrans(st, st1, st');
    ReachThen(st, st', CloseInform(k));
    st' := Apply(st', CloseInform(k));
    assert args in st'.informs;
  }

  /** Phase 2, and Phase 3 if it wins. */
  method Vote(px: seq<Paxos>, k: nat, me: nat, acc: AcceptArgs, plan: Plan, rivals: Rivals, st: State)
    returns (outcome: Outcome, st': State)
    requires Holds(px, st) && k < |st.procs| && PlanFor(plan, |px|, me) && st.procs[k].node == me
    requires acc in st.accepts && acc.sender == me && acc.slot == st.procs[k].slot
    requires st.procs[k].phase == Accepting(acc, [])
    modifies px
    ensures Holds(px, st') && Over(st, st', k, outcome)
    ensures Quiet(rivals) ==> Pass(st'.nodes, outcome) == PhaseTwo(st.nodes, me, acc, plan)
  {
    hide Reach, PhaseThree;
    var okCount, maxNpSeen;
    okCount, maxNpSeen, st' := AcceptPhase(px, k, acc, plan.accept, rivals.accept, st);
    ghost var st1 := st';
    if okCount < |px| / 2 + 1 {
      SetPropCounterAt(px, me, maxNpSeen);
      ReachThen(st, st', CloseAccept(k));
      st' := Apply(st', CloseAccept(k));
      return Again, st';
    }
    st' := Announce(px, k, me, acc, plan, rivals, st');
    ReachTrans(st, st1, st');
    outcome := Won(acc.value);
  }

  /** Phases 1 to 3 of a pass whose ballot is drawn. */
  method RunPhases(px: seq<Paxos>, k: nat, me: nat, slot: int, v: Any, args: PrepareArgs, plan: Plan, rivals: Rivals,
                   st: State)
    returns (outcome: Outcome, st': State)
    requires Holds(px, st) && PlanFor(plan, |px|, me) && Runs(st, k, me, slot, v, Preparing(args, []))
    requires args in st.prepares && args.sender == me && args.slot == slot
    modifies px
    ensures Holds(px, st') && Over(st, st', k, outcome)
    ensures Quiet(rivals) ==> Pass(st'.nodes, outcome) == PhaseOne(st.nodes, me, v, args, plan)
  {
    hide Reach, PhaseTwo;
    var okCount, highestNa, vAdopted, maxNpSeen;
    okCount, highestNa, vAdopted, maxNpSeen, st' := PreparePhase(px, k, args, plan.prepare, rivals.prepare, st);
    if okCount < |px| / 2 + 1 {
      SetPropCounterAt(px, me, maxNpSeen);
      ReachThen(st, st', ClosePrepare(k));
      st' := Apply(st', ClosePrepare(k));
      return Again, st';
    }

    var vPrime := v;
    if vAdopted != Nil {
      vPrime := vAdopted;
    }
    ObjectAt(px, me);
    var acc := AcceptArgs(slot, args.ballot, vPrime, me, px[me].doneValues[me]);
    ReachThen(st, st', ClosePrepare(k));
    st' := Apply(st', ClosePrepare(k));
    ghost var st1 := st';
    outcome, st' := Vote(px, k, me, acc, plan, rivals, st');
    ReachTrans(st, st1, st');
  }

  /** The test at the top of the loop. */
  method CheckTop(px: seq<Paxos>, k: nat, me: nat, slot: int, v: Any, st: State)
    returns (leave: bool, st': State)
    requires Holds(px, st) && me < |px| && Runs(st, k, me, slot, v, Top)
    modifies px
    ensures Holds(px, st') && Reach(st, st') && Runs(st', k, me, slot, v, if leave then Returned else Cleared)
    ensures var (nd, fate, _) := Status(st.nodes[me], slot);
            leave == Leaves(nd, fate) && st'.nodes == st.nodes[me := nd]
  {
    hide Reach, Status;
    StatusFrame(st.nodes[me], slot);
    var fate, _ := StatusAt(px, me, slot);
    ReachSelf(st);
    ReachThen(st, st, Check(k));
    st' := Apply(st, Check(k));
    ObjectAt(px, me);
    leave := fate == Decided || fate == Forgotten || px[me].dead;
  }

  lemma PassOpens(nodes: seq<Node>, me: nat, slot: int, v: Any, plan: Plan)
    requires Cluster(nodes) && PlanFor(plan, |nodes|, me)
    ensures var (nd, fate, _) := Status(nodes[me], slot);
            var nodes1 := nodes[me := nd];
            Cluster(nodes1) && Cluster(nodes1[me := DrawBallot(nd)]) &&
            RunPass(nodes, me, slot, v, plan)
            == if Leaves(nd, fate) then Pass(nodes1, Left)
               else PhaseOne(nodes1[me := DrawBallot(nd)], me, v,
                             PrepareArgs(slot, NextBallot(nd), me, nd.done[me]), plan)
  {
    hide PhaseOne;
    StatusFrame(nodes[me], slot);
    var nd := Status(nodes[me], slot).0;
    assert nodes[me := nd][me := DrawBallot(nd)] == nodes[me := DrawBallot(nd)];
  }

  method ProposePass(px: seq<Paxos>, k: nat, me: nat, slot: int, v: Any, plan: Plan, rivals: Rivals, st: State)
    returns (outcome: Outcome, st': State)
    requires Holds(px, st) && PlanFor(plan, |px|, me) && Runs(st, k, me, slot, v, Top)
    modifies px
    ensures Holds(px, st') && Over(st, st', k, outcome)
    ensures Quiet(rivals) ==> Pass(st'.nodes, outcome) == RunPass(st.nodes, me, slot, v, plan)
  {
    hide Reach, PhaseOne, Status, RunPass, Leaves;
    PassOpens(st.nodes, me, slot, v, plan);
    st' := Meddle(px, k, rivals.pass(0), st);
    ghost var st1 := st';
    var leave;
    leave, st' := CheckTop(px, k, me, slot, v, st');
    ReachTrans(st, st1, st');
    if leave {
      return Left, st';
    }
    ghost var st2 := st';
    st' := Meddle(px, k, rivals.pass(1), st');
    ReachTrans(st, st2, st');
    outcome, st' := OpenAndRun(px, k, me, slot, v, plan, rivals, st, st');
  }

  /** The critical section that opens the pass, and its phases. */
  method OpenAndRun(px: seq<Paxos>, k: nat, me: nat, slot: int, v: Any, plan: Plan, rivals: Rivals,
                    ghost st: State, st1: State)
    returns (outcome: Outcome, st': State)
    requires Holds(px, st1) && PlanFor(plan, |px|, me) && Runs(st1, k, me, slot, v, Cleared) && Reach(st, st1)
    requires k < |st.procs| && st.procs[k] == st1.procs[k].(phase := Top)
    modifies px
    ensures Holds(px, st') && Over(st, st', k, outcome)
    ensures Quiet(rivals) ==> var nd := st1.nodes[me];
      Pass(st'.nodes, outcome) ==
      PhaseOne(st1.nodes[me := DrawBallot(nd)], me, v, PrepareArgs(slot, NextBallot(nd), me, nd.done[me]), plan)
  {
    hide Reach, PhaseOne;
    var args := OpenPassAt(px, me, slot);
    ReachThen(st, st1, Draw(k));
    st' := Apply(st1, Draw(k));
    ghost var st2 := st';
    outcome, st' := RunPhases(px, k, me, slot, v, args, plan, rivals, st');
    ReachTrans(st, st2, st');
  }

  // --- The loop ---

  ghost predicate AllQuiet(rivals: seq<Rivals>) { forall i :: 0 <= i < |rivals| ==> Quiet(rivals[i]) }

  /** `propose`, for as many passes as there are plans. Whatever the network and the
      others do, it takes only steps of the protocol, and a win is the informed
      value of the slot; without rivals, it is the loop function of PaxosPass. */
  method Propose(px: seq<Paxos>, k: nat, me: nat, slot: int, v: Any, plans: seq<Plan>, rivals: seq<Rivals>, st: State)
    returns (outcome: Outcome, st': State)
    requires Holds(px, st) && Runs(st, k, me, slot, v, Top) && |rivals| == |plans|
    requires forall p :: p in plans ==> PlanFor(p, |px|, me)
    modifies px
    ensures Holds(px, st') && Over(st, st', k, outcome)
    ensures AllQuiet(rivals) ==> Pass(st'.nodes, outcome) == RunPasses(st.nodes, me, slot, v, plans)
  {
    hide Reach, RunPass;
    ReachSelf(st);
    st' := st;
    outcome := Again;
    var i := 0;
    while i < |plans| && outcome == Again
      invariant i <= |plans|
      invariant Holds(px, st') && |px| == |st.nodes| && Over(st, st', k, outcome)
      invariant AllQuiet(rivals) && outcome == Again ==>
        Pass(st'.nodes, outcome) == RunPasses(st.nodes, me, slot, v, plans[..i])
      invariant AllQuiet(rivals) && outcome != Again ==>
        Pass(st'.nodes, outcome) == RunPasses(st.nodes, me, slot, v, plans)
    {
      ghost var done := plans[..i];
      ghost var st1 := st';
      outcome, st' := ProposePass(px, k, me, slot, v, plans[i], rivals[i], st');
      ReachTrans(st, st1, st');
      assert plans[..i + 1][..i] == done;
      i := i + 1;
      if outcome != Again && AllQuiet(rivals) {
        NoMorePasses(st.nodes, me, slot, v, plans, i);
      }
    }
    assert plans[..|plans|] == plans;
  }

  lemma {:induction false} NoMorePasses(nodes: seq<Node>, me: nat, slot: int, v: Any, plans: seq<Plan>, i: nat)
    requires Cluster(nodes) && i <= |plans| && forall p :: p in plans ==> PlanFor(p, |nodes|, me)
    requires !RunPasses(nodes, me, slot, v, plans[..i]).outcome.Again?
    ensures RunPasses(nodes, me, slot, v, plans) == RunPasses(nodes, me, slot, v, plans[..i])
    decreases |plans|
  {
    if i == |plans| {
      assert plans[..i] == plans;
    } else {
      var front := plans[..|plans| - 1];
      assert front[..i] == plans[..i];
      NoMorePasses(nodes, me, slot, v, front, i);
    }
  }
}
