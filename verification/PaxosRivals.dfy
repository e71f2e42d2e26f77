/** Everything else that goes on in the cluster while one goroutine runs: the other
    proposers, the RPC handlers, Done, Status and Kill calls, on the mutable nodes. */
module PaxosRivals {
  import opened PaxosNode
  import opened PaxosProtocol
  import opened PaxosSafety
  import opened PaxosServer
  import opened PaxosRefinement

  ghost function Views(px: seq<Paxos>): (nodes: seq<Node>)
    reads px
    ensures |nodes| == |px|
  {
    seq(|px|, i requires 0 <= i < |px| reads px => px[i].View())
  }

  /** Object i is peer i of the same cluster. */
  ghost predicate Peers(px: seq<Paxos>)
    reads px
  {
    (forall i, j :: 0 <= i < j < |px| ==> px[i] != px[j]) && Cluster(Views(px))
  }

  /** These objects are the nodes of this state of the cluster. */
  ghost predicate Holds(px: seq<Paxos>, st: State)
    reads px
  {
    Peers(px) && Valid(st) && Views(px) == st.nodes
  }

  /** The goroutine whose own loop takes this step. */
  predicate TakenBy(step: Step, k: nat) {
    match step
    case Check(j) => j == k
    case Draw(j) => j == k
    case HearPrepare(j, _) => j == k
    case ClosePrepare(j) => j == k
    case HearAccept(j, _) => j == k
    case CloseAccept(j) => j == k
    case CloseInform(j) => j == k
    case _ => false
  }

  /** What steps of others leave alone, as goroutine k sees it. */
  ghost predicate Elsewhere(st: State, st': State, k: nat) {
    && |st'.nodes| == |st.nodes|
    && k < |st.procs| <= |st'.procs| && st'.procs[k] == st.procs[k]
    && st.prepares <= st'.prepares && st.promises <= st'.promises
    && st.accepts <= st'.accepts && st.votes <= st'.votes && st.informs <= st'.informs
  }

  lemma InformFrame(nd: Node, args: InformArgs)
    requires nd.Valid() && args.sender < nd.peers
    ensures var nd' := Inform(nd, args).0; nd'.Valid() && nd'.me == nd.me && nd'.peers == nd.peers
  {
  }

  lemma HandlingKeepsValid(st: State, step: Step)
    requires Valid(st) && Enabled(st, step)
    requires step.DeliverPrepare? || step.DeliverAccept? || step.DeliverInform? || step.CallStatus? || step.Check?
    ensures Valid(Apply(st, step))
  {
    hide Prepare, Accept, Inform, Status;
    match step
    case Check(k) => StatusFrame(st.nodes[st.procs[k].node], st.procs[k].slot);
    case DeliverPrepare(a, m) => PrepareFrame(st.nodes[a], m);
    case DeliverAccept(a, m) => AcceptFrame(st.nodes[a], m);
    case DeliverInform(a, m) => InformFrame(st.nodes[a], m);
    case CallStatus(p, slot) => StatusFrame(st.nodes[p], slot);
  }

  lemma ClosingKeepsValid(st: State, step: Step)
    requires Valid(st) && Enabled(st, step) && (step.ClosePrepare? || step.CloseAccept?)
    ensures Valid(Apply(st, step))
  {
    hide MaxNp, MaxVoteNp, Adopt, PromiseSet, VoteSet;
  }

  lemma StepKeepsValid(st: State, step: Step)
    requires Valid(st) && Enabled(st, step)
    ensures Valid(Apply(st, step))
  {
    if step.DeliverPrepare? || step.DeliverAccept? || step.DeliverInform? || step.CallStatus? || step.Check? {
      HandlingKeepsValid(st, step);
    } else if step.ClosePrepare? || step.CloseAccept? {
      ClosingKeepsValid(st, step);
    } else {
      hide ApplyClosePrepare, ApplyCloseAccept, ApplyCheck, Prepare, Accept, Inform, Status;
    }
  }

  lemma StepElsewhere(st: State, step: Step, k: nat)
    requires Valid(st) && Enabled(st, step) && !TakenBy(step, k) && k < |st.procs|
    ensures Elsewhere(st, Apply(st, step), k) && Valid(Apply(st, step))
  {
    hide Prepare, Accept, Inform, Status, Collect, Highest, MaxNp, MaxVoteNp;
    StepKeepsValid(st, step);
  }

  // --- One node among the others ---

  lemma ObjectAt(px: seq<Paxos>, a: nat)
    requires Peers(px) && a < |px|
    ensures px[a].Valid() && px[a].me == a && px[a].peers == |px| && px[a].View() == Views(px)[a]
  {
    assert Views(px)[a] == px[a].View();
  }

  method PrepareAt(px: seq<Paxos>, a: nat, args: PrepareArgs) returns (reply: PrepareReply)
    requires Peers(px) && a < |px| && args.sender < |px|
    modifies px[a]
    ensures Views(px) == old(Views(px))[a := Prepare(old(Views(px)[a]), args).0]
    ensures reply == Prepare(old(Views(px)[a]), args).1
  {
    ObjectAt(px, a);
    ghost var before := Views(px);
    reply := px[a].Prepare(args);
    assert Views(px) == before[a := px[a].View()];
  }

  method AcceptAt(px: seq<Paxos>, a: nat, args: AcceptArgs) returns (reply: AcceptReply)
    requires Peers(px) && a < |px| && args.sender < |px|
    modifies px[a]
    ensures Views(px) == old(Views(px))[a := Accept(old(Views(px)[a]), args).0]
    ensures reply == Accept(old(Views(px)[a]), args).1
  {
    ObjectAt(px, a);
    ghost var before := Views(px);
    reply := px[a].Accept(args);
    assert Views(px) == before[a := px[a].View()];
  }

  method InformAt(px: seq<Paxos>, a: nat, args: InformArgs)
    requires Peers(px) && a < |px| && args.sender < |px|
    modifies px[a]
    ensures Views(px) == old(Views(px))[a := Inform(old(Views(px)[a]), args).0]
  {
    ObjectAt(px, a);
    ghost var before := Views(px);
    var _ := px[a].Inform(args);
    assert Views(px) == before[a := px[a].View()];
  }

  method StatusAt(px: seq<Paxos>, a: nat, slot: int) returns (fate: Fate, value: Any)
    requires Peers(px) && a < |px|
    modifies px[a]
    ensures Views(px) == old(Views(px))[a := Status(old(Views(px)[a]), slot).0]
    ensures fate == Status(old(Views(px)[a]), slot).1 && value == Status(old(Views(px)[a]), slot).2
  {
    ObjectAt(px, a);
    ghost var before := Views(px);
    fate, value := px[a].Status(slot);
    assert Views(px) == before[a := px[a].View()];
  }

  method OpenPassAt(px: seq<Paxos>, a: nat, slot: int) returns (args: PrepareArgs)
    requires Peers(px) && a < |px|
    modifies px[a]
    ensures Views(px) == old(Views(px))[a := DrawBallot(old(Views(px)[a]))]
    ensures args == PrepareArgs(slot, NextBallot(old(Views(px)[a])), a, old(Views(px)[a]).done[a])
  {
    ObjectAt(px, a);
    ghost var before := Views(px);
    args := px[a].OpenPass(slot);
    assert Views(px) == before[a := px[a].View()];
  }

  method SetPropCounterAt(px: seq<Paxos>, a: nat, maxNpSeen: nat)
    requires Peers(px) && a < |px|
    modifies px[a]
    ensures Views(px) == old(Views(px))[a := SetPropCounter(old(Views(px)[a]), maxNpSeen)]
  {
    ObjectAt(px, a);
    ghost var before := Views(px);
    px[a].SetPropCounter(maxNpSeen);
    assert Views(px) == before[a := px[a].View()];
  }

  // --- One step on the objects ---

  method Handle(px: seq<Paxos>, st: State, step: Step)
    requires Holds(px, st) && Enabled(st, step)
    requires step.DeliverPrepare? || step.DeliverAccept? || step.DeliverInform?
    modifies px
    ensures Holds(px, Apply(st, step))
  {
    StepKeepsValid(st, step);
    hide Prepare, Accept, Inform;
    if step.DeliverPrepare? {
      var _ := PrepareAt(px, step.a, step.prepareArgs);
    } else if step.DeliverAccept? {
      var _ := AcceptAt(px, step.a, step.acceptArgs);
    } else {
      InformAt(px, step.a, step.informArgs);
    }
  }

  /** Calls that an application makes on its own node. */
  method Call(px: seq<Paxos>, st: State, step: Step)
    requires Holds(px, st) && Enabled(st, step)
    requires step.CallDone? || step.CallStatus? || step.CallMin? || step.Kill?
    modifies px
    ensures Holds(px, Apply(st, step))
  {
    StepKeepsValid(st, step);
    hide Status, Collect;
    var p := step.p;
    if step.CallStatus? {
      var _, _ := StatusAt(px, p, step.slot);
      return;
    }
    ObjectAt(px, p);
    ghost var before := Views(px);
    if step.CallDone? {
      px[p].Done(step.d);
    } else if step.CallMin? {
      var _ := px[p].MinLocked();
    } else {
      px[p].Kill();
    }
    assert Views(px) == before[p := px[p].View()];
  }

  /** What the other proposers do to their own nodes. */
  method Advance(px: seq<Paxos>, st: State, step: Step)
    requires Holds(px, st) && Enabled(st, step)
    requires step.Check? || step.Draw? || step.ClosePrepare? || step.CloseAccept?
    modifies px
    ensures Holds(px, Apply(st, step))
  {
    StepKeepsValid(st, step);
    hide Status, DrawBallot, SetPropCounter, MaxNp, MaxVoteNp, Adopt;
    var pr := st.procs[step.k];
    if step.Check? {
      var _, _ := StatusAt(px, pr.node, pr.slot);
    } else if step.Draw? {
      var _ := OpenPassAt(px, pr.node, pr.slot);
    } else if step.ClosePrepare? {
      if |PromiseSet(pr.phase.promises)| < |px| / 2 + 1 {
        SetPropCounterAt(px, pr.node, MaxNp(pr.phase.promises));
      }
    } else if |VoteSet(pr.phase.votes)| < |px| / 2 + 1 {
      SetPropCounterAt(px, pr.node, MaxVoteNp(pr.phase.votes));
    }
  }

  method Perform(px: seq<Paxos>, st: State, step: Step)
    requires Holds(px, st) && Enabled(st, step)
    modifies px
    ensures Holds(px, Apply(st, step))
  {
    if step.DeliverPrepare? || step.DeliverAccept? || step.DeliverInform? {
      Handle(px, st, step);
    } else if step.CallDone? || step.CallStatus? || step.CallMin? || step.Kill? {
      Call(px, st, step);
    } else if step.Check? || step.Draw? || step.ClosePrepare? || step.CloseAccept? {
      Advance(px, st, step);
    } else {
      StepKeepsValid(st, step);
    }
  }

  /** In any reachable state, no two objects have decided different values for a
      slot. */
  lemma ObjectsAgree(px: seq<Paxos>, n: nat, st: State, a: nat, b: nat, slot: int)
    requires Reach(Init(n), st) && Holds(px, st) && a < |px| && b < |px|
    requires slot in px[a].instances && px[a].instances[slot].fate.Decided?
    requires slot in px[b].instances && px[b].instances[slot].fate.Decided?
    ensures px[a].instances[slot].decided == px[b].instances[slot].decided
  {
    ObjectAt(px, a);
    ObjectAt(px, b);
    ReachedIsSound(n, st);
    DecidedWasInformed(st, a, slot, px[a].instances[slot].decided);
    DecidedWasInformed(st, b, slot, px[b].instances[slot].decided);
  }

  // --- Interference ---

  /** While goroutine k waits, the others make these moves, as far as they can. */
  method Meddle(px: seq<Paxos>, k: nat, moves: seq<Step>, st: State) returns (st': State)
    requires Holds(px, st) && k < |st.procs|
    modifies px
    ensures Holds(px, st') && Reach(st, st') && Elsewhere(st, st', k)
    ensures moves == [] ==> st' == st
  {
    ReachSelf(st);
    st' := st;
    var i := 0;
    while i < |moves|
      invariant i <= |moves|
      invariant Holds(px, st') && Reach(st, st') && Elsewhere(st, st', k)
      invariant moves == [] ==> st' == st
    {
      var move := moves[i];
      if !TakenBy(move, k) && Enabled(st', move) {
        StepElsewhere(st', move, k);
        ReachThen(st, st', move);
        Perform(px, st', move);
        st' := Apply(st', move);
      }
      i := i + 1;
    }
  }
}
