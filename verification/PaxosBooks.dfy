/** Every step keeps the bookkeeping part of the invariant: ballots stay unique
    and rising, recorded replies stay genuine, recorded watermarks stay below
    what was passed to Done. Each step is a few small edits of the state. */
module PaxosBooks {
  import opened PaxosNode
  import opened PaxosProtocol
  import opened PaxosInvariant

  // --- Edits ---

  ghost predicate Succeeds(st: State, p: nat, nd: Node)
    requires Valid(st) && p < |st.nodes|
  {
    && nd.Valid() && nd.me == p && nd.peers == |st.nodes|
    && NextBallot(nd) >= NextBallot(st.nodes[p])
    && (forall q: nat :: q < |st.nodes| ==> nd.done[q] <= st.marks[q])
  }

  lemma EditNode(st: State, p: nat, nd: Node)
    requires Books(st) && p < |st.nodes| && Succeeds(st, p, nd)
    ensures Books(SetNode(st, p, nd))
  {
    var st' := SetNode(st, p, nd);
    assert forall b :: Drawn(st.nodes, b) ==> Drawn(st'.nodes, b);
  }

  lemma EditPhase(st: State, k: nat, ph: Phase)
    requires Books(st) && k < |st.procs|
    requires ProcOk(st, st.procs[k].(phase := ph))
    requires ph.Preparing? ==> forall j :: 0 <= j < |st.procs| && j != k && st.procs[j].phase.Preparing? ==>
      st.procs[j].phase.prepareArgs.ballot != ph.prepareArgs.ballot
    ensures Books(SetPhase(st, k, ph))
  {
  }

  lemma AddPrepare(st: State, m: PrepareArgs)
    requires Books(st)
    requires m.sender < |st.nodes| && Drawn(st.nodes, m.ballot) && m.ballot % |st.nodes| == m.sender
    requires m.done <= st.marks[m.sender]
    requires forall m' :: m' in st.prepares ==> m'.ballot != m.ballot
    ensures Books(st.(prepares := st.prepares + {m}))
  {
  }

  lemma AddAccept(st: State, m: AcceptArgs)
    requires Books(st)
    requires m.sender < |st.nodes| && Drawn(st.nodes, m.ballot)
    requires m.done <= st.marks[m.sender]
    requires BallotFree(st.accepts, m.ballot)
    requires forall k :: 0 <= k < |st.procs| && st.procs[k].phase.Preparing? ==>
      st.procs[k].phase.prepareArgs.ballot != m.ballot
    ensures Books(st.(accepts := st.accepts + {m}))
  {
  }

  lemma AddPromise(st: State, e: PrepareExchange)
    requires Books(st) && e.args in st.prepares && e.reply.sender < |st.nodes|
    ensures Books(st.(promises := st.promises + {e}))
  {
  }

  lemma AddVote(st: State, e: AcceptExchange)
    requires Books(st) && e.args in st.accepts && e.reply.sender < |st.nodes|
    ensures Books(st.(votes := st.votes + {e}))
  {
  }

  // --- Steps ---

  lemma KeepStart(st: State, p: nat, slot: int, v: Any)
    requires Books(st) && Enabled(st, Start(p, slot, v))
    ensures Books(Apply(st, Start(p, slot, v)))
  {
  }

  lemma KeepCheck(st: State, k: nat)
    requires Books(st) && Enabled(st, Check(k))
    ensures Books(Apply(st, Check(k)))
  {
    var pr := st.procs[k];
    StatusFrame(st.nodes[pr.node], pr.slot);
    var (nd, fate, _) := Status(st.nodes[pr.node], pr.slot);
    EditNode(st, pr.node, nd);
    EditPhase(SetNode(st, pr.node, nd), k,
              if fate.Decided? || fate.Forgotten? || nd.dead then Returned else Cleared);
  }

  /** The ballot a node draws next was never sent before, by anyone. */
  lemma NextIsFresh(st: State, p: nat)
    requires Books(st) && p < |st.nodes|
    ensures forall m :: m in st.prepares ==> m.ballot != NextBallot(st.nodes[p])
    ensures BallotFree(st.accepts, NextBallot(st.nodes[p]))
  {
    BallotOwner(st.nodes[p]);
    assert !Drawn(st.nodes, NextBallot(st.nodes[p]));
  }

  lemma KeepDraw(st: State, k: nat)
    requires Books(st) && Enabled(st, Draw(k))
    ensures Books(Apply(st, Draw(k)))
  {
    var pr := st.procs[k];
    var nd := st.nodes[pr.node];
    DrawAdvances(nd);
    BallotOwner(nd);
    NextIsFresh(st, pr.node);
    var m := PrepareArgs(pr.slot, NextBallot(nd), nd.me, nd.done[nd.me]);
    var st1 := SetNode(st, pr.node, DrawBallot(nd));
    hide Unique, Lineage, Counters;
    EditNode(st, pr.node, DrawBallot(nd));
    AddPrepare(st1, m);
    EditPhase(st1.(prepares := st1.prepares + {m}), k, Preparing(m, []));
  }

  lemma KeepDeliverPrepare(st: State, a: nat, m: PrepareArgs)
    requires Books(st) && Enabled(st, DeliverPrepare(a, m))
    ensures Books(Apply(st, DeliverPrepare(a, m)))
  {
    var (nd, r) := Prepare(st.nodes[a], m);
    PrepareFrame(st.nodes[a], m);
    EditNode(st, a, nd);
    AddPromise(SetNode(st, a, nd), PrepareExchange(m, r));
  }

  lemma KeepHearPrepare(st: State, k: nat, r: PrepareReply)
    requires Books(st) && Enabled(st, HearPrepare(k, r))
    ensures Books(Apply(st, HearPrepare(k, r)))
  {
    var Preparing(m, rs) := st.procs[k].phase;
    EditPhase(st, k, Preparing(m, rs + [r]));
  }

  lemma KeepLosingPass(st: State, k: nat, seen: nat)
    requires Books(st) && k < |st.procs| && !st.procs[k].phase.Returned?
    ensures var p := st.procs[k].node;
            Books(SetPhase(SetNode(st, p, SetPropCounter(st.nodes[p], seen)), k, Top))
  {
    var p := st.procs[k].node;
    var nd := SetPropCounter(st.nodes[p], seen);
    JumpExceeds(st.nodes[p], seen);
    EditNode(st, p, nd);
    EditPhase(SetNode(st, p, nd), k, Top);
  }

  /** The proposer leaves Preparing as its accept request goes out, so a ballot
      carries at most one accept request. */
  lemma KeepWinningPrepare(st: State, k: nat, acc: AcceptArgs)
    requires Books(st) && k < |st.procs| && st.procs[k].phase.Preparing?
    requires acc.slot == st.procs[k].slot && acc.ballot == st.procs[k].phase.prepareArgs.ballot
    requires acc.sender == st.procs[k].node && acc.done == st.nodes[acc.sender].done[acc.sender]
    ensures Books(SetPhase(st, k, Accepting(acc, [])).(accepts := st.accepts + {acc}))
  {
    EditPhase(st, k, Cleared);
    var st1 := SetPhase(st, k, Cleared);
    AddAccept(st1, acc);
    var st2 := st1.(accepts := st1.accepts + {acc});
    EditPhase(st2, k, Accepting(acc, []));
    assert SetPhase(st2, k, Accepting(acc, [])) ==
           SetPhase(st, k, Accepting(acc, [])).(accepts := st.accepts + {acc});
  }

  lemma KeepClosePrepare(st: State, k: nat)
    requires Books(st) && Enabled(st, ClosePrepare(k))
    ensures Books(Apply(st, ClosePrepare(k)))
  {
    var pr := st.procs[k];
    var Preparing(m, rs) := pr.phase;
    var nd := st.nodes[pr.node];
    if |PromiseSet(rs)| < |st.nodes| / 2 + 1 {
      KeepLosingPass(st, k, MaxNp(rs));
    } else {
      KeepWinningPrepare(st, k, AcceptArgs(pr.slot, m.ballot, Adopt(rs, pr.v), nd.me, nd.done[nd.me]));
    }
  }

  lemma KeepDeliverAccept(st: State, a: nat, m: AcceptArgs)
    requires Books(st) && Enabled(st, DeliverAccept(a, m))
    ensures Books(Apply(st, DeliverAccept(a, m)))
  {
    var (nd, r) := Accept(st.nodes[a], m);
    AcceptFrame(st.nodes[a], m);
    EditNode(st, a, nd);
    AddVote(SetNode(st, a, nd), AcceptExchange(m, r));
  }

  lemma KeepHearAccept(st: State, k: nat, r: AcceptReply)
    requires Books(st) && Enabled(st, HearAccept(k, r))
    ensures Books(Apply(st, HearAccept(k, r)))
  {
    var Accepting(m, rs) := st.procs[k].phase;
    EditPhase(st, k, Accepting(m, rs + [r]));
  }

  lemma KeepWinningAccept(st: State, k: nat, inf: InformArgs)
    requires Books(st) && k < |st.procs| && !st.procs[k].phase.Returned?
    requires inf.sender == st.procs[k].node && inf.done == st.nodes[inf.sender].done[inf.sender]
    ensures Books(SetPhase(st, k, Informing(inf)).(informs := st.informs + {inf}))
  {
    EditPhase(st, k, Informing(inf));
  }

  lemma KeepCloseAccept(st: State, k: nat)
    requires Books(st) && Enabled(st, CloseAccept(k))
    ensures Books(Apply(st, CloseAccept(k)))
  {
    var pr := st.procs[k];
    var Accepting(m, rs) := pr.phase;
    var nd := st.nodes[pr.node];
    if |VoteSet(rs)| < |st.nodes| / 2 + 1 {
      KeepLosingPass(st, k, MaxVoteNp(rs));
    } else {
      KeepWinningAccept(st, k, InformArgs(pr.slot, m.value, nd.me, nd.done[nd.me]));
    }
  }

  lemma KeepDeliverInform(st: State, a: nat, m: InformArgs)
    requires Books(st) && Enabled(st, DeliverInform(a, m))
    ensures Books(Apply(st, DeliverInform(a, m)))
  {
    EditNode(st, a, Inform(st.nodes[a], m).0);
  }

  /** No proposer of this node still runs for a slot that the mark passes. */
  lemma RaiseMark(st: State, p: nat, d: int)
    requires Books(st) && Enabled(st, CallDone(p, d))
    ensures Books(st.(marks := st.marks[p := Max(st.marks[p], d)]))
  {
    hide Counters, Unique, Lineage;
  }

  lemma KeepCallDone(st: State, p: nat, d: int)
    requires Books(st) && Enabled(st, CallDone(p, d))
    ensures Books(Apply(st, CallDone(p, d)))
  {
    RaiseMark(st, p, d);
    var st1 := st.(marks := st.marks[p := Max(st.marks[p], d)]);
    EditNode(st1, p, Done(st1.nodes[p], d));
    hide Books;
  }

  lemma KeepRest(st: State, step: Step)
    requires Books(st) && Enabled(st, step)
    requires step.CloseInform? || step.CallStatus? || step.CallMin? || step.Kill?
    ensures Books(Apply(st, step))
  {
    match step
    case CloseInform(k) => EditPhase(st, k, Returned);
    case CallStatus(p, slot) =>
      StatusFrame(st.nodes[p], slot);
      EditNode(st, p, Status(st.nodes[p], slot).0);
    case CallMin(p) => EditNode(st, p, Collect(st.nodes[p]));
    case Kill(p) => EditNode(st, p, st.nodes[p].(dead := true));
  }

  lemma KeepBooks(st: State, step: Step)
    requires Books(st) && Enabled(st, step)
    ensures Books(Apply(st, step))
  {
    hide Apply;
    match step
    case Start(p, slot, v) => KeepStart(st, p, slot, v);
    case Check(k) => KeepCheck(st, k);
    case Draw(k) => KeepDraw(st, k);
    case DeliverPrepare(a, m) => KeepDeliverPrepare(st, a, m);
    case HearPrepare(k, r) => KeepHearPrepare(st, k, r);
    case ClosePrepare(k) => KeepClosePrepare(st, k);
    case DeliverAccept(a, m) => KeepDeliverAccept(st, a, m);
    case HearAccept(k, r) => KeepHearAccept(st, k, r);
    case CloseAccept(k) => KeepCloseAccept(st, k);
    case DeliverInform(a, m) => KeepDeliverInform(st, a, m);
    case CallDone(p, d) => KeepCallDone(st, p, d);
    case _ => KeepRest(st, step);
  }
}
