/** The whole cluster: every node's memory, every running `propose` goroutine,
    and every message ever sent. A run is any interleaving of steps.

    Messages stay in the network for ever, so a delivery may be late, repeated
    or out of order, and it is lost when no step ever uses it. Replies are kept
    with the arguments they answer, as one RPC call pairs them. */
module PaxosProtocol {
  import opened PaxosNode

  datatype PrepareExchange = PrepareExchange(args: PrepareArgs, reply: PrepareReply)
  datatype AcceptExchange = AcceptExchange(args: AcceptArgs, reply: AcceptReply)

  /** Where a `propose` goroutine stands in its loop. `replies[p]` is what the
      call to peer p left in the reply struct; its length is the loop index. */
  datatype Phase =
    | Top
    | Cleared
    | Preparing(prepareArgs: PrepareArgs, promises: seq<PrepareReply>)
    | Accepting(acceptArgs: AcceptArgs, votes: seq<AcceptReply>)
    | Informing(informArgs: InformArgs)
    | Returned

  datatype Proposer = Proposer(node: nat, slot: int, v: Any, phase: Phase)

  /** `marks[p]` is the largest value ever passed to Done on node p, or -1. */
  datatype State = State(
    nodes: seq<Node>,
    procs: seq<Proposer>,
    prepares: set<PrepareArgs>,
    promises: set<PrepareExchange>,
    accepts: set<AcceptArgs>,
    votes: set<AcceptExchange>,
    informs: set<InformArgs>,
    marks: seq<int>)

  function Init(n: nat): State {
    State(seq(n, i requires 0 <= i < n => InitNode(i, n)), [], {}, {}, {}, {}, {}, seq(n, i => -1))
  }

  // --- What the proposer reads off its replies ---

  function PromiseSet(rs: seq<PrepareReply>): set<nat> {
    set i: nat | i < |rs| && rs[i].reply.OK?
  }

  function VoteSet(rs: seq<AcceptReply>): set<nat> {
    set i: nat | i < |rs| && rs[i].reply.OK?
  }

  /** `highestN_a, v_adopted` after the loop over these replies. */
  function Highest(rs: seq<PrepareReply>): (int, Any) {
    if rs == [] then (0, Nil)
    else
      var best := Highest(rs[..|rs| - 1]);
      var r := rs[|rs| - 1];
      if r.reply.OK? && r.na > best.0 then (r.na, r.va) else best
  }

  /** `maxNpSeen` after the Phase 1 loop over these replies. */
  function MaxNp(rs: seq<PrepareReply>): (m: nat) {
    if rs == [] then 0
    else
      var m := MaxNp(rs[..|rs| - 1]);
      var r := rs[|rs| - 1];
      if !r.reply.OK? && r.np > m then r.np else m
  }

  /** `maxNpSeen` after the Phase 2 loop over these replies. */
  function MaxVoteNp(rs: seq<AcceptReply>): (m: nat) {
    if rs == [] then 0
    else
      var m := MaxVoteNp(rs[..|rs| - 1]);
      var r := rs[|rs| - 1];
      if !r.reply.OK? && r.np > m then r.np else m
  }

  function Adopt(rs: seq<PrepareReply>, own: Any): Any {
    var adopted := Highest(rs).1;
    if adopted != Nil then adopted else own
  }

  // --- Steps ---

  datatype Step =
    | Start(p: nat, slot: int, v: Any)
    | Check(k: nat)
    | Draw(k: nat)
    | DeliverPrepare(a: nat, prepareArgs: PrepareArgs)
    | HearPrepare(k: nat, promise: PrepareReply)
    | ClosePrepare(k: nat)
    | DeliverAccept(a: nat, acceptArgs: AcceptArgs)
    | HearAccept(k: nat, vote: AcceptReply)
    | CloseAccept(k: nat)
    | DeliverInform(a: nat, informArgs: InformArgs)
    | CloseInform(k: nat)
    | CallDone(p: nat, d: int)
    | CallStatus(p: nat, slot: int)
    | CallMin(p: nat)
    | Kill(p: nat)

  /** Node i is peer i, and all nodes have the same peers. */
  ghost predicate Cluster(nodes: seq<Node>) {
    forall i :: 0 <= i < |nodes| ==> nodes[i].Valid() && nodes[i].me == i && nodes[i].peers == |nodes|
  }

  ghost predicate Valid(st: State) {
    && |st.marks| == |st.nodes|
    && Cluster(st.nodes)
    && (forall k :: 0 <= k < |st.procs| ==> st.procs[k].node < |st.nodes|)
  }

  predicate At(st: State, k: nat) { k < |st.procs| }

  /** Start is called with a non-nil value, and, once a node has called Done(d),
      it neither starts nor is still running a propose for a slot <= d. */
  predicate Enabled(st: State, step: Step)
    requires Valid(st)
  {
    var n := |st.nodes|;
    match step
    case Start(p, slot, v) => p < n && v != Nil && slot > st.marks[p]
    case Check(k) => At(st, k) && st.procs[k].phase.Top?
    case Draw(k) => At(st, k) && st.procs[k].phase.Cleared?
    case DeliverPrepare(a, args) => a < n && args in st.prepares && args.sender < n
    case HearPrepare(k, r) =>
      && At(st, k)
      && st.procs[k].phase.Preparing?
      && var Preparing(args, rs) := st.procs[k].phase;
         |rs| < n && (r == NO_PROMISE || (r.sender == |rs| && PrepareExchange(args, r) in st.promises))
    case ClosePrepare(k) => At(st, k) && st.procs[k].phase.Preparing? && |st.procs[k].phase.promises| == n
    case DeliverAccept(a, args) => a < n && args in st.accepts && args.sender < n
    case HearAccept(k, r) =>
      && At(st, k)
      && st.procs[k].phase.Accepting?
      && var Accepting(args, rs) := st.procs[k].phase;
         |rs| < n && (r == NO_VOTE || (r.sender == |rs| && AcceptExchange(args, r) in st.votes))
    case CloseAccept(k) => At(st, k) && st.procs[k].phase.Accepting? && |st.procs[k].phase.votes| == n
    case DeliverInform(a, args) => a < n && args in st.informs && args.sender < n
    case CloseInform(k) => At(st, k) && st.procs[k].phase.Informing?
    case CallDone(p, d) =>
      && p < n
      && forall k: nat :: k < |st.procs| && st.procs[k].node == p && st.procs[k].slot <= d
                          ==> st.procs[k].phase.Returned?
    case CallStatus(p, slot) => p < n
    case CallMin(p) => p < n
    case Kill(p) => p < n
  }

  function SetNode(st: State, p: nat, nd: Node): State
    requires p < |st.nodes|
  {
    st.(nodes := st.nodes[p := nd])
  }

  function SetPhase(st: State, k: nat, ph: Phase): State
    requires k < |st.procs|
  {
    st.(procs := st.procs[k := st.procs[k].(phase := ph)])
  }

  function Apply(st: State, step: Step): State
    requires Valid(st) && Enabled(st, step)
  {
    var n := |st.nodes|;
    match step
    case Start(p, slot, v) => st.(procs := st.procs + [Proposer(p, slot, v, Top)])
    case Check(k) => ApplyCheck(st, k)
    case Draw(k) => ApplyDraw(st, k)
    case DeliverPrepare(a, args) =>
      var (nd, r) := Prepare(st.nodes[a], args);
      SetNode(st, a, nd).(promises := st.promises + {PrepareExchange(args, r)})
    case HearPrepare(k, r) =>
      var Preparing(args, rs) := st.procs[k].phase;
      SetPhase(st, k, Preparing(args, rs + [r]))
    case ClosePrepare(k) => ApplyClosePrepare(st, k)
    case DeliverAccept(a, args) =>
      var (nd, r) := Accept(st.nodes[a], args);
      SetNode(st, a, nd).(votes := st.votes + {AcceptExchange(args, r)})
    case HearAccept(k, r) =>
      var Accepting(args, rs) := st.procs[k].phase;
      SetPhase(st, k, Accepting(args, rs + [r]))
    case CloseAccept(k) => ApplyCloseAccept(st, k)
    case DeliverInform(a, args) => SetNode(st, a, Inform(st.nodes[a], args).0)
    case CloseInform(k) => SetPhase(st, k, Returned)
    case CallDone(p, d) =>
      SetNode(st, p, Done(st.nodes[p], d)).(marks := st.marks[p := Max(st.marks[p], d)])
    case CallStatus(p, slot) => SetNode(st, p, Status(st.nodes[p], slot).0)
    case CallMin(p) => SetNode(st, p, Collect(st.nodes[p]))
    case Kill(p) => SetNode(st, p, st.nodes[p].(dead := true))
  }

  function Max(a: int, b: int): int { if a > b then a else b }

  /** Loop top: leave when decided, forgotten or dead. */
  function ApplyCheck(st: State, k: nat): State
    requires Valid(st) && k < |st.procs|
  {
    var pr := st.procs[k];
    var (nd, fate, _) := Status(st.nodes[pr.node], pr.slot);
    SetPhase(SetNode(st, pr.node, nd), k,
             if fate.Decided? || fate.Forgotten? || nd.dead then Returned else Cleared)
  }

  function ApplyDraw(st: State, k: nat): State
    requires Valid(st) && k < |st.procs|
  {
    var pr := st.procs[k];
    var nd := st.nodes[pr.node];
    var args := PrepareArgs(pr.slot, NextBallot(nd), nd.me, nd.done[nd.me]);
    SetPhase(SetNode(st, pr.node, DrawBallot(nd)), k, Preparing(args, []))
      .(prepares := st.prepares + {args})
  }

  function ApplyClosePrepare(st: State, k: nat): State
    requires Valid(st) && k < |st.procs| && st.procs[k].phase.Preparing?
  {
    var pr := st.procs[k];
    var Preparing(m, rs) := pr.phase;
    var nd := st.nodes[pr.node];
    if |PromiseSet(rs)| < |st.nodes| / 2 + 1 then
      SetPhase(SetNode(st, pr.node, SetPropCounter(nd, MaxNp(rs))), k, Top)
    else
      var args := AcceptArgs(pr.slot, m.ballot, Adopt(rs, pr.v), nd.me, nd.done[nd.me]);
      SetPhase(st, k, Accepting(args, [])).(accepts := st.accepts + {args})
  }

  function ApplyCloseAccept(st: State, k: nat): State
    requires Valid(st) && k < |st.procs| && st.procs[k].phase.Accepting?
  {
    var pr := st.procs[k];
    var Accepting(m, rs) := pr.phase;
    var nd := st.nodes[pr.node];
    if |VoteSet(rs)| < |st.nodes| / 2 + 1 then
      SetPhase(SetNode(st, pr.node, SetPropCounter(nd, MaxVoteNp(rs))), k, Top)
    else
      var args := InformArgs(pr.slot, m.value, nd.me, nd.done[nd.me]);
      SetPhase(st, k, Informing(args)).(informs := st.informs + {args})
  }

  // --- Runs ---

  ghost predicate Allowed(st: State, steps: seq<Step>)
    decreases |steps|
  {
    steps == [] ||
    (Valid(st) && Enabled(st, steps[0]) && Allowed(Apply(st, steps[0]), steps[1..]))
  }

  ghost function Exec(st: State, steps: seq<Step>): State
    requires Allowed(st, steps)
    decreases |steps|
  {
    if steps == [] then st else Exec(Apply(st, steps[0]), steps[1..])
  }
}
