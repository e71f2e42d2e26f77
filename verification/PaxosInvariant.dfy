/** What every step of the cluster keeps.

    Bookkeeping (ballots, watermarks, who sent what) holds for every slot. The
    safety argument proper, `Safe`, holds for the slots that are still live,
    that is, that some node has not yet given up with Done. Nobody proposes for
    a slot that is no longer live, so what was ever informed there is frozen. */
module PaxosInvariant {
  import opened PaxosNode
  import opened PaxosProtocol

  /** Some node may still propose for this slot. */
  ghost predicate Live(st: State, slot: int) {
    exists p :: 0 <= p < |st.marks| && st.marks[p] < slot
  }

  // --- Bookkeeping ---

  ghost predicate Drawn(nodes: seq<Node>, ballot: int) {
    |nodes| > 0 && 0 <= ballot < NextBallot(nodes[ballot % |nodes|])
  }

  ghost predicate Counters(nodes: seq<Node>, prepares: set<PrepareArgs>, accepts: set<AcceptArgs>,
                           informs: set<InformArgs>)
  {
    && (forall m :: m in prepares ==>
          m.sender < |nodes| && Drawn(nodes, m.ballot) && m.ballot % |nodes| == m.sender)
    && (forall m :: m in accepts ==> m.sender < |nodes| && Drawn(nodes, m.ballot))
    && (forall m :: m in informs ==> m.sender < |nodes|)
  }

  ghost predicate Unique(prepares: set<PrepareArgs>, accepts: set<AcceptArgs>) {
    && (forall m, m' :: m in prepares && m' in prepares && m.ballot == m'.ballot ==> m == m')
    && (forall m, m' :: m in accepts && m' in accepts && m.ballot == m'.ballot ==> m == m')
  }

  ghost predicate Lineage(n: nat, prepares: set<PrepareArgs>, promises: set<PrepareExchange>,
                          accepts: set<AcceptArgs>, votes: set<AcceptExchange>)
  {
    && (forall e :: e in promises ==> e.args in prepares && e.reply.sender < n)
    && (forall e :: e in votes ==> e.args in accepts && e.reply.sender < n)
  }

  ghost predicate Marks(nodes: seq<Node>, marks: seq<int>, prepares: set<PrepareArgs>,
                        accepts: set<AcceptArgs>, informs: set<InformArgs>)
    requires Cluster(nodes) && |marks| == |nodes|
  {
    && (forall p :: 0 <= p < |marks| ==> marks[p] >= -1)
    && (forall a, p: nat :: 0 <= a < |nodes| && p < |nodes| ==> nodes[a].done[p] <= marks[p])
    && (forall m :: m in prepares && m.sender < |nodes| ==> m.done <= marks[m.sender])
    && (forall m :: m in accepts && m.sender < |nodes| ==> m.done <= marks[m.sender])
    && (forall m :: m in informs && m.sender < |nodes| ==> m.done <= marks[m.sender])
  }

  /** Each recorded reply is empty or is what that peer really answered. */
  ghost predicate HeardPromises(promises: set<PrepareExchange>, args: PrepareArgs, rs: seq<PrepareReply>) {
    forall i :: 0 <= i < |rs| ==>
      rs[i] == NO_PROMISE || (rs[i].sender == i && PrepareExchange(args, rs[i]) in promises)
  }

  ghost predicate HeardVotes(votes: set<AcceptExchange>, args: AcceptArgs, rs: seq<AcceptReply>) {
    forall i :: 0 <= i < |rs| ==>
      rs[i] == NO_VOTE || (rs[i].sender == i && AcceptExchange(args, rs[i]) in votes)
  }

  ghost predicate BallotFree(accepts: set<AcceptArgs>, ballot: int) {
    forall m :: m in accepts ==> m.ballot != ballot
  }

  ghost predicate ProcOk(st: State, pr: Proposer)
    requires Valid(st) && pr.node < |st.nodes|
  {
    && pr.v != Nil
    && (!pr.phase.Returned? ==> pr.slot > st.marks[pr.node])
    && match pr.phase
       case Preparing(m, rs) =>
         && m in st.prepares && m.slot == pr.slot && m.sender == pr.node
         && |rs| <= |st.nodes|
         && HeardPromises(st.promises, m, rs)
         && BallotFree(st.accepts, m.ballot)
       case Accepting(m, rs) =>
         && m in st.accepts && m.slot == pr.slot
         && |rs| <= |st.nodes|
         && HeardVotes(st.votes, m, rs)
       case _ => true
  }

  ghost predicate Procs(st: State)
    requires Valid(st)
  {
    forall k :: 0 <= k < |st.procs| ==> ProcOk(st, st.procs[k])
  }

  ghost predicate Distinct(procs: seq<Proposer>) {
    forall j, k :: 0 <= j < k < |procs| && procs[j].phase.Preparing? && procs[k].phase.Preparing? ==>
      procs[j].phase.prepareArgs.ballot != procs[k].phase.prepareArgs.ballot
  }

  ghost predicate Books(st: State) {
    && Valid(st)
    && Counters(st.nodes, st.prepares, st.accepts, st.informs)
    && Unique(st.prepares, st.accepts)
    && Lineage(|st.nodes|, st.prepares, st.promises, st.accepts, st.votes)
    && Marks(st.nodes, st.marks, st.prepares, st.accepts, st.informs)
    && Procs(st)
    && Distinct(st.procs)
  }

  // --- Safety of a live slot ---

  ghost predicate IsVote(e: AcceptExchange, slot: int, a: nat, ballot: int, v: Any) {
    && e.reply.reply.OK? && e.reply.sender == a
    && e.args.slot == slot && e.args.ballot == ballot && e.args.value == v
  }

  ghost predicate Voted(votes: set<AcceptExchange>, slot: int, a: nat, ballot: int, v: Any) {
    exists e :: e in votes && IsVote(e, slot, a, ballot, v)
  }

  /** The acceptor's memory summarises all it ever promised and accepted. */
  ghost predicate AcceptorOk(st: State, slot: int, a: nat)
    requires a < |st.nodes|
  {
    var ins := Lookup(st.nodes[a], slot);
    && 0 <= ins.na <= ins.np
    && (ins.na == 0 <==> ins.va == Nil)
    && (ins.na > 0 ==> Voted(st.votes, slot, a, ins.na, ins.va))
    && (forall e :: e in st.promises && e.reply.reply.OK? && e.reply.sender == a && e.args.slot == slot
          ==> e.args.ballot <= ins.np)
    && (forall e :: e in st.votes && e.reply.reply.OK? && e.reply.sender == a && e.args.slot == slot
          ==> 0 < e.args.ballot <= ins.na)
  }

  /** A promise reports the sender's highest vote below the promised ballot,
      and no vote can ever slip in between. */
  ghost predicate PromiseOk(votes: set<AcceptExchange>, e: PrepareExchange) {
    var r := e.reply;
    && 0 <= r.na < e.args.ballot
    && (r.na == 0 <==> r.va == Nil)
    && (r.na > 0 ==> Voted(votes, e.args.slot, r.sender, r.na, r.va))
    && (forall w :: w in votes && w.reply.reply.OK? && w.reply.sender == r.sender && w.args.slot == e.args.slot ==>
          w.args.ballot < e.args.ballot ==> w.args.ballot <= r.na)
  }

  /** The accept request was built from this majority of promises. */
  ghost predicate Justified(st: State, acc: AcceptArgs, m: PrepareArgs, rs: seq<PrepareReply>, own: Any) {
    && m.ballot == acc.ballot && m.slot == acc.slot
    && |rs| == |st.nodes|
    && HeardPromises(st.promises, m, rs)
    && |PromiseSet(rs)| >= |st.nodes| / 2 + 1
    && acc.value == Adopt(rs, own)
  }

  ghost predicate Grounded(st: State, acc: AcceptArgs) {
    exists m, rs, own :: Justified(st, acc, m, rs, own)
  }

  ghost predicate Elected(st: State, slot: int, v: Any, acc: AcceptArgs, rs: seq<AcceptReply>) {
    && acc in st.accepts && acc.slot == slot && acc.value == v
    && |rs| == |st.nodes|
    && HeardVotes(st.votes, acc, rs)
    && |VoteSet(rs)| >= |st.nodes| / 2 + 1
  }

  ghost predicate Won(st: State, slot: int, v: Any) {
    exists acc, rs :: Elected(st, slot, v, acc, rs)
  }

  ghost predicate Safe(st: State, slot: int) {
    && (forall a: nat :: a < |st.nodes| ==> AcceptorOk(st, slot, a))
    && (forall e :: e in st.promises && e.reply.reply.OK? && e.args.slot == slot ==> PromiseOk(st.votes, e))
    && (forall m :: m in st.accepts && m.slot == slot ==> Grounded(st, m))
    && (forall m :: m in st.informs && m.slot == slot ==> Won(st, slot, m.value))
  }

  ghost predicate AllSafe(st: State) {
    forall slot :: Live(st, slot) ==> Safe(st, slot)
  }

  // --- Outcome of every slot, live or not ---

  ghost predicate Proposed(procs: seq<Proposer>, slot: int, v: Any) {
    exists k :: 0 <= k < |procs| && procs[k].slot == slot && procs[k].v == v
  }

  ghost predicate Proposals(st: State) {
    && (forall m :: m in st.accepts ==> m.value != Nil && Proposed(st.procs, m.slot, m.value))
    && (forall m :: m in st.informs ==> m.value != Nil && Proposed(st.procs, m.slot, m.value))
  }

  ghost predicate Informed(st: State, slot: int, v: Any) {
    exists m :: m in st.informs && m.slot == slot && m.value == v
  }

  ghost predicate Decisions(st: State) {
    forall a, slot :: 0 <= a < |st.nodes| && slot in st.nodes[a].instances ==>
      var ins := st.nodes[a].instances[slot];
      match ins.fate
      case Decided => Informed(st, slot, ins.decided)
      case Pending => ins.decided == Nil
      case Forgotten => false
  }

  ghost predicate Agreed(st: State) {
    forall m, m' :: m in st.informs && m' in st.informs && m.slot == m'.slot ==> m.value == m'.value
  }

  ghost predicate Inv(st: State) {
    Books(st) && AllSafe(st) && Proposals(st) && Decisions(st) && Agreed(st)
  }
}
