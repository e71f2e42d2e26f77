/** What a node's answers and records mean, told from what it was told before: the
    exact effect of every message, when a slot reads as decided, pending or
    forgotten, when a `propose` gives up at once, and how watermarks travel. */
module PaxosLaws {
  import opened PaxosNode
  import opened PaxosProtocol
  import opened PaxosPass

  // --- Messages ---

  ghost predicate SameSlot(nd: Node, nd': Node, slot: int) { Lookup(nd', slot) == Lookup(nd, slot) }

  /** All that a message to one slot leaves alone, except the sender's watermark. */
  ghost predicate OnlySlot(nd: Node, nd': Node, slot: int, sender: nat) {
    && nd'.me == nd.me && nd'.peers == nd.peers && nd'.propCounter == nd.propCounter && nd'.dead == nd.dead
    && (forall s :: s != slot ==> (s in nd'.instances <==> s in nd.instances) && SameSlot(nd, nd', s))
    && (forall p: nat :: p != sender ==> (p in nd'.done <==> p in nd.done))
    && (forall p: nat :: p != sender && p in nd.done && p in nd'.done ==> nd'.done[p] == nd.done[p])
  }

  /** A promise is given exactly for a ballot above all promised before, and reports
      the last vote; a refusal reports the promise in its way. Votes and decisions
      stay as they are. */
  lemma PromiseExactly(nd: Node, m: PrepareArgs)
    requires nd.Valid() && m.sender < nd.peers
    ensures var (nd', r) := Prepare(nd, m); var was, now := Lookup(nd, m.slot), Lookup(nd', m.slot);
            && OnlySlot(nd, nd', m.slot, m.sender) && nd'.done[m.sender] == m.done
            && (r.reply.OK? <==> was.np < m.ballot) && (r.reply.Reject? <==> m.ballot <= was.np)
            && now.np == Max(was.np, m.ballot)
            && now.na == was.na && now.va == was.va && now.fate == was.fate && now.decided == was.decided
            && (r.reply.OK? ==> r.na == was.na && r.va == was.va)
            && (r.reply.Reject? ==> r.np == was.np)
            && r.sender == nd.me && r.done == nd'.done[nd.me]
  {
  }

  /** A vote is given exactly for a ballot not below any promised one, promised itself
      or not. */
  lemma VoteExactly(nd: Node, m: AcceptArgs)
    requires nd.Valid() && m.sender < nd.peers
    ensures var (nd', r) := Accept(nd, m); var was, now := Lookup(nd, m.slot), Lookup(nd', m.slot);
            && OnlySlot(nd, nd', m.slot, m.sender) && nd'.done[m.sender] == m.done
            && (r.reply.OK? <==> was.np <= m.ballot) && (r.reply.Reject? <==> m.ballot < was.np)
            && now.np == Max(was.np, m.ballot) && now.fate == was.fate && now.decided == was.decided
            && (r.reply.OK? ==> now.na == m.ballot && now.va == m.value)
            && (r.reply.Reject? ==> r.np == was.np && now.na == was.na && now.va == was.va)
            && r.sender == nd.me && r.done == nd'.done[nd.me]
  {
  }

  lemma InformExactly(nd: Node, m: InformArgs)
    requires nd.Valid() && m.sender < nd.peers
    ensures var (nd', r) := Inform(nd, m); var was, now := Lookup(nd, m.slot), Lookup(nd', m.slot);
            && OnlySlot(nd, nd', m.slot, m.sender) && nd'.done[m.sender] == m.done
            && now.fate.Decided? && now.decided == m.value
            && now.np == was.np && now.na == was.na && now.va == was.va
            && r.reply.OK? && r.sender == nd.me && r.done == nd'.done[nd.me]
  {
  }

  /** Done moves the node's own watermark to the slot, unless it is there or beyond,
      and nothing else. */
  lemma DoneExactly(nd: Node, slot: int)
    requires nd.Valid()
    ensures var nd' := Done(nd, slot);
            && nd'.Valid() && nd'.done[nd.me] == Max(nd.done[nd.me], slot)
            && (forall p: nat :: p < nd.peers && p != nd.me ==> nd'.done[p] == nd.done[p])
            && nd'.me == nd.me && nd'.peers == nd.peers && nd'.instances == nd.instances
            && nd'.propCounter == nd.propCounter && nd'.dead == nd.dead
  {
  }

  // --- Status ---

  /** This node knows of every peer that it is done with the slot. */
  ghost predicate AllDone(nd: Node, slot: int)
    requires nd.Valid()
  {
    slot <= MAX_INT32 && forall p: nat :: p < nd.peers ==> slot <= nd.done[p]
  }

  lemma AllDoneIsBelow(nd: Node, slot: int)
    requires nd.Valid()
    ensures slot <= Watermark(nd) <==> AllDone(nd, slot)
  {
    MinDoneIsMinimum(nd.done, nd.peers);
  }

  /** What Status says, in terms of what the node has been told: forgotten exactly
      when every watermark has passed the slot, and otherwise exactly what the
      instance holds, decided or not. Nothing that matters is lost by asking. */
  lemma StatusExactly(nd: Node, slot: int)
    requires nd.Valid()
    ensures var (nd', fate, value) := Status(nd, slot);
            && (AllDone(nd, slot) ==> fate.Forgotten? && value == Nil)
            && (!AllDone(nd, slot) ==> fate == Lookup(nd, slot).fate && value == Lookup(nd, slot).decided)
            && nd'.done == nd.done && nd'.propCounter == nd.propCounter && nd'.dead == nd.dead
            && (forall s :: AllDone(nd, s) ==> s !in nd'.instances)
            && (forall s :: !AllDone(nd, s) ==> SameSlot(nd, nd', s))
  {
    forall s
      ensures s <= Watermark(nd) <==> AllDone(nd, s)
    {
      AllDoneIsBelow(nd, s);
    }
  }

  /** A decision that has not been given up by every peer is reported. */
  lemma DecisionIsReported(nd: Node, slot: int, v: Any)
    requires nd.Valid() && Lookup(nd, slot).fate.Decided? && Lookup(nd, slot).decided == v
    requires slot > MAX_INT32 || exists p: nat :: p < nd.peers && nd.done[p] < slot
    ensures Status(nd, slot).1.Decided? && Status(nd, slot).2 == v
  {
    hide Status;
    StatusExactly(nd, slot);
  }

  // --- Leaving ---

  /** `propose` returns at the loop top exactly if the slot is decided or given up here,
      or the node is dead; then it sends nothing, draws no ballot and changes no
      instance that still matters. */
  lemma LeavesExactly(nodes: seq<Node>, me: nat, slot: int, v: Any, plan: Plan)
    requires Cluster(nodes) && PlanFor(plan, |nodes|, me)
    requires forall s :: s in nodes[me].instances ==> !nodes[me].instances[s].fate.Forgotten?
    ensures var r := RunPass(nodes, me, slot, v, plan); var nd := nodes[me];
            && (r.outcome.Left? <==> nd.dead || AllDone(nd, slot) || Lookup(nd, slot).fate.Decided?)
            && (r.outcome.Left? ==>
                  && (forall a :: 0 <= a < |nodes| && a != me ==> r.nodes[a] == nodes[a])
                  && r.nodes[me].propCounter == nd.propCounter && r.nodes[me].done == nd.done
                  && (forall s :: !AllDone(nd, s) ==> SameSlot(nd, r.nodes[me], s)))
  {
    hide Status, PhaseOne, AllDone, RunPass;
    StatusExactly(nodes[me], slot);
    LeavingIs(nodes, me, slot, v, plan);
  }

  /** A slot is open to a proposer exactly if its node is up and has neither decided it
      nor heard from everybody that they are done with it. */
  lemma OpenExactly(nd: Node, slot: int)
    requires nd.Valid() && forall s :: s in nd.instances ==> !nd.instances[s].fate.Forgotten?
    ensures Open(nd, slot) <==> !nd.dead && !AllDone(nd, slot) && !Lookup(nd, slot).fate.Decided?
  {
    hide Status, AllDone;
    StatusExactly(nd, slot);
    StatusFrame(nd, slot);
  }

  lemma LeavingIs(nodes: seq<Node>, me: nat, slot: int, v: Any, plan: Plan)
    requires Cluster(nodes) && PlanFor(plan, |nodes|, me)
    ensures var (nd, fate, _) := Status(nodes[me], slot); var r := RunPass(nodes, me, slot, v, plan);
            (r.outcome.Left? <==> Leaves(nd, fate)) && (r.outcome.Left? ==> r.nodes == nodes[me := nd])
  {
  }

  // --- Watermarks travel ---

  /** Node p has told node a its watermark, and nobody's other records changed. */
  ghost predicate Tells(nodes: seq<Node>, nodes': seq<Node>, p: nat, a: nat) {
    && Cluster(nodes) && Cluster(nodes') && |nodes'| == |nodes| && p < |nodes| && a < |nodes|
    && nodes'[a].done[p] == nodes[p].done[p]
    && (forall q: nat :: q < |nodes| && q != p ==> nodes'[a].done[q] == nodes[a].done[q])
    && (forall q: nat :: q < |nodes| ==> nodes'[q].done[q] == nodes[q].done[q])
  }

  /** What one pass can have done to a node's records: nothing, or the proposer's
      watermark. */
  ghost predicate MayHear(nodes: seq<Node>, nodes': seq<Node>, me: nat, w: int) {
    && Cluster(nodes) && Cluster(nodes') && |nodes'| == |nodes| && me < |nodes| && nodes[me].done[me] == w
    && forall a :: 0 <= a < |nodes| ==>
         nodes'[a].done == nodes[a].done || nodes'[a].done == nodes[a].done[me := w]
  }

  lemma InformingTells(nodes: seq<Node>, me: nat, acc: AcceptArgs, plan: Plan)
    requires Cluster(nodes) && PlanFor(plan, |nodes|, me)
    ensures MayHear(nodes, PhaseThree(nodes, me, acc, plan).nodes, me, nodes[me].done[me])
  {
  }

  lemma VotingTells(nodes: seq<Node>, me: nat, acc: AcceptArgs, plan: Plan)
    requires Cluster(nodes) && PlanFor(plan, |nodes|, me) && acc.sender == me && acc.done == nodes[me].done[me]
    ensures MayHear(nodes, PhaseTwo(nodes, me, acc, plan).nodes, me, nodes[me].done[me])
  {
    hide PhaseThree, Accept, MaxVoteNp;
    var nodes' := AcceptNodes(nodes, acc, plan.accept, |nodes|);
    forall a | 0 <= a < |nodes|
      ensures nodes'[a].done == nodes[a].done || nodes'[a].done == nodes[a].done[me := acc.done]
    {
      AcceptHears(nodes[a], acc, plan.accept[a]);
    }
    assert nodes[me].done[me := acc.done] == nodes[me].done;
    InformingTells(nodes', me, acc, plan);
  }

  lemma AcceptHears(nd: Node, acc: AcceptArgs, d: Delivery)
    requires nd.Valid() && acc.sender < nd.peers
    ensures AskAccept(nd, acc, d).0.done == nd.done || AskAccept(nd, acc, d).0.done == nd.done[acc.sender := acc.done]
  {
  }

  lemma PrepareHears(nd: Node, m: PrepareArgs, d: Delivery)
    requires nd.Valid() && m.sender < nd.peers
    ensures AskPrepare(nd, m, d).0.done == if d.Lost? then nd.done else nd.done[m.sender := m.done]
  {
  }

  lemma PreparingTells(nodes: seq<Node>, me: nat, v: Any, m: PrepareArgs, plan: Plan, a: nat)
    requires Cluster(nodes) && PlanFor(plan, |nodes|, me) && m.sender == me && m.done == nodes[me].done[me]
    requires a < |nodes| && !plan.prepare[a].Lost?
    ensures Tells(nodes, PhaseOne(nodes, me, v, m, plan).nodes, me, a)
  {
    hide PhaseTwo, Prepare, MaxNp, Adopt;
    var nodes' := PrepareNodes(nodes, m, plan.prepare, |nodes|);
    forall q | 0 <= q < |nodes|
      ensures nodes'[q].done == if plan.prepare[q].Lost? then nodes[q].done else nodes[q].done[me := m.done]
    {
      PrepareHears(nodes[q], m, plan.prepare[q]);
    }
    assert nodes[me].done[me := m.done] == nodes[me].done;
    var rs := PrepareReplies(nodes, m, plan.prepare, |nodes|);
    VotingTells(nodes', me, AcceptArgs(m.slot, m.ballot, Adopt(rs, v), me, nodes'[me].done[me]), plan);
  }

  /** A pass tells the proposer's watermark to every node that its prepare reaches. */
  lemma PassTells(nodes: seq<Node>, me: nat, slot: int, v: Any, plan: Plan, a: nat)
    requires Cluster(nodes) && PlanFor(plan, |nodes|, me) && a < |nodes| && !plan.prepare[a].Lost?
    requires !RunPass(nodes, me, slot, v, plan).outcome.Left?
    ensures Tells(nodes, RunPass(nodes, me, slot, v, plan).nodes, me, a)
  {
    hide PhaseOne, Status;
    StatusFrame(nodes[me], slot);
    var nd := Status(nodes[me], slot).0;
    PreparingTells(nodes[me := DrawBallot(nd)], me, v, PrepareArgs(slot, NextBallot(nd), me, nd.done[me]), plan, a);
  }

  /** `who[i]` is the node that tells node a in round i. */
  ghost predicate Rounds(rounds: seq<seq<Node>>, who: seq<nat>, a: nat) {
    && |rounds| == |who| + 1 && Cluster(rounds[0])
    && forall i: nat :: i < |who| ==> Tells(rounds[i], rounds[i + 1], who[i], a)
  }

  lemma {:induction false} RoundKeeps(rounds: seq<seq<Node>>, who: seq<nat>, a: nat, k: nat, q: nat)
    requires Rounds(rounds, who, a) && k <= |who| && q < |rounds[0]|
    ensures |rounds[k]| == |rounds[0]| && Cluster(rounds[k])
    ensures rounds[k][q].done[q] == rounds[0][q].done[q]
    ensures a < |rounds[0]| && q in who[..k] ==> rounds[k][a].done[q] == rounds[0][q].done[q]
  {
    if k > 0 {
      RoundKeeps(rounds, who, a, k - 1, q);
      assert Tells(rounds[k - 1], rounds[k], who[k - 1], a);
      assert who[..k] == who[..k - 1] + [who[k - 1]];
    }
  }

  /** Forgetting happens: once every node has called Done at or above a slot and has
      afterwards told node a, in any order and any number of times, Status on node a
      says Forgotten for that slot. */
  lemma RoundForgets(rounds: seq<seq<Node>>, who: seq<nat>, a: nat, slot: int)
    requires Rounds(rounds, who, a) && slot <= MAX_INT32 && a < |rounds[0]|
    requires forall q: nat :: q < |rounds[0]| ==> q in who && rounds[0][q].done[q] >= slot
    ensures |rounds[|who|]| == |rounds[0]| && Cluster(rounds[|who|])
    ensures Status(rounds[|who|][a], slot).1.Forgotten?
  {
    var k := |who|;
    assert who[..k] == who;
    RoundKeeps(rounds, who, a, k, a);
    forall q: nat | q < |rounds[0]|
      ensures slot <= rounds[k][a].done[q]
    {
      RoundKeeps(rounds, who, a, k, q);
    }
    StatusExactly(rounds[k][a], slot);
  }

  // --- The jump ---

  /** The jump goes no further than it has to, give or take one round of ballots; and
      a node that is already ahead does not move. */
  lemma JumpIsShort(nd: Node, maxNpSeen: nat)
    requires nd.Valid()
    ensures var nd' := SetPropCounter(nd, maxNpSeen);
            && (nd' == nd || NextBallot(nd') < maxNpSeen + 2 * nd.peers)
            && (nd' == nd <==> nd.propCounter > maxNpSeen / nd.peers)
  {
    assert maxNpSeen / nd.peers * nd.peers <= maxNpSeen;
    assert (maxNpSeen / nd.peers + 1) * nd.peers == maxNpSeen / nd.peers * nd.peers + nd.peers;
  }
}
