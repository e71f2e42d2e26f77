/** Leader election: every coordinator proposes its own index on the current
    Paxos instance and takes what Paxos decides for the winner. */
module Election {
  import opened PaxosNode
  import opened PaxosProtocol
  import opened PaxosPass
  import opened PaxosRefinement
  import opened PaxosLaws
  import PaxosInvariant
  import PaxosSafe
  import opened PaxosSafety

  /** In this run Start is only ever called the way runElection calls it. */
  ghost predicate Campaign(steps: seq<Step>) {
    forall i :: 0 <= i < |steps| && steps[i].Start? ==> steps[i].v == Int(steps[i].p)
  }

  ghost predicate OwnCandidates(st: State) {
    forall k :: 0 <= k < |st.procs| ==> st.procs[k].v == Int(st.procs[k].node)
  }

  lemma CandidateStep(st: State, step: Step)
    requires Valid(st) && Enabled(st, step) && OwnCandidates(st)
    requires step.Start? ==> step.v == Int(step.p)
    ensures OwnCandidates(Apply(st, step))
  {
  }

  lemma {:induction false} CandidatesAreOwn(st: State, steps: seq<Step>)
    requires Allowed(st, steps) && OwnCandidates(st) && Campaign(steps)
    ensures OwnCandidates(Exec(st, steps))
    decreases |steps|
  {
    if steps != [] {
      CandidateStep(st, steps[0]);
      CandidatesAreOwn(Apply(st, steps[0]), steps[1..]);
    }
  }

  /** runElection on node a returns this value if it polls in this state. */
  ghost predicate Returns(st: State, a: nat, slot: int, v: Any) {
    a < |st.nodes| && st.nodes[a].Valid() && Status(st.nodes[a], slot).1.Decided? && Status(st.nodes[a], slot).2 == v
  }

  /** This node has itself campaigned in this instance. */
  ghost predicate Ran(st: State, w: nat, slot: int) {
    exists k :: 0 <= k < |st.procs| && st.procs[k].node == w && st.procs[k].slot == slot
  }

  lemma PollSeesDecision(st: State, a: nat, slot: int, v: Any)
    requires Returns(st, a, slot, v)
    ensures HasDecided(st, a, slot, v)
  {
    StatusFrame(st.nodes[a], slot);
  }

  /** The poll returns exactly when the node has decided the instance and has not heard
      from every peer that it is done with it; and then it returns the decision. */
  lemma PollsExactly(st: State, a: nat, slot: int, v: Any)
    requires a < |st.nodes| && st.nodes[a].Valid()
    ensures Returns(st, a, slot, v) <==> HasDecided(st, a, slot, v) && !AllDone(st.nodes[a], slot)
  {
    hide Status, AllDone;
    StatusExactly(st.nodes[a], slot);
  }

  /** In any run: a node that has decided a live instance returns it to its poll. */
  lemma DecidedPollReturns(n: nat, steps: seq<Step>, a: nat, slot: int, v: Any)
    requires Allowed(Init(n), steps) && PaxosInvariant.Live(Exec(Init(n), steps), slot)
    requires HasDecided(Exec(Init(n), steps), a, slot, v)
    ensures Returns(Exec(Init(n), steps), a, slot, v)
  {
    ReachedIsSafe(n, steps, slot);
    LiveInstanceReturns(Exec(Init(n), steps), a, slot, v);
  }

  lemma LiveInstanceReturns(st: State, a: nat, slot: int, v: Any)
    requires PaxosInvariant.Inv(st) && PaxosInvariant.Live(st, slot) && HasDecided(st, a, slot, v)
    ensures Returns(st, a, slot, v)
  {
    PaxosSafe.LiveIsKept(st, slot, a);
    AllDoneIsBelow(st.nodes[a], slot);
    PollsExactly(st, a, slot, v);
  }

  /** Elections end: from every reachable state, a node that campaigns without rivals
      and with an answering majority gets a winner decided, and from then on the
      poll returns that winner on it and on every node that the Informs reach. */
  lemma ElectionEnds(n: nat, st: State, k: nat, me: nat, slot: int, first: Plan, second: Plan, up: set<nat>)
    returns (st': State, w: Any)
    requires Reach(Init(n), st) && Runs(st, k, me, slot, Int(me), Top) && Open(st.nodes[me], slot)
    requires PlanFor(first, |st.nodes|, me) && Steady(first, |st.nodes|, up)
    requires PlanFor(second, |st.nodes|, me) && Steady(second, |st.nodes|, up)
    ensures Reach(Init(n), st') && me < |st'.nodes| == |st.nodes|
    ensures Returns(st', me, slot, w) && PaxosInvariant.Proposed(st'.procs, slot, w)
    ensures forall i: nat :: i < |st.nodes| && !first.inform[i].Lost? && !second.inform[i].Lost? ==>
      Returns(st', i, slot, w)
  {
    hide Reach, Returns;
    st', w := DecisionHappens(n, st, k, me, slot, Int(me), first, second, up);
    ReachedIsSound(n, st);
    ReachedIsSound(n, st');
    assert st.marks[me] < slot;
    assert PaxosInvariant.Live(st', slot);
    forall i: nat | i < |st.nodes| && !first.inform[i].Lost? && !second.inform[i].Lost?
      ensures Returns(st', i, slot, w)
    {
      LiveInstanceReturns(st', i, slot, w);
    }
  }

  /** Two polls that return, on any two nodes at any two times, return the same
      winner: an int, the index of a node, and that node campaigned in this very
      instance. So at most one node takes the lead from an instance. */
  lemma OneWinner(n: nat, steps: seq<Step>, more: seq<Step>, a: nat, b: nat, slot: int, v: Any, v': Any)
    returns (w: nat)
    requires Allowed(Init(n), steps) && Allowed(Exec(Init(n), steps), more) && Campaign(steps)
    requires Returns(Exec(Init(n), steps), a, slot, v)
    requires Returns(Exec(Exec(Init(n), steps), more), b, slot, v')
    ensures v == v' == Int(w) && w < n
    ensures Ran(Exec(Init(n), steps), w, slot)
  {
    var st := Exec(Init(n), steps);
    PollSeesDecision(st, a, slot, v);
    PollSeesDecision(Exec(st, more), b, slot, v');
    Agreement(n, steps, more, a, b, slot, v, v');
    CandidatesAreOwn(Init(n), steps);
    InitInv(n);
    RunKeepsInv(Init(n), steps);
    RunGrows(Init(n), steps);
    var k :| 0 <= k < |st.procs| && st.procs[k].slot == slot && st.procs[k].v == v;
    w := st.procs[k].node;
  }

  /** Two nodes that both take the lead from the same instance are one. */
  lemma OneLeader(n: nat, steps: seq<Step>, more: seq<Step>, a: nat, b: nat, slot: int)
    requires Allowed(Init(n), steps) && Allowed(Exec(Init(n), steps), more) && Campaign(steps)
    requires Returns(Exec(Init(n), steps), a, slot, Int(a))
    requires Returns(Exec(Exec(Init(n), steps), more), b, slot, Int(b))
    ensures a == b && Ran(Exec(Init(n), steps), a, slot)
  {
    var w := OneWinner(n, steps, more, a, b, slot, Int(a), Int(b));
  }
}
