/** What holds of every instance of every node at any time, also of slots that were
    forgotten and whose instances were deleted and created again. */
module PaxosMemory {
  import opened PaxosNode
  import opened PaxosProtocol
  import opened PaxosInvariant
  import opened PaxosSafe
  import opened PaxosSafety

  ghost predicate Sane(ins: Instance) {
    0 <= ins.na <= ins.np && (ins.na == 0 <==> ins.va == Nil)
  }

  ghost predicate SaneNode(nd: Node) {
    forall slot :: slot in nd.instances ==> Sane(nd.instances[slot])
  }

  ghost predicate Requests(accepts: set<AcceptArgs>) {
    forall m :: m in accepts ==> m.ballot > 0 && m.value != Nil
  }

  ghost predicate Memory(st: State) {
    (forall a :: 0 <= a < |st.nodes| ==> SaneNode(st.nodes[a])) && Requests(st.accepts)
  }

  lemma CollectingKeepsSane(nd: Node, slot: int)
    requires nd.Valid() && SaneNode(nd)
    ensures SaneNode(Collect(nd)) && SaneNode(Status(nd, slot).0)
  {
  }

  lemma NodesStaySane(st: State, step: Step)
    requires Valid(st) && Memory(st) && Enabled(st, step)
    ensures forall a :: 0 <= a < |Apply(st, step).nodes| ==> SaneNode(Apply(st, step).nodes[a])
  {
    hide SaneNode, Prepare, Accept, Inform, Collect, Status;
    match step
    case Check(k) => CollectingKeepsSane(st.nodes[st.procs[k].node], st.procs[k].slot);
    case DeliverPrepare(a, m) => DeliveryKeepsSane(st, a, step);
    case DeliverAccept(a, m) => DeliveryKeepsSane(st, a, step);
    case DeliverInform(a, m) => DeliveryKeepsSane(st, a, step);
    case CallStatus(p, slot) => CollectingKeepsSane(st.nodes[p], slot);
    case CallMin(p) => CollectingKeepsSane(st.nodes[p], 0);
    case _ => OthersKeepSane(st, step);
  }

  lemma DeliveryKeepsSane(st: State, a: nat, step: Step)
    requires Valid(st) && Memory(st) && Enabled(st, step)
    requires (step.DeliverPrepare? || step.DeliverAccept? || step.DeliverInform?) && step.a == a
    ensures |Apply(st, step).nodes| == |st.nodes| && SaneNode(Apply(st, step).nodes[a])
  {
  }

  lemma OthersKeepSane(st: State, step: Step)
    requires Valid(st) && Memory(st) && Enabled(st, step)
    requires !step.DeliverPrepare? && !step.DeliverAccept? && !step.DeliverInform?
    requires !step.Check? && !step.CallStatus? && !step.CallMin?
    ensures forall a :: 0 <= a < |Apply(st, step).nodes| ==> SaneNode(Apply(st, step).nodes[a])
  {
    var st' := Apply(st, step);
    assert |st'.nodes| == |st.nodes|;
    assert forall a :: 0 <= a < |st.nodes| ==> st'.nodes[a].instances == st.nodes[a].instances;
  }

  /** A new request comes from a proposer that still runs, so its slot is live, and
      a majority promised its ballot. */
  lemma RequestsStayPositive(st: State, step: Step)
    requires Inv(st) && Memory(st) && Enabled(st, step)
    ensures Requests(Apply(st, step).accepts)
  {
    var st' := Apply(st, step);
    KeepInv(st, step);
    forall m | m in st'.accepts && m !in st.accepts
      ensures m.ballot > 0
    {
      RequestSource(st, step, m);
      var pr := st.procs[step.k];
      assert st'.marks[pr.node] < m.slot;
      assert Live(st', m.slot);
      GroundedPositive(st', m);
    }
  }

  lemma {:induction false} RunKeepsMemory(st: State, steps: seq<Step>)
    requires Inv(st) && Memory(st) && Allowed(st, steps)
    ensures Memory(Exec(st, steps))
    decreases |steps|
  {
    hide Inv, Memory, Apply, Enabled;
    if steps != [] {
      KeepMemory(st, steps[0]);
      KeepInv(st, steps[0]);
      RunKeepsMemory(Apply(st, steps[0]), steps[1..]);
    }
  }

  lemma KeepMemory(st: State, step: Step)
    requires Inv(st) && Memory(st) && Enabled(st, step)
    ensures Memory(Apply(st, step))
  {
    NodesStaySane(st, step);
    RequestsStayPositive(st, step);
  }

  /** In every reachable state, for every node and every slot, live or not:
      0 <= n_a <= n_p, and n_a is 0 exactly when there is no accepted value. */
  lemma AcceptorMemory(n: nat, steps: seq<Step>, a: nat, slot: int)
    requires Allowed(Init(n), steps) && a < |Exec(Init(n), steps).nodes|
    ensures var ins := Lookup(Exec(Init(n), steps).nodes[a], slot);
            0 <= ins.na <= ins.np && (ins.na == 0 <==> ins.va == Nil)
  {
    InitInv(n);
    RunKeepsMemory(Init(n), steps);
    assert SaneNode(Exec(Init(n), steps).nodes[a]);
  }

  /** Ballot 0 exists but never gains a promise: every accept request ever built, for
      whatever slot, has a ballot above 0 and a value, and so has every vote. */
  lemma VotesArePositive(n: nat, steps: seq<Step>)
    requires Allowed(Init(n), steps)
    ensures forall m :: m in Exec(Init(n), steps).accepts ==> m.ballot > 0 && m.value != Nil
    ensures forall e :: e in Exec(Init(n), steps).votes ==> e.args.ballot > 0 && e.args.value != Nil
  {
    InitInv(n);
    RunKeepsMemory(Init(n), steps);
    RunKeepsInv(Init(n), steps);
  }
}
