/** A pass is a run: whatever the network does to its calls, an uninterrupted
    `propose` takes only steps of the protocol, so all that holds of every run
    holds of it. */
module PaxosRefinement {
  import opened PaxosNode
  import opened PaxosProtocol
  import opened PaxosInvariant
  import opened PaxosSafety
  import opened PaxosPass

  ghost predicate Reach(st: State, st': State) {
    exists steps :: Allowed(st, steps) && Exec(st, steps) == st'
  }

  lemma ReachSelf(st: State)
    ensures Reach(st, st)
  {
    assert Allowed(st, []) && Exec(st, []) == st;
  }

  lemma {:induction false} ExecSnoc(st: State, steps: seq<Step>, step: Step)
    requires Allowed(st, steps) && Valid(Exec(st, steps)) && Enabled(Exec(st, steps), step)
    ensures Allowed(st, steps + [step]) && Exec(st, steps + [step]) == Apply(Exec(st, steps), step)
    decreases |steps|
  {
    if steps == [] {
      assert [step][1..] == [];
      assert Allowed(Apply(st, step), []);
    } else {
      ExecSnoc(Apply(st, steps[0]), steps[1..], step);
      assert (steps + [step])[1..] == steps[1..] + [step];
    }
  }

  lemma ReachThen(st: State, st1: State, step: Step)
    requires Reach(st, st1) && Valid(st1) && Enabled(st1, step)
    ensures Reach(st, Apply(st1, step))
  {
    var steps :| Allowed(st, steps) && Exec(st, steps) == st1;
    ExecSnoc(st, steps, step);
  }

  /** Goroutine k of this state runs `propose(slot, v)` on node me. */
  ghost predicate Runs(st: State, k: nat, me: nat, slot: int, v: Any, ph: Phase) {
    && Valid(st) && k < |st.procs| && me < |st.nodes|
    && st.procs[k] == Proposer(me, slot, v, ph)
  }

  /** What the steps of one goroutine leave alone. */
  ghost predicate OnlyProc(st: State, st': State, k: nat)
    requires k < |st.procs|
  {
    && |st'.nodes| == |st.nodes| && st'.marks == st.marks
    && |st'.procs| == |st.procs|
    && (forall j :: 0 <= j < |st.procs| && j != k ==> st'.procs[j] == st.procs[j])
  }

  // --- Phase 1 ---

  lemma HeardOne(st: State, k: nat, me: nat, slot: int, v: Any, args: PrepareArgs, rs: seq<PrepareReply>, d: Delivery)
    returns (st': State)
    requires Runs(st, k, me, slot, v, Preparing(args, rs)) && |rs| < |st.nodes|
    requires args in st.prepares && args.sender == me
    ensures Reach(st, st') && OnlyProc(st, st', k)
    ensures var (nd, r) := AskPrepare(st.nodes[|rs|], args, d);
            && st'.nodes == st.nodes[|rs| := nd]
            && Runs(st', k, me, slot, v, Preparing(args, rs + [r]))
    ensures args in st'.prepares
  {
    hide Reach;
    var i := |rs|;
    ReachSelf(st);
    st' := st;
    if !d.Lost? {
      ReachThen(st, st', DeliverPrepare(i, args));
      PrepareFrame(st.nodes[i], args);
      st' := Apply(st', DeliverPrepare(i, args));
    }
    var r := AskPrepare(st.nodes[i], args, d).1;
    ReachThen(st, st', HearPrepare(k, r));
    st' := Apply(st', HearPrepare(k, r));
  }

  lemma ReachTrans(a: State, b: State, c: State)
    requires Reach(a, b) && Reach(b, c)
    ensures Reach(a, c)
  {
    var s :| Allowed(a, s) && Exec(a, s) == b;
    var t :| Allowed(b, t) && Exec(b, t) == c;
    ExecAppend(a, s, t);
  }

  lemma {:induction false} ExecAppend(st: State, s: seq<Step>, t: seq<Step>)
    requires Allowed(st, s) && Allowed(Exec(st, s), t)
    ensures Allowed(st, s + t) && Exec(st, s + t) == Exec(Exec(st, s), t)
    decreases |s|
  {
    hide Apply, Enabled, Valid;
    if s == [] {
      assert s + t == t;
    } else {
      ExecAppend(Apply(st, s[0]), s[1..], t);
      assert (s + t)[1..] == s[1..] + t;
    }
  }

  lemma {:induction false} PrepareLoopRuns(st: State, k: nat, me: nat, slot: int, v: Any, args: PrepareArgs,
                                           plan: Plan, n: nat)
    returns (st': State)
    requires Runs(st, k, me, slot, v, Preparing(args, [])) && n <= |st.nodes|
    requires args in st.prepares && args.sender == me && PlanFor(plan, |st.nodes|, me)
    ensures Reach(st, st') && OnlyProc(st, st', k)
    ensures st'.nodes == PrepareNodes(st.nodes, args, plan.prepare, n)
    ensures Runs(st', k, me, slot, v, Preparing(args, PrepareReplies(st.nodes, args, plan.prepare, n)))
    ensures args in st'.prepares
    decreases n
  {
    hide Reach, Apply, Enabled;
    if n == 0 {
      ReachSelf(st);
      st' := st;
      assert st.nodes == PrepareNodes(st.nodes, args, plan.prepare, 0);
      assert PrepareReplies(st.nodes, args, plan.prepare, 0) == [];
    } else {
      var st1 := PrepareLoopRuns(st, k, me, slot, v, args, plan, n - 1);
      var rs := PrepareReplies(st.nodes, args, plan.prepare, n - 1);
      st' := HeardOne(st1, k, me, slot, v, args, rs, plan.prepare[n - 1]);
      ReachTrans(st, st1, st');
      assert st1.nodes[n - 1] == st.nodes[n - 1];
      assert st'.nodes == PrepareNodes(st.nodes, args, plan.prepare, n);
      assert PrepareReplies(st.nodes, args, plan.prepare, n)
          == rs + [AskPrepare(st.nodes[n - 1], args, plan.prepare[n - 1]).1];
    }
  }

  // --- Phase 2 ---

  lemma VotedOne(st: State, k: nat, me: nat, slot: int, v: Any, args: AcceptArgs, rs: seq<AcceptReply>, d: Delivery)
    returns (st': State)
    requires Runs(st, k, me, slot, v, Accepting(args, rs)) && |rs| < |st.nodes|
    requires args in st.accepts && args.sender == me
    ensures Reach(st, st') && OnlyProc(st, st', k)
    ensures var (nd, r) := AskAccept(st.nodes[|rs|], args, d);
            && st'.nodes == st.nodes[|rs| := nd]
            && Runs(st', k, me, slot, v, Accepting(args, rs + [r]))
    ensures args in st'.accepts
  {
    hide Reach;
    var i := |rs|;
    ReachSelf(st);
    st' := st;
    if !d.Lost? {
      ReachThen(st, st', DeliverAccept(i, args));
      AcceptFrame(st.nodes[i], args);
      st' := Apply(st', DeliverAccept(i, args));
    }
    var r := AskAccept(st.nodes[i], args, d).1;
    ReachThen(st, st', HearAccept(k, r));
    st' := Apply(st', HearAccept(k, r));
  }

  lemma {:induction false} AcceptLoopRuns(st: State, k: nat, me: nat, slot: int, v: Any, args: AcceptArgs,
                                          plan: Plan, n: nat)
    returns (st': State)
    requires Runs(st, k, me, slot, v, Accepting(args, [])) && n <= |st.nodes|
    requires args in st.accepts && args.sender == me && PlanFor(plan, |st.nodes|, me)
    ensures Reach(st, st') && OnlyProc(st, st', k)
    ensures st'.nodes == AcceptNodes(st.nodes, args, plan.accept, n)
    ensures Runs(st', k, me, slot, v, Accepting(args, AcceptReplies(st.nodes, args, plan.accept, n)))
    ensures args in st'.accepts
    decreases n
  {
    hide Reach, Apply, Enabled;
    if n == 0 {
      ReachSelf(st);
      st' := st;
      assert st.nodes == AcceptNodes(st.nodes, args, plan.accept, 0);
      assert AcceptReplies(st.nodes, args, plan.accept, 0) == [];
    } else {
      var st1 := AcceptLoopRuns(st, k, me, slot, v, args, plan, n - 1);
      var rs := AcceptReplies(st.nodes, args, plan.accept, n - 1);
      st' := VotedOne(st1, k, me, slot, v, args, rs, plan.accept[n - 1]);
      ReachTrans(st, st1, st');
      assert st1.nodes[n - 1] == st.nodes[n - 1];
      assert st'.nodes == AcceptNodes(st.nodes, args, plan.accept, n);
      assert AcceptReplies(st.nodes, args, plan.accept, n)
          == rs + [AskAccept(st.nodes[n - 1], args, plan.accept[n - 1]).1];
    }
  }

  // --- Phase 3 ---

  lemma {:induction false} InformLoopRuns(st: State, k: nat, me: nat, slot: int, v: Any, args: InformArgs,
                                          plan: Plan, n: nat)
    returns (st': State)
    requires Runs(st, k, me, slot, v, Informing(args)) && n <= |st.nodes|
    requires args in st.informs && args.sender == me && PlanFor(plan, |st.nodes|, me)
    ensures Reach(st, st') && OnlyProc(st, st', k)
    ensures st'.nodes == InformNodes(st.nodes, args, plan.inform, n)
    ensures Runs(st', k, me, slot, v, Informing(args))
    ensures args in st'.informs
    decreases n
  {
    hide Reach;
    if n == 0 {
      ReachSelf(st);
      st' := st;
      assert st.nodes == InformNodes(st.nodes, args, plan.inform, 0);
    } else {
      st' := InformLoopRuns(st, k, me, slot, v, args, plan, n - 1);
      if !plan.inform[n - 1].Lost? {
        ReachThen(st, st', DeliverInform(n - 1, args));
        st' := Apply(st', DeliverInform(n - 1, args));
      }
      assert st'.nodes == InformNodes(st.nodes, args, plan.inform, n);
    }
  }

  // --- A pass ---

  ghost predicate Ends(st: State, k: nat, me: nat, slot: int, v: Any, pass: Pass) {
    && st.nodes == pass.nodes
    && Runs(st, k, me, slot, v, if pass.outcome.Again? then Top else Returned)
    && (pass.outcome.Won? ==> Informed(st, slot, pass.outcome.value))
  }

  lemma PhaseThreeRuns(st: State, k: nat, me: nat, slot: int, v: Any, args: InformArgs, plan: Plan)
    returns (st': State)
    requires Runs(st, k, me, slot, v, Informing(args)) && PlanFor(plan, |st.nodes|, me)
    requires args in st.informs && args.slot == slot && args.sender == me
    ensures Reach(st, st') && OnlyProc(st, st', k)
    ensures Ends(st', k, me, slot, v,
                 Pass(InformNodes(st.nodes, args, plan.inform, |st.nodes|), Won(args.value)))
  {
    hide Reach;
    var st1 := InformLoopRuns(st, k, me, slot, v, args, plan, |st.nodes|);
    ReachThen(st, st1, CloseInform(k));
    st' := Apply(st1, CloseInform(k));
    assert args in st'.informs;
  }

  lemma PhaseTwoRuns(st: State, k: nat, me: nat, slot: int, v: Any, args: AcceptArgs, plan: Plan)
    returns (st': State)
    requires Runs(st, k, me, slot, v, Accepting(args, [])) && PlanFor(plan, |st.nodes|, me)
    requires args in st.accepts && args.slot == slot && args.sender == me
    ensures Reach(st, st') && OnlyProc(st, st', k)
    ensures Ends(st', k, me, slot, v, PhaseTwo(st.nodes, me, args, plan))
  {
    hide Reach;
    var st1 := AcceptLoopRuns(st, k, me, slot, v, args, plan, |st.nodes|);
    var rs := AcceptReplies(st.nodes, args, plan.accept, |st.nodes|);
    ReachThen(st, st1, CloseAccept(k));
    var st2 := Apply(st1, CloseAccept(k));
    if |VoteSet(rs)| < |st.nodes| / 2 + 1 {
      st' := st2;
    } else {
      var inf := InformArgs(slot, args.value, me, st1.nodes[me].done[me]);
      st' := PhaseThreeRuns(st2, k, me, slot, v, inf, plan);
      ReachTrans(st, st2, st');
    }
  }

  lemma PhaseOneRuns(st: State, k: nat, me: nat, slot: int, v: Any, args: PrepareArgs, plan: Plan)
    returns (st': State)
    requires Runs(st, k, me, slot, v, Preparing(args, [])) && PlanFor(plan, |st.nodes|, me)
    requires args in st.prepares && args.slot == slot && args.sender == me
    ensures Reach(st, st') && OnlyProc(st, st', k)
    ensures Ends(st', k, me, slot, v, PhaseOne(st.nodes, me, v, args, plan))
  {
    hide Reach;
    var st1 := PrepareLoopRuns(st, k, me, slot, v, args, plan, |st.nodes|);
    var rs := PrepareReplies(st.nodes, args, plan.prepare, |st.nodes|);
    ReachThen(st, st1, ClosePrepare(k));
    var st2 := Apply(st1, ClosePrepare(k));
    if |PromiseSet(rs)| < |st.nodes| / 2 + 1 {
      st' := st2;
    } else {
      var acc := AcceptArgs(slot, args.ballot, Adopt(rs, v), me, st1.nodes[me].done[me]);
      st' := PhaseTwoRuns(st2, k, me, slot, v, acc, plan);
      ReachTrans(st, st2, st');
    }
  }

  /** One pass of the loop, with any loss, is a run of the protocol. */
  lemma PassRuns(st: State, k: nat, me: nat, slot: int, v: Any, plan: Plan) returns (st': State)
    requires Runs(st, k, me, slot, v, Top) && PlanFor(plan, |st.nodes|, me)
    ensures Reach(st, st') && OnlyProc(st, st', k)
    ensures Ends(st', k, me, slot, v, RunPass(st.nodes, me, slot, v, plan))
  {
    hide Reach;
    var (nd, fate, _) := Status(st.nodes[me], slot);
    StatusFrame(st.nodes[me], slot);
    ReachSelf(st);
    ReachThen(st, st, Check(k));
    var st1 := Apply(st, Check(k));
    if Leaves(nd, fate) {
      st' := st1;
    } else {
      ReachThen(st, st1, Draw(k));
      var st2 := Apply(st1, Draw(k));
      var args := PrepareArgs(slot, NextBallot(nd), me, nd.done[me]);
      assert st2.nodes == st.nodes[me := DrawBallot(nd)];
      st' := PhaseOneRuns(st2, k, me, slot, v, args, plan);
      ReachTrans(st, st2, st');
    }
  }

  /** So is the whole loop. */
  lemma {:induction false} PassesRun(st: State, k: nat, me: nat, slot: int, v: Any, plans: seq<Plan>)
    returns (st': State)
    requires Runs(st, k, me, slot, v, Top) && forall p :: p in plans ==> PlanFor(p, |st.nodes|, me)
    ensures Reach(st, st') && OnlyProc(st, st', k)
    ensures Ends(st', k, me, slot, v, RunPasses(st.nodes, me, slot, v, plans))
    decreases |plans|
  {
    hide Reach;
    if plans == [] {
      ReachSelf(st);
      st' := st;
    } else {
      var front := plans[..|plans| - 1];
      st' := PassesRun(st, k, me, slot, v, front);
      if RunPasses(st.nodes, me, slot, v, front).outcome.Again? {
        var st1 := st';
        st' := PassRuns(st1, k, me, slot, v, plans[|plans| - 1]);
        ReachTrans(st, st1, st');
      }
    }
  }

  /** A `propose` that wins in any reachable cluster, after any earlier history
      of other proposers, wins with the one value that anybody ever decides. */
  lemma WinningValueIsTheDecision(n: nat, steps: seq<Step>, k: nat, me: nat, slot: int, v: Any, plans: seq<Plan>,
                                  a: nat, w: Any)
    requires Allowed(Init(n), steps)
    requires var st := Exec(Init(n), steps);
             && Runs(st, k, me, slot, v, Top)
             && (forall p :: p in plans ==> PlanFor(p, |st.nodes|, me))
             && RunPasses(st.nodes, me, slot, v, plans).outcome.Won?
             && HasDecided(st, a, slot, w)
    ensures RunPasses(Exec(Init(n), steps).nodes, me, slot, v, plans).outcome == Won(w)
  {
    var st := Exec(Init(n), steps);
    var st' := PassesRun(st, k, me, slot, v, plans);
    var more :| Allowed(st, more) && Exec(st, more) == st';
    InitInv(n);
    RunKeepsInv(Init(n), steps);
    RunKeepsInv(st, more);
    RunGrows(st, more);
    DecidedWasInformed(st, a, slot, w);
    InformedGrows(st, st', slot, w);
  }

  // --- Decisions do happen ---

  lemma TwoPassesDecide(nodes: seq<Node>, me: nat, slot: int, v: Any, first: Plan, second: Plan, i: nat)
    requires Cluster(nodes) && PlanFor(first, |nodes|, me) && PlanFor(second, |nodes|, me)
    requires i < |nodes| && !first.inform[i].Lost? && !second.inform[i].Lost?
    requires RunPasses(nodes, me, slot, v, [first, second]).outcome.Won?
    ensures var r := RunPasses(nodes, me, slot, v, [first, second]);
            Lookup(r.nodes[i], slot).fate.Decided? && Lookup(r.nodes[i], slot).decided == r.outcome.value
  {
    hide RunPass;
    TwoPasses(nodes, me, slot, v, first, second);
    var one := RunPass(nodes, me, slot, v, first);
    if one.outcome.Again? {
      WinnerInforms(one.nodes, me, slot, v, second, i);
    } else {
      WinnerInforms(nodes, me, slot, v, first, i);
    }
  }

  lemma ReachedIsSound(n: nat, st: State)
    requires Reach(Init(n), st)
    ensures Inv(st)
  {
    var steps :| Allowed(Init(n), steps) && Exec(Init(n), steps) == st;
    InitInv(n);
    RunKeepsInv(Init(n), steps);
  }

  /** From every reachable state, whatever the nodes have promised and accepted so
      far, a proposer without rivals and with an answering majority gets a value
      decided, and it is one that was proposed for the slot. */
  lemma DecisionHappens(n: nat, st: State, k: nat, me: nat, slot: int, v: Any, first: Plan, second: Plan, up: set<nat>)
    returns (st': State, w: Any)
    requires Reach(Init(n), st) && Runs(st, k, me, slot, v, Top) && Open(st.nodes[me], slot)
    requires PlanFor(first, |st.nodes|, me) && Steady(first, |st.nodes|, up)
    requires PlanFor(second, |st.nodes|, me) && Steady(second, |st.nodes|, up)
    ensures Reach(Init(n), st') && OnlyProc(st, st', k) && Runs(st', k, me, slot, v, Returned)
    ensures HasDecided(st', me, slot, w) && w != Nil && Proposed(st'.procs, slot, w)
    ensures forall i: nat :: i < |st.nodes| && !first.inform[i].Lost? && !second.inform[i].Lost? ==>
      HasDecided(st', i, slot, w)
  {
    TwoPassesSuffice(st.nodes, me, slot, v, first, second, up);
    hide Reach, RunPasses, HasDecided;
    st' := PassesRun(st, k, me, slot, v, [first, second]);
    w := RunPasses(st.nodes, me, slot, v, [first, second]).outcome.value;
    forall i: nat | i < |st.nodes| && !first.inform[i].Lost? && !second.inform[i].Lost?
      ensures HasDecided(st', i, slot, w)
    {
      TwoPassesDecide(st.nodes, me, slot, v, first, second, i);
      IsDecided(st', i, slot, w);
    }
    ReachTrans(Init(n), st, st');
    ReachedIsSound(n, st');
    DecidedWasInformed(st', me, slot, w);
  }

  lemma IsDecided(st: State, a: nat, slot: int, v: Any)
    requires a < |st.nodes| && Lookup(st.nodes[a], slot).fate.Decided? && Lookup(st.nodes[a], slot).decided == v
    ensures HasDecided(st, a, slot, v)
  {
  }

  /** On a new cluster the only proposer gets its own value decided. */
  lemma FirstDecision(n: nat, me: nat, slot: int, v: Any, first: Plan, second: Plan, up: set<nat>)
    returns (st': State)
    requires slot >= 0 && v != Nil
    requires PlanFor(first, n, me) && Steady(first, n, up) && PlanFor(second, n, me) && Steady(second, n, up)
    ensures Reach(Init(n), st') && HasDecided(st', me, slot, v)
  {
    InitInv(n);
    ReachSelf(Init(n));
    ReachThen(Init(n), Init(n), Start(me, slot, v));
    var st := Apply(Init(n), Start(me, slot, v));
    assert st.nodes == NewCluster(n);
    NewClusterStatus(n, me, slot);
    var w;
    st', w := DecisionHappens(n, st, 0, me, slot, v, first, second, up);
    assert |st'.procs| == 1 && st'.procs[0].v == v;
  }
}
