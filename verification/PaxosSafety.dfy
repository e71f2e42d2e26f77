/** What the protocol guarantees on every run. */
module PaxosSafety {
  import opened PaxosNode
  import opened PaxosProtocol
  import opened PaxosInvariant
  import opened PaxosBooks
  import opened PaxosSafe

  // --- A chosen value stays chosen ---

  ghost predicate VotedBy(st: State, acc: AcceptArgs, q: set<nat>) {
    forall a :: a in q ==> a < |st.nodes| && Voted(st.votes, acc.slot, a, acc.ballot, acc.value)
  }

  /** A majority has accepted this request. */
  ghost predicate Chosen(st: State, acc: AcceptArgs) {
    exists q :: VotedBy(st, acc, q) && |q| >= |st.nodes| / 2 + 1
  }

  lemma WonIsChosen(st: State, slot: int, v: Any) returns (acc: AcceptArgs)
    requires Won(st, slot, v)
    ensures acc in st.accepts && acc.slot == slot && acc.value == v && Chosen(st, acc)
  {
    var rs;
    acc, rs :| Elected(st, slot, v, acc, rs);
    forall a | a in VoteSet(rs)
      ensures Voted(st.votes, acc.slot, a, acc.ballot, acc.value)
    {
      var e := AcceptExchange(acc, rs[a]);
      assert e in st.votes && IsVote(e, slot, a, acc.ballot, v);
    }
    assert VotedBy(st, acc, VoteSet(rs));
  }

  /** The proposer of a later ballot heard from a voter of the chosen one, so
      what it adopted comes from a request between the two. */
  lemma AdoptedBetween(st: State, acc: AcceptArgs, next: AcceptArgs) returns (mid: AcceptArgs)
    requires Books(st) && Safe(st, acc.slot)
    requires acc in st.accepts && next in st.accepts && Chosen(st, acc)
    requires next.slot == acc.slot && next.ballot > acc.ballot
    ensures mid in st.accepts && mid.slot == acc.slot && mid.value == next.value
    ensures acc.ballot <= mid.ballot < next.ballot
  {
    var m: PrepareArgs, rs: seq<PrepareReply>, own: Any :| Justified(st, next, m, rs, own);
    var q :| VotedBy(st, acc, q) && |q| >= |st.nodes| / 2 + 1;
    var a := QuorumsMeet(PromiseSet(rs), q, |st.nodes|);
    assert Voted(st.votes, acc.slot, a, acc.ballot, acc.value);
    assert PromiseOk(st.votes, PrepareExchange(m, rs[a]));
    GroundedPositive(st, acc);
    HighestIsHighest(rs);
    var (h, v) := Highest(rs);
    assert rs[a].na >= acc.ballot;
    var i :| 0 <= i < |rs| && rs[i].reply.OK? && rs[i].na == h && rs[i].va == v;
    assert PromiseOk(st.votes, PrepareExchange(m, rs[i]));
    var e :| e in st.votes && IsVote(e, m.slot, rs[i].sender, h, v);
    mid := e.args;
  }

  /** Once a majority has accepted a request, every request with a higher ballot
      ever built for that slot carries the same value. */
  lemma {:induction false} ChosenStays(st: State, acc: AcceptArgs, next: AcceptArgs)
    requires Books(st) && Safe(st, acc.slot)
    requires acc in st.accepts && next in st.accepts && Chosen(st, acc)
    requires next.slot == acc.slot && next.ballot >= acc.ballot
    ensures next.value == acc.value
    decreases next.ballot - acc.ballot
  {
    if next.ballot > acc.ballot {
      var mid := AdoptedBetween(st, acc, next);
      ChosenStays(st, acc, mid);
    }
  }

  lemma WinnersAgree(st: State, slot: int, v: Any, v': Any)
    requires Books(st) && Safe(st, slot) && Won(st, slot, v) && Won(st, slot, v')
    ensures v == v'
  {
    var acc := WonIsChosen(st, slot, v);
    var acc' := WonIsChosen(st, slot, v');
    if acc.ballot <= acc'.ballot {
      ChosenStays(st, acc, acc');
    } else {
      ChosenStays(st, acc', acc);
    }
  }

  // --- Outcomes are kept by every step ---

  lemma ProposedGrows(st: State, st': State, slot: int, v: Any)
    requires Proposed(st.procs, slot, v) && |st.procs| <= |st'.procs|
    requires forall k :: 0 <= k < |st.procs| ==>
      st'.procs[k].slot == st.procs[k].slot && st'.procs[k].v == st.procs[k].v
    ensures Proposed(st'.procs, slot, v)
  {
    var k :| 0 <= k < |st.procs| && st.procs[k].slot == slot && st.procs[k].v == v;
    assert st'.procs[k].slot == slot && st'.procs[k].v == v;
  }

  /** What a proposer adopts was proposed by somebody for the same slot. */
  lemma AdoptedWasProposed(st: State, k: nat)
    requires Inv(st) && Enabled(st, ClosePrepare(k))
    ensures var pr := st.procs[k]; var v := Adopt(pr.phase.promises, pr.v);
            v != Nil && Proposed(st.procs, pr.slot, v)
  {
    var pr := st.procs[k];
    var Preparing(m, rs) := pr.phase;
    assert Live(st, pr.slot);
    HighestIsHighest(rs);
    var (h, v) := Highest(rs);
    if v != Nil {
      var i :| 0 <= i < |rs| && rs[i].reply.OK? && rs[i].na == h && rs[i].va == v;
      assert PromiseOk(st.votes, PrepareExchange(m, rs[i]));
      var e :| e in st.votes && IsVote(e, m.slot, rs[i].sender, h, v);
      assert e.args in st.accepts;
    }
  }

  lemma ProcsGrow(st: State, step: Step)
    requires Valid(st) && Enabled(st, step)
    ensures var st' := Apply(st, step);
            && |st.procs| <= |st'.procs|
            && forall k :: 0 <= k < |st.procs| ==>
                 st'.procs[k].slot == st.procs[k].slot && st'.procs[k].v == st.procs[k].v
  {
  }

  lemma RequestSource(st: State, step: Step, m: AcceptArgs)
    requires Valid(st) && Enabled(st, step)
    requires m in Apply(st, step).accepts && m !in st.accepts
    ensures step.ClosePrepare?
    ensures var pr := st.procs[step.k]; m.slot == pr.slot && m.value == Adopt(pr.phase.promises, pr.v)
  {
  }

  lemma InformSource(st: State, step: Step, m: InformArgs)
    requires Books(st) && Enabled(st, step)
    requires m in Apply(st, step).informs && m !in st.informs
    ensures step.CloseAccept? && m.slot == st.procs[step.k].slot
    ensures exists acc :: acc in st.accepts && acc.slot == m.slot && acc.value == m.value
  {
    var acc := st.procs[step.k].phase.acceptArgs;
    assert acc in st.accepts && acc.slot == m.slot && acc.value == m.value;
  }

  lemma KeepProposals(st: State, step: Step)
    requires Inv(st) && Enabled(st, step)
    ensures Proposals(Apply(st, step))
  {
    var st' := Apply(st, step);
    ProcsGrow(st, step);
    forall m | m in st'.accepts
      ensures m.value != Nil && Proposed(st'.procs, m.slot, m.value)
    {
      if m !in st.accepts {
        RequestSource(st, step, m);
        AdoptedWasProposed(st, step.k);
      }
      ProposedGrows(st, st', m.slot, m.value);
    }
    forall m | m in st'.informs
      ensures m.value != Nil && Proposed(st'.procs, m.slot, m.value)
    {
      if m !in st.informs {
        InformSource(st, step, m);
      }
      ProposedGrows(st, st', m.slot, m.value);
    }
  }

  lemma InformedGrows(st: State, st': State, slot: int, v: Any)
    requires Informed(st, slot, v) && st.informs <= st'.informs
    ensures Informed(st', slot, v)
  {
    var m :| m in st.informs && m.slot == slot && m.value == v;
    assert m in st'.informs;
  }

  ghost predicate SameOutcome(ins: Instance, ins': Instance) {
    ins'.fate == ins.fate && ins'.decided == ins.decided
  }

  lemma OutcomeAfterLookup(st: State, step: Step, a: nat, slot: int)
    requires Valid(st) && Enabled(st, step) && a < |st.nodes|
    requires step.Check? || step.CallStatus? || step.CallMin?
    requires |Apply(st, step).nodes| == |st.nodes| && slot in Apply(st, step).nodes[a].instances
    ensures SameOutcome(Lookup(st.nodes[a], slot), Lookup(Apply(st, step).nodes[a], slot))
  {
    match step
    case Check(k) => StatusFrame(st.nodes[st.procs[k].node], st.procs[k].slot);
    case CallStatus(p, s) => StatusFrame(st.nodes[p], s);
    case CallMin(p) =>
  }

  /** A step that changes an outcome delivered an Inform message. */
  lemma DecisionSource(st: State, step: Step, a: nat, slot: int)
    requires Valid(st) && Enabled(st, step) && a < |st.nodes|
    requires |Apply(st, step).nodes| == |st.nodes| && slot in Apply(st, step).nodes[a].instances
    ensures var ins, ins' := Lookup(st.nodes[a], slot), Lookup(Apply(st, step).nodes[a], slot);
            || SameOutcome(ins, ins')
            || (step.DeliverInform? && step.informArgs.slot == slot
                && ins'.fate.Decided? && ins'.decided == step.informArgs.value)
  {
    if step.Check? || step.CallStatus? || step.CallMin? {
      OutcomeAfterLookup(st, step, a, slot);
    }
  }

  /** An instance is removed only by minLocked, at or below the watermark. */
  lemma RemovalSource(st: State, step: Step, a: nat, slot: int)
    requires Valid(st) && Enabled(st, step) && a < |st.nodes|
    requires slot in st.nodes[a].instances
    requires |Apply(st, step).nodes| == |st.nodes| && slot !in Apply(st, step).nodes[a].instances
    ensures slot <= Watermark(st.nodes[a])
  {
  }

  lemma KeepDecisions(st: State, step: Step)
    requires Books(st) && Decisions(st) && Enabled(st, step)
    ensures Decisions(Apply(st, step))
  {
    var st' := Apply(st, step);
    assert |st'.nodes| == |st.nodes|;
    forall a: nat, slot | a < |st'.nodes| && slot in st'.nodes[a].instances
      ensures var ins := st'.nodes[a].instances[slot];
              match ins.fate
              case Decided => Informed(st', slot, ins.decided)
              case Pending => ins.decided == Nil
              case Forgotten => false
    {
      DecisionSource(st, step, a, slot);
      var ins := Lookup(st.nodes[a], slot);
      if ins.fate.Decided? {
        InformedGrows(st, st', slot, ins.decided);
      }
    }
  }

  /** Only a running proposer sends an Inform, and its slot is live. */
  lemma NewInformIsLive(st: State, step: Step, m: InformArgs)
    requires Books(st) && Enabled(st, step)
    requires m in Apply(st, step).informs && m !in st.informs
    ensures Live(Apply(st, step), m.slot)
  {
    assert step.CloseAccept?;
    var pr := st.procs[step.k];
    assert Apply(st, step).marks[pr.node] < m.slot;
  }

  lemma KeepAgreed(st: State, step: Step)
    requires Books(st) && Agreed(st) && Enabled(st, step)
    requires Books(Apply(st, step)) && AllSafe(Apply(st, step))
    ensures Agreed(Apply(st, step))
  {
    var st' := Apply(st, step);
    forall m, m' | m in st'.informs && m' in st'.informs && m.slot == m'.slot
      ensures m.value == m'.value
    {
      if m !in st.informs || m' !in st.informs {
        NewInformIsLive(st, step, if m !in st.informs then m else m');
        WinnersAgree(st', m.slot, m.value, m'.value);
      }
    }
  }

  lemma KeepInv(st: State, step: Step)
    requires Inv(st) && Enabled(st, step)
    ensures Inv(Apply(st, step))
  {
    KeepBooks(st, step);
    KeepSafe(st, step);
    KeepProposals(st, step);
    KeepDecisions(st, step);
    KeepAgreed(st, step);
  }

  lemma InitInv(n: nat)
    ensures Inv(Init(n))
  {
  }

  lemma {:induction false} RunKeepsInv(st: State, steps: seq<Step>)
    requires Inv(st) && Allowed(st, steps)
    ensures Inv(Exec(st, steps))
    decreases |steps|
  {
    if steps != [] {
      KeepInv(st, steps[0]);
      RunKeepsInv(Apply(st, steps[0]), steps[1..]);
    }
  }

  // --- Theorems about runs ---

  ghost predicate HasDecided(st: State, a: nat, slot: int, v: Any) {
    a < |st.nodes| && Lookup(st.nodes[a], slot).fate.Decided? && Lookup(st.nodes[a], slot).decided == v
  }

  lemma DecidedWasInformed(st: State, a: nat, slot: int, v: Any)
    requires Decisions(st) && HasDecided(st, a, slot, v)
    ensures Informed(st, slot, v)
  {
  }

  lemma StepGrows(st: State, step: Step)
    requires Valid(st) && Enabled(st, step)
    ensures var st' := Apply(st, step);
            && |st'.nodes| == |st.nodes|
            && st.informs <= st'.informs && st.accepts <= st'.accepts && st.votes <= st'.votes
            && st.prepares <= st'.prepares
            && |st'.marks| == |st.marks|
            && forall p :: 0 <= p < |st.marks| ==> st.marks[p] <= st'.marks[p]
  {
  }

  lemma {:induction false} RunGrows(st: State, steps: seq<Step>)
    requires Allowed(st, steps)
    ensures var st' := Exec(st, steps);
            && |st'.nodes| == |st.nodes|
            && st.informs <= st'.informs && st.accepts <= st'.accepts && st.votes <= st'.votes
            && st.prepares <= st'.prepares
            && |st'.marks| == |st.marks|
            && forall p :: 0 <= p < |st.marks| ==> st.marks[p] <= st'.marks[p]
    decreases |steps|
  {
    if steps != [] {
      StepGrows(st, steps[0]);
      RunGrows(Apply(st, steps[0]), steps[1..]);
    }
  }

  /** Agreement and stability. In any run of any number of proposers, with lost,
      late and repeated messages and with instances forgotten and recreated, a
      value decided anywhere at any time is the only value decided anywhere at
      any later time, and somebody proposed it for that slot. */
  lemma Agreement(n: nat, steps: seq<Step>, more: seq<Step>, a: nat, b: nat, slot: int, v: Any, w: Any)
    requires Allowed(Init(n), steps) && Allowed(Exec(Init(n), steps), more)
    requires HasDecided(Exec(Init(n), steps), a, slot, v)
    requires HasDecided(Exec(Exec(Init(n), steps), more), b, slot, w)
    ensures v == w && v != Nil
    ensures Proposed(Exec(Init(n), steps).procs, slot, v)
  {
    var st := Exec(Init(n), steps);
    var st' := Exec(st, more);
    InitInv(n);
    RunKeepsInv(Init(n), steps);
    RunKeepsInv(st, more);
    RunGrows(st, more);
    DecidedWasInformed(st, a, slot, v);
    DecidedWasInformed(st', b, slot, w);
    InformedGrows(st, st', slot, v);
  }

  /** All values ever sent in Inform for a slot are equal, forgotten or not. */
  lemma InformsAgree(n: nat, steps: seq<Step>, m: InformArgs, m': InformArgs)
    requires Allowed(Init(n), steps)
    requires m in Exec(Init(n), steps).informs && m' in Exec(Init(n), steps).informs && m.slot == m'.slot
    ensures m.value == m'.value
  {
    InitInv(n);
    RunKeepsInv(Init(n), steps);
  }

  lemma DecisionStays(st: State, step: Step, a: nat, slot: int, v: Any)
    requires Inv(st) && Enabled(st, step) && HasDecided(st, a, slot, v)
    requires Live(Apply(st, step), slot)
    ensures HasDecided(Apply(st, step), a, slot, v)
  {
    StepGrows(st, step);
    LiveBefore(st, step, slot);
    LiveIsKept(st, slot, a);
    if slot !in Apply(st, step).nodes[a].instances {
      RemovalSource(st, step, a, slot);
      assert false;
    }
    DecisionSource(st, step, a, slot);
    DecidedWasInformed(st, a, slot, v);
  }

  /** A decision is never lost or changed while its slot is live. In particular,
      in a run without Done calls it stays for ever. */
  lemma {:induction false} DecisionIsStable(st: State, steps: seq<Step>, a: nat, slot: int, v: Any)
    requires Inv(st) && Allowed(st, steps) && HasDecided(st, a, slot, v)
    requires Live(Exec(st, steps), slot)
    ensures HasDecided(Exec(st, steps), a, slot, v)
    decreases |steps|
  {
    if steps != [] {
      var st1 := Apply(st, steps[0]);
      RunGrows(st1, steps[1..]);
      var p :| 0 <= p < |st.marks| && Exec(st, steps).marks[p] < slot;
      assert st1.marks[p] < slot;
      KeepInv(st, steps[0]);
      DecisionStays(st, steps[0], a, slot, v);
      DecisionIsStable(st1, steps[1..], a, slot, v);
    }
  }

  /** Forgetting is justified: an instance disappears from any node only after
      every node has called Done at or above its slot, although watermarks
      travel on messages that may be lost, late or repeated. */
  lemma ForgettingIsJustified(n: nat, steps: seq<Step>, step: Step, a: nat, slot: int)
    requires Allowed(Init(n), steps) && a < n
    requires var st := Exec(Init(n), steps);
             && Valid(st) && Enabled(st, step) && |st.nodes| == n && |Apply(st, step).nodes| == n
             && slot in st.nodes[a].instances && slot !in Apply(st, step).nodes[a].instances
    ensures forall p :: 0 <= p < n ==> Exec(Init(n), steps).marks[p] >= slot
  {
    var st := Exec(Init(n), steps);
    InitInv(n);
    RunKeepsInv(Init(n), steps);
    RunGrows(Init(n), steps);
    RemovalSource(st, step, a, slot);
    if Live(st, slot) {
      LiveIsKept(st, slot, a);
    }
  }

  /** Ballots never repeat across nodes, goroutines and slots, and a node's next
      ballot is above every ballot it has drawn. */
  lemma BallotsAreUnique(n: nat, steps: seq<Step>, m: PrepareArgs, m': PrepareArgs)
    requires Allowed(Init(n), steps)
    requires m in Exec(Init(n), steps).prepares && m' in Exec(Init(n), steps).prepares
    ensures m.ballot == m'.ballot ==> m == m'
    ensures m.sender < |Exec(Init(n), steps).nodes|
    ensures m.ballot < NextBallot(Exec(Init(n), steps).nodes[m.sender])
  {
    InitInv(n);
    RunKeepsInv(Init(n), steps);
  }

  lemma ReachedIsSafe(n: nat, steps: seq<Step>, slot: int)
    requires Allowed(Init(n), steps) && Live(Exec(Init(n), steps), slot)
    ensures Inv(Exec(Init(n), steps)) && Safe(Exec(Init(n), steps), slot) && |Exec(Init(n), steps).nodes| == n
  {
    InitInv(n);
    RunKeepsInv(Init(n), steps);
    RunGrows(Init(n), steps);
  }

  /** In any run: once a majority has accepted a request for a live slot, every
      request with a higher ballot ever built for it carries the same value. */
  lemma ChosenIsFinal(n: nat, steps: seq<Step>, acc: AcceptArgs, next: AcceptArgs)
    requires Allowed(Init(n), steps) && Live(Exec(Init(n), steps), acc.slot)
    requires acc in Exec(Init(n), steps).accepts && next in Exec(Init(n), steps).accepts
    requires Chosen(Exec(Init(n), steps), acc) && next.slot == acc.slot && next.ballot >= acc.ballot
    ensures next.value == acc.value
  {
    ReachedIsSafe(n, steps, acc.slot);
    ChosenStays(Exec(Init(n), steps), acc, next);
  }

  /** What an acceptor remembers of a live slot: every ballot it ever accepted is
      at most n_a, and every ballot it ever promised is at most n_p. */
  lemma AcceptorRemembers(n: nat, steps: seq<Step>, a: nat, slot: int)
    requires Allowed(Init(n), steps) && a < n && Live(Exec(Init(n), steps), slot)
    ensures a < |Exec(Init(n), steps).nodes|
    ensures var st := Exec(Init(n), steps); var ins := Lookup(st.nodes[a], slot);
            && (forall e :: e in st.votes && e.reply.reply.OK? && e.reply.sender == a && e.args.slot == slot ==>
                  e.args.ballot <= ins.na)
            && (forall e :: e in st.promises && e.reply.reply.OK? && e.reply.sender == a && e.args.slot == slot ==>
                  e.args.ballot <= ins.np)
  {
    ReachedIsSafe(n, steps, slot);
    assert AcceptorOk(Exec(Init(n), steps), slot, a);
  }

  lemma SameVote(st: State, e: PrepareExchange, e': PrepareExchange)
    requires Books(st) && Safe(st, e.args.slot)
    requires e in st.promises && e' in st.promises && e.reply.reply.OK? && e'.reply.reply.OK?
    requires e.args.slot == e'.args.slot && e.reply.na == e'.reply.na > 0
    ensures e.reply.va == e'.reply.va
  {
    var s, r, r' := e.args.slot, e.reply, e'.reply;
    assert PromiseOk(st.votes, e) && PromiseOk(st.votes, e');
    var w :| w in st.votes && IsVote(w, s, r.sender, r.na, r.va);
    var w' :| w' in st.votes && IsVote(w', s, r'.sender, r'.na, r'.va);
    assert w.args in st.accepts && w'.args in st.accepts;
  }

  /** In any run, two promises for a live slot that report the same positive N_a
      report the same V_a, so it does not matter which of them the strict > keeps. */
  lemma TiesAgree(n: nat, steps: seq<Step>, e: PrepareExchange, e': PrepareExchange)
    requires Allowed(Init(n), steps) && Live(Exec(Init(n), steps), e.args.slot)
    requires e in Exec(Init(n), steps).promises && e' in Exec(Init(n), steps).promises
    requires e.reply.reply.OK? && e'.reply.reply.OK?
    requires e.args.slot == e'.args.slot && e.reply.na == e'.reply.na > 0
    ensures e.reply.va == e'.reply.va
  {
    ReachedIsSafe(n, steps, e.args.slot);
    SameVote(Exec(Init(n), steps), e, e');
  }

  lemma {:induction false} RunWithoutDone(st: State, steps: seq<Step>)
    requires Allowed(st, steps) && forall i :: 0 <= i < |steps| ==> !steps[i].CallDone?
    ensures Exec(st, steps).marks == st.marks
    decreases |steps|
  {
    if steps != [] {
      assert Apply(st, steps[0]).marks == st.marks;
      RunWithoutDone(Apply(st, steps[0]), steps[1..]);
    }
  }

  /** Where nobody calls Done, a decision, once made, stays. */
  lemma DecidedForEver(n: nat, steps: seq<Step>, more: seq<Step>, a: nat, slot: int, v: Any)
    requires Allowed(Init(n), steps) && Allowed(Exec(Init(n), steps), more) && slot >= 0
    requires forall i :: 0 <= i < |steps| ==> !steps[i].CallDone?
    requires forall i :: 0 <= i < |more| ==> !more[i].CallDone?
    requires HasDecided(Exec(Init(n), steps), a, slot, v)
    ensures HasDecided(Exec(Exec(Init(n), steps), more), a, slot, v)
  {
    hide Inv, Apply, Enabled;
    InitInv(n);
    RunKeepsInv(Init(n), steps);
    RunWithoutDone(Init(n), steps);
    RunWithoutDone(Exec(Init(n), steps), more);
    RunGrows(Init(n), steps);
    assert Exec(Exec(Init(n), steps), more).marks[0] < slot;
    DecisionIsStable(Exec(Init(n), steps), more, a, slot, v);
  }
}
