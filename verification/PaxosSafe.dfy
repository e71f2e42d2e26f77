/** Every step keeps a live slot safe. */
module PaxosSafe {
  import opened PaxosNode
  import opened PaxosProtocol
  import opened PaxosInvariant

  // --- Quorums ---

  function Below(n: nat): (s: set<nat>)
    ensures forall i: nat :: i in s <==> i < n
    ensures |s| == n
  {
    if n == 0 then {} else Below(n - 1) + {n - 1}
  }

  lemma SubsetSize(s: set<nat>, t: set<nat>)
    requires s <= t
    ensures |s| <= |t|
  {
    assert t == s + (t - s);
  }

  /** Two majorities of n peers share one. */
  lemma QuorumsMeet(q: set<nat>, q': set<nat>, n: nat) returns (a: nat)
    requires forall i: nat :: i in q || i in q' ==> i < n
    requires |q| >= n / 2 + 1 && |q'| >= n / 2 + 1
    ensures a in q && a in q'
  {
    if q * q' == {} {
      assert q + q' <= Below(n);
      SubsetSize(q + q', Below(n));
      assert false;
    }
    a :| a in q * q';
  }

  // --- Adoption ---

  /** Adoption is exact: the loop that starts at 0 and compares with a strict >
      ends on the highest reported vote and its value, and on (0, nil) exactly
      when no OK reply reported a positive vote. */
  lemma {:induction false} HighestIsHighest(rs: seq<PrepareReply>)
    ensures var (h, v) := Highest(rs);
            && h >= 0
            && (forall i :: 0 <= i < |rs| && rs[i].reply.OK? ==> rs[i].na <= h)
            && (h > 0 ==> exists i :: 0 <= i < |rs| && rs[i].reply.OK? && rs[i].na == h && rs[i].va == v)
            && (h == 0 ==> v == Nil)
  {
    if rs != [] {
      var front := rs[..|rs| - 1];
      HighestIsHighest(front);
      assert forall i :: 0 <= i < |front| ==> front[i] == rs[i];
    }
  }

  /** The value is taken from the highest vote, except that `v_adopted != nil`
      cannot tell a vote for nil from no vote at all. */
  lemma AdoptTakesHighestVote(rs: seq<PrepareReply>, own: Any)
    requires exists i :: 0 <= i < |rs| && rs[i].reply.OK? && rs[i].na > 0
    ensures var (h, v) := Highest(rs);
            && h > 0
            && (exists i :: 0 <= i < |rs| && rs[i].reply.OK? && rs[i].na == h && rs[i].va == v)
            && (Adopt(rs, own) == v <==> v != Nil || own == Nil)
  {
    HighestIsHighest(rs);
  }

  // --- Frames ---

  ghost predicate SameMemory(st: State, st': State, slot: int) {
    && |st'.nodes| == |st.nodes|
    && forall a :: 0 <= a < |st.nodes| ==>
         var ins, ins' := Lookup(st.nodes[a], slot), Lookup(st'.nodes[a], slot);
         ins'.np == ins.np && ins'.na == ins.na && ins'.va == ins.va
  }

  lemma JustifiedGrows(st: State, st': State, acc: AcceptArgs)
    requires Grounded(st, acc)
    requires |st'.nodes| == |st.nodes| && st.promises <= st'.promises
    ensures Grounded(st', acc)
  {
    var m, rs, own :| Justified(st, acc, m, rs, own);
    assert Justified(st', acc, m, rs, own);
  }

  lemma WonGrows(st: State, st': State, slot: int, v: Any)
    requires Won(st, slot, v)
    requires |st'.nodes| == |st.nodes| && st.accepts <= st'.accepts && st.votes <= st'.votes
    ensures Won(st', slot, v)
  {
    var acc, rs :| Elected(st, slot, v, acc, rs);
    assert Elected(st', slot, v, acc, rs);
  }

  /** Nothing about this slot's promises and votes happened. */
  lemma SafeFrame(st: State, st': State, slot: int)
    requires Safe(st, slot)
    requires SameMemory(st, st', slot)
    requires st'.promises == st.promises && st'.votes == st.votes && st.accepts <= st'.accepts
    requires forall m :: m in st'.accepts && m.slot == slot ==> m in st.accepts || Grounded(st', m)
    requires forall m :: m in st'.informs && m.slot == slot ==> m in st.informs || Won(st, slot, m.value)
    ensures Safe(st', slot)
  {
    forall a: nat | a < |st'.nodes|
      ensures AcceptorOk(st', slot, a)
    {
      assert AcceptorOk(st, slot, a);
    }
    forall m | m in st'.accepts && m.slot == slot
      ensures Grounded(st', m)
    {
      if m in st.accepts {
        JustifiedGrows(st, st', m);
      }
    }
    forall m | m in st'.informs && m.slot == slot
      ensures Won(st', slot, m.value)
    {
      WonGrows(st, st', slot, m.value);
    }
  }

  // --- Deliveries ---

  lemma VotedGrows(votes: set<AcceptExchange>, votes': set<AcceptExchange>, slot: int, a: nat, b: int, v: Any)
    requires Voted(votes, slot, a, b, v) && votes <= votes'
    ensures Voted(votes', slot, a, b, v)
  {
    var e :| e in votes && IsVote(e, slot, a, b, v);
    assert e in votes';
  }

  lemma AcceptorAfterPrepare(st: State, a: nat, m: PrepareArgs, slot: int, x: nat)
    requires Books(st) && Enabled(st, DeliverPrepare(a, m))
    requires x < |st.nodes| && AcceptorOk(st, slot, x)
    ensures AcceptorOk(Apply(st, DeliverPrepare(a, m)), slot, x)
  {
    PrepareFrame(st.nodes[a], m);
  }

  lemma FreshPromise(st: State, a: nat, m: PrepareArgs)
    requires Books(st) && Enabled(st, DeliverPrepare(a, m))
    requires AcceptorOk(st, m.slot, a)
    ensures var e := PrepareExchange(m, Prepare(st.nodes[a], m).1);
            e.reply.reply.OK? ==> PromiseOk(st.votes, e)
  {
  }

  lemma SafeDeliverPrepare(st: State, a: nat, m: PrepareArgs, slot: int)
    requires Books(st) && Enabled(st, DeliverPrepare(a, m)) && Safe(st, slot)
    ensures Safe(Apply(st, DeliverPrepare(a, m)), slot)
  {
    var st' := Apply(st, DeliverPrepare(a, m));
    forall x: nat | x < |st'.nodes|
      ensures AcceptorOk(st', slot, x)
    {
      AcceptorAfterPrepare(st, a, m, slot, x);
    }
    if m.slot == slot {
      FreshPromise(st, a, m);
    }
    forall acc | acc in st'.accepts && acc.slot == slot
      ensures Grounded(st', acc)
    {
      JustifiedGrows(st, st', acc);
    }
    forall i | i in st'.informs && i.slot == slot
      ensures Won(st', slot, i.value)
    {
      WonGrows(st, st', slot, i.value);
    }
  }

  /** Ballot 0 exists but never gains a promise, so no request carries it. */
  lemma GroundedPositive(st: State, acc: AcceptArgs)
    requires Safe(st, acc.slot) && acc in st.accepts
    ensures acc.ballot > 0
  {
    var m, rs, own :| Justified(st, acc, m, rs, own);
    var i :| i in PromiseSet(rs);
    assert PromiseOk(st.votes, PrepareExchange(m, rs[i]));
  }

  lemma AcceptorAfterAccept(st: State, a: nat, m: AcceptArgs, slot: int, x: nat)
    requires Books(st) && Enabled(st, DeliverAccept(a, m)) && m.value != Nil
    requires x < |st.nodes| && AcceptorOk(st, slot, x)
    requires m.slot == slot ==> m.ballot > 0
    ensures AcceptorOk(Apply(st, DeliverAccept(a, m)), slot, x)
  {
    AcceptFrame(st.nodes[a], m);
    var st' := Apply(st, DeliverAccept(a, m));
    var (nd, r) := Accept(st.nodes[a], m);
    var ins := Lookup(st.nodes[x], slot);
    if x == a && m.slot == slot && r.reply.OK? {
      var e := AcceptExchange(m, r);
      assert e in st'.votes && IsVote(e, slot, a, m.ballot, m.value);
    } else if ins.na > 0 {
      VotedGrows(st.votes, st'.votes, slot, x, ins.na, ins.va);
    }
  }

  /** An acceptor that promised a ballot accepts nothing below it, so what the
      promise reported stays its highest vote below that ballot. */
  lemma PromiseAfterAccept(st: State, a: nat, m: AcceptArgs, e: PrepareExchange)
    requires Books(st) && Enabled(st, DeliverAccept(a, m))
    requires e in st.promises && e.reply.reply.OK? && PromiseOk(st.votes, e)
    requires AcceptorOk(st, e.args.slot, a)
    ensures PromiseOk(Apply(st, DeliverAccept(a, m)).votes, e)
  {
    var st' := Apply(st, DeliverAccept(a, m));
    var r := e.reply;
    if r.na > 0 {
      VotedGrows(st.votes, st'.votes, e.args.slot, r.sender, r.na, r.va);
    }
  }

  lemma SafeDeliverAccept(st: State, a: nat, m: AcceptArgs, slot: int)
    requires Books(st) && Enabled(st, DeliverAccept(a, m)) && Safe(st, slot) && m.value != Nil
    ensures Safe(Apply(st, DeliverAccept(a, m)), slot)
  {
    var st' := Apply(st, DeliverAccept(a, m));
    if m.slot == slot {
      GroundedPositive(st, m);
    }
    forall x: nat | x < |st'.nodes|
      ensures AcceptorOk(st', slot, x)
    {
      AcceptorAfterAccept(st, a, m, slot, x);
    }
    forall e | e in st'.promises && e.reply.reply.OK? && e.args.slot == slot
      ensures PromiseOk(st'.votes, e)
    {
      PromiseAfterAccept(st, a, m, e);
    }
    forall acc | acc in st'.accepts && acc.slot == slot
      ensures Grounded(st', acc)
    {
      JustifiedGrows(st, st', acc);
    }
    forall i | i in st'.informs && i.slot == slot
      ensures Won(st', slot, i.value)
    {
      WonGrows(st, st', slot, i.value);
    }
  }

  // --- Closing a phase ---

  lemma SafeClosePrepare(st: State, k: nat, slot: int)
    requires Books(st) && Enabled(st, ClosePrepare(k)) && Safe(st, slot)
    ensures Safe(Apply(st, ClosePrepare(k)), slot)
  {
    hide Safe;
    var st' := Apply(st, ClosePrepare(k));
    var pr := st.procs[k];
    var Preparing(m, rs) := pr.phase;
    if |PromiseSet(rs)| >= |st.nodes| / 2 + 1 {
      var nd := st.nodes[pr.node];
      var acc := AcceptArgs(pr.slot, m.ballot, Adopt(rs, pr.v), nd.me, nd.done[nd.me]);
      assert Justified(st', acc, m, rs, pr.v);
    }
    SafeFrame(st, st', slot);
  }

  lemma SafeCloseAccept(st: State, k: nat, slot: int)
    requires Books(st) && Enabled(st, CloseAccept(k)) && Safe(st, slot)
    ensures Safe(Apply(st, CloseAccept(k)), slot)
  {
    hide Safe;
    var st' := Apply(st, CloseAccept(k));
    var pr := st.procs[k];
    var Accepting(acc, rs) := pr.phase;
    if |VoteSet(rs)| >= |st.nodes| / 2 + 1 {
      assert Elected(st, pr.slot, acc.value, acc, rs);
    }
    SafeFrame(st, st', slot);
  }

  // --- The other steps ---

  /** A live slot is above every node's minimum watermark, so it is never
      collected. */
  lemma LiveIsKept(st: State, slot: int, a: nat)
    requires Books(st) && Live(st, slot) && a < |st.nodes|
    ensures slot > Watermark(st.nodes[a])
  {
    var p :| 0 <= p < |st.marks| && st.marks[p] < slot;
    MinDoneIsMinimum(st.nodes[a].done, st.nodes[a].peers);
    assert st.nodes[a].done[p] <= st.marks[p];
  }

  lemma LiveBefore(st: State, step: Step, slot: int)
    requires Books(st) && Enabled(st, step) && Live(Apply(st, step), slot)
    ensures Live(st, slot)
  {
    var p :| 0 <= p < |st.marks| && Apply(st, step).marks[p] < slot;
    assert st.marks[p] < slot;
  }

  ghost predicate Calm(step: Step) {
    !step.DeliverPrepare? && !step.DeliverAccept? && !step.ClosePrepare? && !step.CloseAccept?
  }

  lemma StatusKeepsMemory(st: State, p: nat, s: int, slot: int)
    requires Books(st) && Live(st, slot) && p < |st.nodes|
    ensures Lookup(Status(st.nodes[p], s).0, slot) == Lookup(st.nodes[p], slot)
    ensures Lookup(Collect(st.nodes[p]), slot) == Lookup(st.nodes[p], slot)
  {
    LiveIsKept(st, slot, p);
    StatusFrame(st.nodes[p], s);
  }

  lemma MemoryStays(st: State, step: Step, slot: int)
    requires Books(st) && Enabled(st, step) && Live(st, slot) && Calm(step)
    ensures SameMemory(st, Apply(st, step), slot)
  {
    hide Counters, Unique, Lineage, Marks, Procs, Distinct, Status, Collect;
    match step
    case Check(k) => StatusKeepsMemory(st, st.procs[k].node, st.procs[k].slot, slot);
    case CallStatus(p, s) => StatusKeepsMemory(st, p, s, slot);
    case CallMin(p) => StatusKeepsMemory(st, p, slot, slot);
    case _ =>
  }

  lemma SafeOther(st: State, step: Step, slot: int)
    requires Books(st) && Enabled(st, step) && Safe(st, slot) && Live(st, slot) && Calm(step)
    ensures Safe(Apply(st, step), slot)
  {
    hide Safe, SameMemory;
    MemoryStays(st, step, slot);
    SafeFrame(st, Apply(st, step), slot);
  }

  lemma KeepSafe(st: State, step: Step)
    requires Books(st) && AllSafe(st) && Proposals(st) && Enabled(st, step)
    ensures AllSafe(Apply(st, step))
  {
    hide Apply, Safe;
    forall slot | Live(Apply(st, step), slot)
      ensures Safe(Apply(st, step), slot)
    {
      LiveBefore(st, step, slot);
      match step
      case DeliverPrepare(a, m) => SafeDeliverPrepare(st, a, m, slot);
      case DeliverAccept(a, m) => SafeDeliverAccept(st, a, m, slot);
      case ClosePrepare(k) => SafeClosePrepare(st, k, slot);
      case CloseAccept(k) => SafeCloseAccept(st, k, slot);
      case _ => SafeOther(st, step, slot);
    }
  }
}
