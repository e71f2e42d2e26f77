/** What holds in every run of a tenure, with crashes anywhere. */
module ParamTheorems {
  import opened Sums
  import opened Gradients
  import opened ParamProtocol
  import opened ParamInvariant

  /** becomeLeader's choice of param nodes. */
  ghost predicate GoodStart(t: Tenure, p: nat, b: nat) {
    t.Valid() && p < t.n && b < t.n && p != b && p != t.me && b != t.me
  }

  lemma InitInv(t: Tenure, p: nat, b: nat)
    requires GoodStart(t, p, b)
    ensures Inv(t, Init(t, p, b))
  {
  }

  lemma {:induction false} RunKeepsInv(t: Tenure, st: State, steps: seq<Step>)
    requires Inv(t, st) && Allowed(t, st, steps)
    ensures Inv(t, Exec(t, st, steps))
    decreases |steps|
  {
    if steps != [] {
      KeepInv(t, st, steps[0]);
      RunKeepsInv(t, Apply(t, st, steps[0]), steps[1..]);
    }
  }

  lemma ReachedIsSound(t: Tenure, p: nat, b: nat, steps: seq<Step>)
    requires GoodStart(t, p, b) && Allowed(t, Init(t, p, b), steps)
    ensures Inv(t, Exec(t, Init(t, p, b), steps))
  {
    hide Inv, Allowed, Exec;
    InitInv(t, p, b);
    RunKeepsInv(t, Init(t, p, b), steps);
  }

  /** What a copy stands for: a server never written to stands for the start. */
  function Meaning(t: Tenure, params: Vec): Vec { if params != [] then params else t.start }

  /** The update of a write under way that server i has stored already. */
  function Ahead(st: State, i: nat): nat {
    if st.pc.Replying? || st.pc.Finishing? || (st.pc.Storing? && i == st.backup) then 1 else 0
  }

  lemma LineageAt(t: Tenure, st: State, i: nat)
    requires Inv(t, st) && (i == st.primary || i == st.backup) && Up(st, i)
    ensures st.depths[i] == st.epoch + st.survived + Ahead(st, i)
    ensures Meaning(t, st.servers[i].params) == Deep(t, st.epoch + st.survived + Ahead(st, i))
    ensures st.survived <= st.failures
  {
    hide Roles, StartKept;
    assert Holds(t, st.servers[i].params, st.depths[i]);
  }

  /** Exact lineage. In every run, with any number of crashes, in the middle of
      writes and recoveries too, whatever the number of nodes and the order in
      which workers answer, a live current primary or backup holds one full-batch
      gradient step from the initial vector per completed epoch, and one per
      failed write that survived; plus one while a write is under way. */
  lemma Lineage(t: Tenure, p: nat, b: nat, steps: seq<Step>, i: nat)
    requires GoodStart(t, p, b) && Allowed(t, Init(t, p, b), steps)
    requires var st := Exec(t, Init(t, p, b), steps);
             (i == st.primary || i == st.backup) && i < |st.servers| && Up(st, i)
    ensures var st := Exec(t, Init(t, p, b), steps);
            && i < |st.depths| && st.depths[i] == st.epoch + st.survived + Ahead(st, i)
            && Meaning(t, st.servers[i].params) == Deep(t, st.epoch + st.survived + Ahead(st, i))
            && st.survived <= st.failures
  {
    hide Contents, Roles, Depths, StartKept, Allowed, Exec;
    ReachedIsSound(t, p, b, steps);
    LineageAt(t, Exec(t, Init(t, p, b), steps), i);
  }

  /** Epochs are exactly-once up to here if and only if no failed write survived.
      In particular they are when none has failed. */
  lemma ExactlyOnce(t: Tenure, p: nat, b: nat, steps: seq<Step>, i: nat)
    requires GoodStart(t, p, b) && Allowed(t, Init(t, p, b), steps)
    requires var st := Exec(t, Init(t, p, b), steps);
             && (st.pc.Ready? || st.pc.Stopped?)
             && (i == st.primary || i == st.backup) && i < |st.servers| && Up(st, i)
    ensures var st := Exec(t, Init(t, p, b), steps);
            && i < |st.depths|
            && (st.depths[i] == st.epoch <==> st.survived == 0)
            && (st.failures == 0 ==> st.survived == 0)
  {
    hide Allowed, Exec;
    Lineage(t, p, b, steps, i);
  }

  lemma FailedWriteAt(t: Tenure, st: State, i: nat)
    requires Inv(t, st) && Enabled(t, st, WriteFails) && (i == st.primary || i == st.backup) && Up(st, i)
    ensures st.pc.Writing? || st.pc.Replicating? || st.pc.Storing? || st.pc.Replying?
    ensures st.pc.d == st.epoch + st.survived
    ensures st.depths[i] == st.pc.d + (if Lingers(st) then 1 else 0)
  {
    hide Contents, StartKept;
  }

  /** When a failed update survives: every role holder that is still up is one step
      deeper than what the write started from exactly if the write got past the
      replication call and the primary is down. */
  lemma FailedWrite(t: Tenure, p: nat, b: nat, steps: seq<Step>, i: nat)
    requires GoodStart(t, p, b) && Allowed(t, Init(t, p, b), steps)
    requires var st := Exec(t, Init(t, p, b), steps);
             && Valid(t, st) && Enabled(t, st, WriteFails)
             && (i == st.primary || i == st.backup) && Up(st, i)
    ensures var st := Exec(t, Init(t, p, b), steps); var st' := Apply(t, st, WriteFails);
            && (st.pc.Writing? || st.pc.Replicating? || st.pc.Storing? || st.pc.Replying?)
            && st'.depths[i] == st.pc.d + (if Lingers(st) then 1 else 0)
            && Meaning(t, st'.servers[i].params) == Deep(t, st'.depths[i])
            && st'.survived == st.survived + (if Lingers(st) then 1 else 0)
            && st'.epoch + st'.survived == st'.depths[i]
  {
    hide Contents, Roles, Depths, StartKept, Allowed, Exec;
    ReachedIsSound(t, p, b, steps);
    FailedWriteAt(t, Exec(t, Init(t, p, b), steps), i);
    LineageAt(t, Exec(t, Init(t, p, b), steps), i);
  }

  /** What a visit to plan A or plan B of fetchParams finds, at the start of an
      epoch or for the accuracy at its end. */
  ghost predicate Fetches(t: Tenure, st: State, source: Source, file: Vec, loaded: bool, stop: bool)
    requires Valid(t, st)
  {
    !source.PlanC? && (Enabled(t, st, Fetch(source, file)) || Enabled(t, st, Finish(source, file, loaded, stop)))
  }

  lemma FetchAt(t: Tenure, st: State, source: Source, file: Vec, loaded: bool, stop: bool)
    requires Inv(t, st) && Fetches(t, st, source, file, loaded, stop)
    ensures InitParams(st, Read(st, source, file)) == Deep(t, st.acked + st.survived)
    ensures st.acked == st.epoch + (if st.pc.Finishing? then 1 else 0)
    ensures st.acked > 0 ==> Read(st, source, file) != []
  {
    hide Roles;
    assert ReadDepth(st, source) == st.acked + st.survived;
  }

  /** No acknowledged write is lost: what plan A or plan B of fetchParams returns
      has one step per acknowledged write and per failed one that survived, it is
      the vector of that depth even when it comes from the sidecar, and after the
      first acknowledged write it never comes from the sidecar. */
  lemma FetchIsDeep(t: Tenure, p: nat, b: nat, steps: seq<Step>, source: Source, file: Vec, loaded: bool, stop: bool)
    requires GoodStart(t, p, b) && Allowed(t, Init(t, p, b), steps)
    requires Valid(t, Exec(t, Init(t, p, b), steps))
    requires Fetches(t, Exec(t, Init(t, p, b), steps), source, file, loaded, stop)
    ensures var st := Exec(t, Init(t, p, b), steps);
            && InitParams(st, Read(st, source, file)) == Deep(t, st.acked + st.survived)
            && st.acked == st.epoch + (if st.pc.Finishing? then 1 else 0)
            && (st.acked > 0 ==> Read(st, source, file) != [])
  {
    hide Contents, Roles, Depths, StartKept, Allowed, Exec;
    ReachedIsSound(t, p, b, steps);
    FetchAt(t, Exec(t, Init(t, p, b), steps), source, file, loaded, stop);
  }

  /** Plan C may read any old checkpoint, but no write that started from one can
      ever reach a param server. */
  lemma CheckpointNeverLands(t: Tenure, p: nat, b: nat, steps: seq<Step>)
    requires GoodStart(t, p, b) && Allowed(t, Init(t, p, b), steps)
    requires var st := Exec(t, Init(t, p, b), steps);
             Valid(t, st) && st.pc.Writing? && st.pc.source.PlanC?
    ensures !Enabled(t, Exec(t, Init(t, p, b), steps), Write)
  {
    hide Allowed, Exec, StartKept;
    ReachedIsSound(t, p, b, steps);
  }

  /** Between two coordinator operations the recorded primary and backup are two
      nodes in range other than the leader; no live server but the recorded
      primary has the primary role, and its backup address is the recorded
      backup; and if both are up, they hold the same params. */
  lemma RolesAtRest(t: Tenure, p: nat, b: nat, steps: seq<Step>)
    requires GoodStart(t, p, b) && Allowed(t, Init(t, p, b), steps)
    requires var st := Exec(t, Init(t, p, b), steps); st.pc.Ready? || st.pc.Stopped?
    ensures var st := Exec(t, Init(t, p, b), steps);
            && |st.servers| == t.n && st.primary < t.n && st.backup < t.n
            && st.primary != st.backup && st.primary != t.me && st.backup != t.me
            && (forall i :: 0 <= i < t.n && st.servers[i].up && st.servers[i].role.Primary? ==>
                  i == st.primary && st.servers[i].backupAddr == Node(st.backup))
            && (Up(st, st.primary) ==> st.servers[st.primary].role.Primary?)
            && (Up(st, st.primary) && Up(st, st.backup) ==>
                  st.servers[st.primary].params == st.servers[st.backup].params)
  {
    var st := Exec(t, Init(t, p, b), steps);
    hide Allowed, Exec, StartKept;
    ReachedIsSound(t, p, b, steps);
    assert Holds(t, st.servers[st.primary].params, st.depths[st.primary]);
    assert Holds(t, st.servers[st.backup].params, st.depths[st.backup]);
  }

  // --- Failed writes do survive ---

  lemma {:induction false} ExecMore(t: Tenure, st: State, steps: seq<Step>, step: Step)
    requires Allowed(t, st, steps)
    requires Valid(t, Exec(t, st, steps)) && Enabled(t, Exec(t, st, steps), step)
    ensures Allowed(t, st, steps + [step])
    ensures Exec(t, st, steps + [step]) == Apply(t, Exec(t, st, steps), step)
    decreases |steps|
  {
    if steps == [] {
      assert [step][1..] == [];
      assert Allowed(t, Apply(t, st, step), []);
      assert steps + [step] == [step];
    } else {
      ExecMore(t, Apply(t, st, steps[0]), steps[1..], step);
      assert (steps + [step])[1..] == steps[1..] + [step];
    }
  }

  ghost predicate LeadsTo(t: Tenure, st: State, steps: seq<Step>, st': State) {
    Allowed(t, st, steps) && Exec(t, st, steps) == st' && Valid(t, st')
  }

  lemma LeadsOn(t: Tenure, st: State, steps: seq<Step>, st1: State, step: Step)
    requires LeadsTo(t, st, steps, st1) && Enabled(t, st1, step)
    ensures LeadsTo(t, st, steps + [step], Apply(t, st1, step))
  {
    ExecMore(t, st, steps, step);
    KeepValid(t, st1, step);
  }

  lemma FirstEpochStarts(t: Tenure, p: nat, b: nat) returns (steps: seq<Step>, st: State)
    requires GoodStart(t, p, b)
    ensures LeadsTo(t, Init(t, p, b), steps, st)
    ensures |st.servers| == |st.depths| == t.n && Up(st, p) && Up(st, b)
    ensures st.primary == p && st.backup == b && st.epoch == 0 && st.failures == 0 && st.survived == 0
    ensures st.pc == Writing(Deep(t, 1), 0, PlanA)
    ensures st.servers[p].role.Primary? && st.servers[p].backupAddr == Node(b)
  {
    var first := Init(t, p, b);
    assert LeadsTo(t, first, [], first);
    hide LeadsTo;
    LeadsOn(t, first, [], first, Assign);
    var st1 := Apply(t, first, Assign);
    LeadsOn(t, first, [] + [Assign], st1, Assign);
    var st2 := Apply(t, st1, Assign);
    LeadsOn(t, first, [] + [Assign] + [Assign], st2, Fetch(PlanA, []));
    var st3 := Apply(t, st2, Fetch(PlanA, []));
    LeadsOn(t, first, [] + [Assign] + [Assign] + [Fetch(PlanA, [])], st3, Compute(Range(t.n)));
    steps := [] + [Assign] + [Assign] + [Fetch(PlanA, [])] + [Compute(Range(t.n))];
    st := Apply(t, st3, Compute(Range(t.n)));
    NewParamsIsFullStep(t, t.start, Range(t.n));
    assert Deep(t, 0) == t.start;
  }

  /** A failed write does survive: when the primary crashes after the backup has
      stored the update, no epoch has completed and one write has failed, yet the
      backup is one step deep. */
  lemma FailedWriteSurvives(t: Tenure, p: nat, b: nat) returns (steps: seq<Step>, st: State)
    requires GoodStart(t, p, b)
    ensures Allowed(t, Init(t, p, b), steps) && Exec(t, Init(t, p, b), steps) == st
    ensures st.epoch == 0 && st.failures == 1 && st.survived == 1
    ensures st.backup == b && b < |st.servers| && Up(st, b) && st.servers[b].params == Deep(t, 1)
  {
    var first := Init(t, p, b);
    var steps1, st1 := FirstEpochStarts(t, p, b);
    hide LeadsTo;
    steps := steps1 + [Write] + [Write] + [Crash(p)] + [WriteFails];
    LeadsOn(t, first, steps1, st1, Write);
    var st2 := Apply(t, st1, Write);
    LeadsOn(t, first, steps1 + [Write], st2, Write);
    var st3 := Apply(t, st2, Write);
    LeadsOn(t, first, steps1 + [Write] + [Write], st3, Crash(p));
    var st4 := Apply(t, st3, Crash(p));
    LeadsOn(t, first, steps1 + [Write] + [Write] + [Crash(p)], st4, WriteFails);
    st := Apply(t, st4, WriteFails);
    Arrived(t, first, steps, st);
  }

  lemma Arrived(t: Tenure, st: State, steps: seq<Step>, st': State)
    requires LeadsTo(t, st, steps, st')
    ensures Allowed(t, st, steps) && Exec(t, st, steps) == st'
  {
  }
}
