/** The mutable param servers, and what it means that they are in a state of the
    protocol. */
module ParamServers {
  import opened Gradients
  import opened ParamProtocol
  import opened ParamInvariant
  import opened ParamTheorems

  /** What a node has on disk. */
  datatype Checkpoint = NoFile | File(weights: Vec)

  class ParamServer {
    var up: bool
    var role: Role
    var backupAddr: Address
    var params: Vec

    ghost function View(): Server
      reads this
    {
      Server(up, role, backupAddr, params)
    }

    constructor ()
      ensures View() == Server(true, NoRole, NoAddress, [])
    {
      up := true;
      role := NoRole;
      backupAddr := NoAddress;
      params := [];
    }

    method Crash()
      modifies this`up
      ensures View() == old(View()).(up := false)
    {
      up := false;
    }

    // --- RPC handlers, with the call's success: a server that is down does nothing ---

    method ReadParams() returns (ok: bool, p: Vec)
      ensures ok == up && p == if up then params else []
    {
      return up, if up then params else [];
    }

    /** The last params persisted on this node, if any. */
    method LoadCheckpoint(disk: Checkpoint) returns (ok: bool, p: Vec)
      ensures ok == (up && disk.File?) && p == if ok then disk.weights else []
    {
      if !up || disk.NoFile? {
        return false, [];
      }
      return true, disk.weights;
    }

    method ReplicateParams(p: Vec) returns (ok: bool)
      modifies this`params
      ensures ok == up
      ensures View() == if up then old(View()).(params := p) else old(View())
    {
      if up {
        params := p;
      }
      return up;
    }

    /** WriteParams' first critical section: only a primary goes on, with the
        address to replicate to. */
    method OpenWrite() returns (ok: bool, addr: Address)
      ensures ok == (up && role.Primary?)
      ensures addr == if ok then backupAddr else NoAddress
    {
      if !up || role != Primary {
        return false, NoAddress;
      }
      return true, backupAddr;
    }

    /** WriteParams' second critical section, after the backup has answered. */
    method CloseWrite(p: Vec)
      requires up
      modifies this`params
      ensures View() == old(View()).(params := p)
    {
      params := p;
    }

    method SetRole(role: Role, backupAddr: Address) returns (ok: bool)
      modifies this`role, this`backupAddr
      ensures ok == up
      ensures View() == if up then old(View()).(role := role, backupAddr := backupAddr) else old(View())
    {
      if up {
        this.role := role;
        this.backupAddr := backupAddr;
      }
      return up;
    }
  }

  // --- Runs ---

  ghost predicate Reach(t: Tenure, st: State, st': State) {
    exists steps :: Allowed(t, st, steps) && Exec(t, st, steps) == st'
  }

  lemma ReachSelf(t: Tenure, st: State)
    ensures Reach(t, st, st)
  {
    assert Allowed(t, st, []) && Exec(t, st, []) == st;
  }

  lemma ReachThen(t: Tenure, st: State, st1: State, step: Step)
    requires Reach(t, st, st1) && Valid(t, st1) && Enabled(t, st1, step)
    ensures Reach(t, st, Apply(t, st1, step))
  {
    var steps :| Allowed(t, st, steps) && Exec(t, st, steps) == st1;
    ExecMore(t, st, steps, step);
  }

  lemma ReachTrans(t: Tenure, a: State, b: State, c: State)
    requires Reach(t, a, b) && Reach(t, b, c)
    ensures Reach(t, a, c)
  {
    var s :| Allowed(t, a, s) && Exec(t, a, s) == b;
    var u :| Allowed(t, b, u) && Exec(t, b, u) == c;
    ExecAppend(t, a, s, u);
  }

  lemma {:induction false} ExecAppend(t: Tenure, st: State, s: seq<Step>, u: seq<Step>)
    requires Allowed(t, st, s) && Allowed(t, Exec(t, st, s), u)
    ensures Allowed(t, st, s + u) && Exec(t, st, s + u) == Exec(t, Exec(t, st, s), u)
    decreases |s|
  {
    if s == [] {
      assert s + u == u;
    } else {
      ExecAppend(t, Apply(t, st, s[0]), s[1..], u);
      assert (s + u)[1..] == s[1..] + u;
    }
  }

  // --- The servers as the protocol sees them ---

  ghost function Views(servers: seq<ParamServer>): (views: seq<Server>)
    reads servers
    ensures |views| == |servers|
  {
    seq(|servers|, i requires 0 <= i < |servers| reads servers => servers[i].View())
  }

  ghost predicate Matches(t: Tenure, servers: seq<ParamServer>, st: State)
    reads servers
  {
    && (forall i, j :: 0 <= i < j < |servers| ==> servers[i] != servers[j])
    && Valid(t, st) && Views(servers) == st.servers
  }

  ghost predicate InCluster(t: Tenure, who: seq<nat>) {
    forall k :: 0 <= k < |who| ==> who[k] < t.n
  }

  /** Some servers go down. */
  method Strike(t: Tenure, servers: seq<ParamServer>, who: seq<nat>, ghost st: State) returns (ghost st': State)
    requires Matches(t, servers, st) && InCluster(t, who)
    modifies servers
    ensures Matches(t, servers, st') && Reach(t, st, st')
    ensures st' == st.(servers := st'.servers)
    ensures forall i :: 0 <= i < t.n ==>
      st'.servers[i] == st.servers[i] || st'.servers[i] == st.servers[i].(up := false)
  {
    st' := st;
    ReachSelf(t, st);
    var k := 0;
    while k < |who|
      invariant k <= |who|
      invariant Matches(t, servers, st') && Reach(t, st, st')
      invariant st' == st.(servers := st'.servers)
      invariant forall i :: 0 <= i < t.n ==>
        st'.servers[i] == st.servers[i] || st'.servers[i] == st.servers[i].(up := false)
    {
      var i := who[k];
      ReachThen(t, st, st', Crash(i));
      st' := Apply(t, st', Crash(i));
      servers[i].Crash();
      assert Views(servers) == st'.servers;
      k := k + 1;
    }
  }

  /** What the objects hold in any state reached since the start of the tenure. */
  lemma ObjectsHoldSteps(t: Tenure, p: nat, b: nat, servers: seq<ParamServer>, st: State, i: nat)
    requires GoodStart(t, p, b) && Reach(t, Init(t, p, b), st) && Matches(t, servers, st)
    requires (i == st.primary || i == st.backup) && servers[i].up
    ensures Meaning(t, servers[i].params) == Deep(t, st.epoch + st.survived + Ahead(st, i))
    ensures st.survived <= st.failures
  {
    var steps :| Allowed(t, Init(t, p, b), steps) && Exec(t, Init(t, p, b), steps) == st;
    assert servers[i].View() == Views(servers)[i];
    Lineage(t, p, b, steps, i);
  }

  /** Between two operations a live primary and a live backup hold the same params. */
  lemma ObjectsAgree(t: Tenure, p: nat, b: nat, servers: seq<ParamServer>, st: State)
    requires GoodStart(t, p, b) && Reach(t, Init(t, p, b), st) && Matches(t, servers, st)
    requires st.pc.Ready? || st.pc.Stopped?
    ensures servers[st.primary].up && servers[st.backup].up ==>
      servers[st.primary].params == servers[st.backup].params
  {
    var steps :| Allowed(t, Init(t, p, b), steps) && Exec(t, Init(t, p, b), steps) == st;
    assert servers[st.primary].View() == Views(servers)[st.primary];
    assert servers[st.backup].View() == Views(servers)[st.backup];
    RolesAtRest(t, p, b, steps);
  }
}
