/** The elected leader: its methods drive the workers and the param servers, epoch
    by epoch. Each method carries a ghost state of the protocol along and takes
    only its steps; the `Weather` of an iteration says which servers crash before
    which call, which workers answer, and which files and sidecars can be read. */
module Coordinator {
  import opened Sums
  import opened Sharding
  import opened Gradients
  import opened Losses
  import opened EarlyStopping
  import opened Convergence
  import opened ParamProtocol
  import opened ParamInvariant
  import opened ParamTheorems
  import opened ParamServers
  import opened ParamProgress

  // --- The weather ---

  /** Who crashes before call c. */
  type Storm = nat -> seq<nat>

  /** One worker's goroutine comes back before the timeout. */
  datatype Arrival = Arrival(id: nat, failed: bool, loss: real)

  /** What one visit to fetchParams finds beside the params in memory: what every
      node has on disk, and whether the leader's sidecar answers. */
  datatype Visit = Visit(crashes: Storm, files: seq<Checkpoint>, initOk: bool)

  datatype Weather = Weather(
    fetch: Visit,
    arrivals: seq<Arrival>,
    loaded: bool,
    write: Storm,
    backupReplies: bool,
    primaryReplies: bool,
    evaluate: Visit,
    evaluated: bool,
    probe: Storm,
    scan: Storm,
    assign: Storm)

  ghost predicate Blows(t: Tenure, storm: Storm) { forall c :: InCluster(t, storm(c)) }

  /** Crashes strike nodes of the cluster, and every worker comes back at most once. */
  ghost predicate Suits(t: Tenure, w: Weather) {
    && Blows(t, w.fetch.crashes) && Blows(t, w.write) && Blows(t, w.evaluate.crashes)
    && Blows(t, w.probe) && Blows(t, w.scan) && Blows(t, w.assign)
    && |w.fetch.files| == |w.evaluate.files| == t.n
    && Come(t, w.arrivals)
  }

  ghost predicate Come(t: Tenure, arrivals: seq<Arrival>) {
    && (forall k :: 0 <= k < |arrivals| ==> arrivals[k].id < t.n)
    && (forall j, k :: 0 <= j < k < |arrivals| ==> arrivals[j].id != arrivals[k].id)
  }

  // --- The workers ---

  /** ComputeGradient on a worker with its own shard. */
  function WorkerResult(t: Tenure, w: Vec, a: Arrival): Result
    requires t.Valid() && a.id < t.n
  {
    if a.failed then Result(a.id, [], 0, 0.0, true)
    else
      ShardNotEmpty(t.rows, t.n, a.id);
      var shard := Shard(t.rows, t.n, a.id);
      Result(a.id, LocalGradient(t.net, w, shard), |shard|, a.loss, false)
  }

  function WorkerResults(t: Tenure, w: Vec, arrivals: seq<Arrival>): (rs: seq<Result>)
    requires t.Valid() && forall k :: 0 <= k < |arrivals| ==> arrivals[k].id < t.n
  {
    seq(|arrivals|, k requires 0 <= k < |arrivals| => WorkerResult(t, w, arrivals[k]))
  }

  ghost predicate Truthful(t: Tenure, w: Vec, r: Result)
    requires t.Valid()
  {
    && r.nodeID < t.n
    && (!r.failed ==>
          var part := Shard(t.rows, t.n, r.nodeID);
          part != [] && r.rowCount == |part| && r.gradients == LocalGradient(t.net, w, part))
  }

  lemma {:induction false} SuccessesAreTruthful(t: Tenure, w: Vec, rs: seq<Result>)
    requires t.Valid() && forall k :: 0 <= k < |rs| ==> Truthful(t, w, rs[k])
    ensures forall k :: 0 <= k < |Successes(rs)| ==> !Successes(rs)[k].failed && Truthful(t, w, Successes(rs)[k])
  {
    if rs != [] {
      SuccessesAreTruthful(t, w, rs[..|rs| - 1]);
    }
  }

  /** The losses of the workers that answered. */
  function Reported(arrivals: seq<Arrival>): seq<real> {
    if arrivals == [] then []
    else
      var last := arrivals[|arrivals| - 1];
      Reported(arrivals[..|arrivals| - 1]) + if last.failed then [] else [last.loss]
  }

  function LossesOf(rs: seq<Result>): seq<real> {
    seq(|rs|, k requires 0 <= k < |rs| => rs[k].loss)
  }

  lemma {:induction false} ReportedAreCollected(t: Tenure, w: Vec, arrivals: seq<Arrival>)
    requires t.Valid() && forall k :: 0 <= k < |arrivals| ==> arrivals[k].id < t.n
    ensures LossesOf(Successes(WorkerResults(t, w, arrivals))) == Reported(arrivals)
  {
    if arrivals != [] {
      var front, last := arrivals[..|arrivals| - 1], arrivals[|arrivals| - 1];
      ReportedAreCollected(t, w, front);
      var rs := WorkerResults(t, w, arrivals);
      assert rs[..|rs| - 1] == WorkerResults(t, w, front);
      assert rs[|rs| - 1] == WorkerResult(t, w, last);
    }
  }

  /** delegateAll over workers that compute what they are asked to. With nobody on
      the failed list, the three lists average to the gradient over all rows. */
  method Delegate(t: Tenure, w: Vec, arrivals: seq<Arrival>)
    returns (gradients: seq<Vec>, rowCounts: seq<nat>, losses: seq<real>, failedIDs: seq<nat>, ghost order: seq<nat>)
    requires t.Valid() && Come(t, arrivals)
    ensures |gradients| == |rowCounts| == |losses| && losses == Reported(arrivals)
    ensures |losses| + |failedIDs| == t.n
    ensures failedIDs == [] ==>
      && FullHouse(t, order)
      && |gradients| > 0 && CountTotal(rowCounts) > 0 && (forall g :: g in gradients ==> |g| == |w|)
      && Aggregate(gradients, rowCounts) == LocalGradient(t.net, w, t.rows)
  {
    var results := WorkerResults(t, w, arrivals);
    forall k | 0 <= k < |results|
      ensures Truthful(t, w, results[k])
    {
      ShardNotEmpty(t.rows, t.n, arrivals[k].id);
    }
    forall id | id in Ids(results)
      ensures id in Range(t.n)
    {
      assert Range(t.n)[id] == id;
    }
    gradients, rowCounts, losses, failedIDs := DelegateAll(Range(t.n), results);
    order := Ids(Successes(results));
    SuccessesAreTruthful(t, w, results);
    ReportedAreCollected(t, w, arrivals);
    assert losses == LossesOf(Successes(results));
    assert |multiset(order) + multiset(failedIDs)| == |multiset(Range(t.n))|;
    if failedIDs == [] {
      assert multiset(order) + multiset(failedIDs) == multiset(order);
      CollectedIsCentral(t.net, w, t.rows, t.n, results, gradients, rowCounts, losses);
    }
  }

  // --- What fetchParams can find ---

  /** Node k has a checkpoint and answers. */
  predicate HasFile(views: seq<Server>, files: seq<Checkpoint>, k: nat)
    requires |files| == |views|
  {
    k < |views| && views[k].up && files[k].File?
  }

  /** These weights are the checkpoint of the first node that has one and answers. */
  ghost predicate FirstFile(views: seq<Server>, files: seq<Checkpoint>, w: Vec)
    requires |files| == |views|
  {
    exists k: nat :: HasFile(views, files, k) && files[k].weights == w
                     && forall j: nat :: j < k ==> !HasFile(views, files, j)
  }

  /** What initParams makes of these weights: an empty vector is replaced by what the
      leader's sidecar reports, if it answers. */
  ghost predicate Seeds(w: Vec, initOk: bool, model: Vec, ok: bool, p: Vec) {
    if w != [] then ok && p == w else ok == initOk && (ok ==> p == model)
  }

  // --- The leader ---

  /** The average of what the workers reported in some iteration. */
  ghost predicate Averaged(weathers: seq<Weather>, l: real) {
    exists w :: w in weathers && Reported(w.arrivals) != [] && l == Mean(Reported(w.arrivals))
  }

  ghost predicate AllAveraged(weathers: seq<Weather>, losses: seq<real>) {
    forall k :: 0 <= k < |losses| ==> Averaged(weathers, losses[k])
  }

  ghost predicate AllFair(t: Tenure, weathers: seq<Weather>) {
    forall k :: 0 <= k < |weathers| ==> Fair(t, weathers[k])
  }

  /** Every worker answers, and so does this node's sidecar. */
  ghost predicate Fair(t: Tenure, w: Weather) { w.fetch.initOk && |Reported(w.arrivals)| == t.n }

  /** writeParams before its call. */
  method NewWeights(oldWeights: Vec, gradients: Vec) returns (ok: bool, weights: Vec)
    ensures ok == (|gradients| == |oldWeights|)
    ensures ok ==> weights == Sgd(oldWeights, gradients)
    ensures ok ==> |weights| == |oldWeights| && forall i :: 0 <= i < |weights| ==>
      weights[i] == oldWeights[i] - 0.1 * gradients[i]
    ensures ok ==> Dot(Minus(weights, oldWeights), gradients) == -0.1 * Dot(gradients, gradients)
  {
    if |gradients| != |oldWeights| {
      return false, [];
    }
    weights := [];
    var i := 0;
    while i < |oldWeights|
      invariant i <= |oldWeights| && |weights| == i
      invariant forall k :: 0 <= k < i ==> weights[k] == oldWeights[k] - LEARNING_RATE * gradients[k]
    {
      weights := weights + [oldWeights[i] - LEARNING_RATE * gradients[i]];
      i := i + 1;
    }
    StepOpposesGradient(oldWeights, gradients);
    assert weights == Sgd(oldWeights, gradients);
    return true, weights;
  }

  class Leader {
    const me: nat
    var paramPrimaryID: nat
    var paramBackupID: nat
    var currentEpoch: nat
    var model: Vec // what this node's sidecar has loaded

    constructor (me: nat, primary: nat, backup: nat, model: Vec)
      ensures this.me == me && paramPrimaryID == primary && paramBackupID == backup
      ensures currentEpoch == 0 && this.model == model
    {
      this.me := me;
      paramPrimaryID := primary;
      paramBackupID := backup;
      currentEpoch := 0;
      this.model := model;
    }

    ghost predicate Tracks(t: Tenure, servers: seq<ParamServer>, st: State)
      reads this, servers
    {
      && Matches(t, servers, st)
      && me == t.me && paramPrimaryID == st.primary && paramBackupID == st.backup
      && currentEpoch == st.epoch && model == st.model
    }

    /** What may happen before a call: some servers crash. */
    method Before(t: Tenure, servers: seq<ParamServer>, crash: seq<nat>, ghost st: State, ghost st1: State)
      returns (ghost st': State)
      requires Tracks(t, servers, st1) && Reach(t, st, st1) && InCluster(t, crash)
      modifies servers
      ensures Tracks(t, servers, st') && Reach(t, st, st')
      ensures st' == st1.(servers := st'.servers)
      ensures forall i :: 0 <= i < t.n ==>
        st'.servers[i] == st1.servers[i] || st'.servers[i] == st1.servers[i].(up := false)
      ensures forall i :: 0 <= i < t.n ==> servers[i].View() == st'.servers[i]
    {
      st' := Strike(t, servers, crash, st1);
      ReachTrans(t, st, st1, st');
      forall i | 0 <= i < t.n
        ensures servers[i].View() == st'.servers[i]
      {
        assert servers[i].View() == Views(servers)[i];
      }
    }

    /** probeParamServer: a ReadParams call to one server. */
    method ProbeParamServer(t: Tenure, servers: seq<ParamServer>, i: nat, crash: seq<nat>,
                            ghost st: State, ghost st1: State)
      returns (ok: bool, p: Vec, ghost st': State)
      requires Tracks(t, servers, st1) && Reach(t, st, st1) && InCluster(t, crash) && i < t.n
      modifies servers
      ensures Tracks(t, servers, st') && Reach(t, st, st') && st' == st1.(servers := st'.servers)
      ensures forall k :: 0 <= k < t.n && !Up(st1, k) ==> !Up(st', k)
      ensures ok == Up(st', i) && p == if ok then st'.servers[i].params else []
    {
      st' := Before(t, servers, crash, st, st1);
      ok, p := servers[i].ReadParams();
    }

    /** becomeLeader's two SetRole calls. */
    method AssignRoles(t: Tenure, servers: seq<ParamServer>, crashes: Storm, ghost st: State) returns (ghost st': State)
      requires Tracks(t, servers, st) && st.pc.AssignPrimary? && Blows(t, crashes)
      modifies servers
      ensures Tracks(t, servers, st') && Reach(t, st, st') && st'.pc.Ready?
    {
      ReachSelf(t, st);
      st' := Before(t, servers, crashes(0), st, st);
      st' := AssignOne(t, servers, paramPrimaryID, Primary, Node(paramBackupID), st, st');
      st' := Before(t, servers, crashes(1), st, st');
      st' := AssignOne(t, servers, paramBackupID, Backup, NoAddress, st, st');
    }

    method AssignOne(t: Tenure, servers: seq<ParamServer>, i: nat, role: Role, addr: Address,
                     ghost st: State, ghost st1: State)
      returns (ghost st': State)
      requires Tracks(t, servers, st1) && Reach(t, st, st1)
      requires (st1.pc.AssignPrimary? && i == paramPrimaryID && role == Primary && addr == Node(paramBackupID))
            || (st1.pc.AssignBackup? && i == paramBackupID && role == Backup && addr == NoAddress)
      modifies servers
      ensures Tracks(t, servers, st') && Reach(t, st, st')
      ensures st'.pc == if st1.pc.AssignPrimary? then AssignBackup else Ready
    {
      assert servers[i].View() == Views(servers)[i];
      var _ := servers[i].SetRole(role, addr);
      ReachThen(t, st, st1, Assign);
      st' := Apply(t, st1, Assign);
      assert Views(servers) == st'.servers;
    }

    /** fetchParams: the primary's params if it is up, else the backup's if that is, else
        the first checkpoint of a node that is up; empty params are seeded from the
        leader's sidecar. With nobody to answer, or nothing to seed with, it fails. */
    method FetchParams(t: Tenure, servers: seq<ParamServer>, visit: Visit, ghost st: State)
      returns (ok: bool, p: Vec, ghost st': State)
      requires Tracks(t, servers, st) && st.pc.Ready? && Blows(t, visit.crashes) && |visit.files| == t.n
      modifies servers
      ensures Tracks(t, servers, st') && Reach(t, st, st')
      ensures Up(st', st'.primary) ==> Seeds(st'.servers[st'.primary].params, visit.initOk, model, ok, p)
      ensures !Up(st', st'.primary) && Up(st', st'.backup) ==>
        Seeds(st'.servers[st'.backup].params, visit.initOk, model, ok, p)
      ensures !Up(st', st'.primary) && !Up(st', st'.backup) ==>
        if exists k: nat :: k < t.n && st'.servers[k].up && visit.files[k].File?
        then exists w :: FirstFile(st'.servers, visit.files, w) && Seeds(w, visit.initOk, model, ok, p)
        else !ok
      ensures if ok then st'.pc.Computing? && st'.pc.w == p else st'.pc.Probing?
    {
      hide Reach;
      var source, read;
      ok, read, source, st' := ReadAnywhere(t, servers, visit, st);
      p := read;
      if ok && p == [] {
        ok, p := visit.initOk, model;
      }
      if ok {
        ReachThen(t, st, st', Fetch(source, read));
        st' := Apply(t, st', Fetch(source, read));
      } else {
        assert source.PlanC? || (Reachable(st', source) && Read(st', source, []) == []);
        ReachThen(t, st, st', FetchFails);
        st' := Apply(t, st', FetchFails);
      }
    }

    method ReadAnywhere(t: Tenure, servers: seq<ParamServer>, visit: Visit, ghost st: State)
      returns (ok: bool, p: Vec, source: Source, ghost st': State)
      requires Tracks(t, servers, st) && Blows(t, visit.crashes) && |visit.files| == t.n
      modifies servers
      ensures Tracks(t, servers, st') && Reach(t, st, st') && st' == st.(servers := st'.servers)
      ensures Reachable(st', source) && (ok ==> p == Read(st', source, p))
      ensures Up(st', st'.primary) ==> ok && p == st'.servers[st'.primary].params
      ensures !Up(st', st'.primary) && Up(st', st'.backup) ==> ok && p == st'.servers[st'.backup].params
      ensures !Up(st', st'.primary) && !Up(st', st'.backup) ==>
        && (ok <==> exists k: nat :: k < t.n && st'.servers[k].up && visit.files[k].File?)
        && (ok ==> FirstFile(st'.servers, visit.files, p))
    {
      hide Reach;
      ReachSelf(t, st);
      ok, p, st' := ProbeParamServer(t, servers, paramPrimaryID, visit.crashes(0), st, st);
      if ok {
        return ok, p, PlanA, st';
      }
      ok, p, st' := ProbeParamServer(t, servers, paramBackupID, visit.crashes(1), st, st');
      if ok {
        return ok, p, PlanB, st';
      }
      ok, p, st' := ReadCheckpoint(t, servers, visit, st, st');
      return ok, p, PlanC, st';
    }

    /** Plan C: the first peer, in order, that has a checkpoint and answers; it fails only
        if no peer does. */
    method ReadCheckpoint(t: Tenure, servers: seq<ParamServer>, visit: Visit, ghost st: State, ghost st1: State)
      returns (ok: bool, p: Vec, ghost st': State)
      requires Tracks(t, servers, st1) && Reach(t, st, st1) && Blows(t, visit.crashes) && |visit.files| == t.n
      modifies servers
      ensures Tracks(t, servers, st') && Reach(t, st, st') && st' == st1.(servers := st'.servers)
      ensures forall k :: 0 <= k < t.n && !Up(st1, k) ==> !Up(st', k)
      ensures ok <==> exists k: nat :: k < t.n && st'.servers[k].up && visit.files[k].File?
      ensures ok ==> FirstFile(st'.servers, visit.files, p)
    {
      hide Reach;
      st' := st1;
      var peer := 0;
      while peer < |servers|
        invariant peer <= |servers| == t.n
        invariant Tracks(t, servers, st') && Reach(t, st, st') && st' == st1.(servers := st'.servers)
        invariant forall k :: 0 <= k < t.n && !Up(st1, k) ==> !Up(st', k)
        invariant forall k: nat :: k < peer && st'.servers[k].up ==> visit.files[k].NoFile?
      {
        st' := Before(t, servers, visit.crashes(2 + peer), st, st');
        ok, p := servers[peer].LoadCheckpoint(visit.files[peer]);
        if ok {
          assert HasFile(st'.servers, visit.files, peer);
          return;
        }
        peer := peer + 1;
      }
      return false, [], st';
    }

    /** The write failed: count it and go to recovery. Something is wrong with the
        primary, or with the backup that it replicates to. */
    ghost method Fail(t: Tenure, servers: seq<ParamServer>, st: State, st1: State) returns (st': State)
      requires Tracks(t, servers, st1) && Reach(t, st, st1) && Enabled(t, st1, WriteFails)
      ensures Tracks(t, servers, st') && Reach(t, st, st') && st'.pc.Probing? && Broken(st')
    {
      ReachThen(t, st, st1, WriteFails);
      st' := Apply(t, st1, WriteFails);
    }

    /** WriteParams on the primary as the leader's call sees it. A reply of a
        server that has crashed in the meantime may or may not have got out. */
    method WriteParams(t: Tenure, servers: seq<ParamServer>, w: Vec, crashes: Storm,
                       backupReplies: bool, primaryReplies: bool, ghost st: State)
      returns (ok: bool, ghost st': State)
      requires Tracks(t, servers, st) && st.pc.Writing? && st.pc.w == w
      requires Blows(t, crashes)
      modifies servers
      ensures Tracks(t, servers, st') && Reach(t, st, st')
      ensures if ok then st'.pc.Finishing? else st'.pc.Probing? && Broken(st')
    {
      var addr: Address;
      ok, addr, st' := OpenAtPrimary(t, servers, crashes(0), st);
      if ok {
        ok, st' := ReplicateTo(t, servers, addr, w, crashes(1), st, st');
      }
      if ok {
        ok, st' := StoreAtPrimary(t, servers, addr, w, crashes(2), backupReplies, st, st');
      }
      if ok {
        ok, st' := AwaitReply(t, servers, crashes(3), primaryReplies, st, st');
      }
    }

    method OpenAtPrimary(t: Tenure, servers: seq<ParamServer>, crash: seq<nat>, ghost st: State)
      returns (ok: bool, addr: Address, ghost st': State)
      requires Tracks(t, servers, st) && st.pc.Writing? && InCluster(t, crash)
      modifies servers
      ensures Tracks(t, servers, st') && Reach(t, st, st')
      ensures if ok then st'.pc == Replicating(st.pc.w, st.pc.d) && addr == st'.servers[st'.primary].backupAddr
              else st'.pc.Probing? && Broken(st')
    {
      ReachSelf(t, st);
      st' := Before(t, servers, crash, st, st);
      ok, addr := servers[paramPrimaryID].OpenWrite();
      if !ok {
        st' := Fail(t, servers, st, st');
        return;
      }
      ReachThen(t, st, st', Write);
      st' := Apply(t, st', Write);
    }

    method ReplicateTo(t: Tenure, servers: seq<ParamServer>, addr: Address, w: Vec, crash: seq<nat>,
                       ghost st: State, ghost st1: State)
      returns (ok: bool, ghost st': State)
      requires Tracks(t, servers, st1) && Reach(t, st, st1) && InCluster(t, crash)
      requires st1.pc.Replicating? && st1.pc.w == w && addr == st1.servers[st1.primary].backupAddr
      modifies servers
      ensures Tracks(t, servers, st') && Reach(t, st, st')
      ensures if ok then st'.pc == Storing(w, st1.pc.d) && addr.Node? && addr.id < t.n
                         && addr == st'.servers[st'.primary].backupAddr
              else st'.pc.Probing? && Broken(st')
    {
      st' := Before(t, servers, crash, st, st1);
      if !servers[paramPrimaryID].up || addr == NoAddress {
        st' := Fail(t, servers, st, st');
        return false, st';
      }
      ok := servers[addr.id].ReplicateParams(w);
      if !ok {
        assert Views(servers) == st'.servers;
        st' := Fail(t, servers, st, st');
        return;
      }
      ReachThen(t, st, st', Write);
      st' := Apply(t, st', Write);
      assert Views(servers) == st'.servers;
    }

    method StoreAtPrimary(t: Tenure, servers: seq<ParamServer>, addr: Address, w: Vec, crash: seq<nat>,
                          backupReplies: bool, ghost st: State, ghost st1: State)
      returns (ok: bool, ghost st': State)
      requires Tracks(t, servers, st1) && Reach(t, st, st1) && InCluster(t, crash)
      requires st1.pc.Storing? && st1.pc.w == w
      requires addr.Node? && addr.id < t.n && addr == st1.servers[st1.primary].backupAddr
      modifies servers
      ensures Tracks(t, servers, st') && Reach(t, st, st')
      ensures if ok then st'.pc.Replying? else st'.pc.Probing? && Broken(st')
    {
      st' := Before(t, servers, crash, st, st1);
      if !servers[paramPrimaryID].up || (!servers[addr.id].up && !backupReplies) {
        st' := Fail(t, servers, st, st');
        return false, st';
      }
      servers[paramPrimaryID].CloseWrite(w);
      ReachThen(t, st, st', Write);
      st' := Apply(t, st', Write);
      assert Views(servers) == st'.servers;
      return true, st';
    }

    method AwaitReply(t: Tenure, servers: seq<ParamServer>, crash: seq<nat>, primaryReplies: bool,
                      ghost st: State, ghost st1: State)
      returns (ok: bool, ghost st': State)
      requires Tracks(t, servers, st1) && Reach(t, st, st1) && InCluster(t, crash) && st1.pc.Replying?
      modifies servers
      ensures Tracks(t, servers, st') && Reach(t, st, st')
      ensures if ok then st'.pc.Finishing? else st'.pc.Probing? && Broken(st')
    {
      st' := Before(t, servers, crash, st, st1);
      if !servers[paramPrimaryID].up && !primaryReplies {
        st' := Fail(t, servers, st, st');
        return false, st';
      }
      ReachThen(t, st, st', Write);
      st' := Apply(t, st', Write);
      return true, st';
    }

    // --- Recovery ---

    method Probe(t: Tenure, servers: seq<ParamServer>, crash: seq<nat>, crash': seq<nat>, ghost st: State)
      returns (found: bool, survivor: nat, p: Vec, ghost st': State)
      requires Tracks(t, servers, st) && st.pc.Probing? && InCluster(t, crash) && InCluster(t, crash')
      modifies servers
      ensures Tracks(t, servers, st') && Reach(t, st, st')
      ensures if found then st'.pc.Scanning? && st'.pc.survivor == survivor && st'.pc.params == p && st'.pc.i == 0
              else st'.pc.Ready?
      ensures if found then survivor == Survivor(st') && survivor < t.n && Up(st', survivor) else Orphaned(st')
    {
      hide Reach;
      ReachSelf(t, st);
      survivor := paramPrimaryID;
      found, p, st' := ProbeParamServer(t, servers, survivor, crash, st, st);
      if !found {
        survivor := paramBackupID;
        found, p, st' := ProbeParamServer(t, servers, survivor, crash', st, st');
      }
      ReachThen(t, st, st', Recover);
      st' := Apply(t, st', Recover);
    }

    /** The first node, in order, that answers and is neither the survivor nor the
        leader; none only if all of them are down. */
    method FindSpare(t: Tenure, servers: seq<ParamServer>, survivor: nat, crashes: Storm,
                     ghost st: State, ghost st1: State)
      returns (found: bool, spare: nat, ghost st': State)
      requires Tracks(t, servers, st1) && Reach(t, st, st1)
      requires st1.pc.Scanning? && st1.pc.survivor == survivor && st1.pc.i == 0
      requires Blows(t, crashes)
      modifies servers
      ensures Tracks(t, servers, st') && Reach(t, st, st') && Reach(t, st1, st')
      ensures if found then st'.pc == Promoting(survivor, st1.pc.params, st1.pc.d, spare) else st'.pc.Ready?
      ensures if found then
                IsSpare(t, st', survivor, spare) && forall i: nat :: i < spare ==> !IsSpare(t, st', survivor, i)
              else forall i: nat :: !IsSpare(t, st', survivor, i)
    {
      hide Reach;
      ReachSelf(t, st1);
      st' := st1;
      spare := 0;
      while spare < |servers|
        invariant spare <= |servers| == t.n
        invariant Tracks(t, servers, st') && Reach(t, st, st') && Reach(t, st1, st')
        invariant st'.pc == Scanning(survivor, st1.pc.params, st1.pc.d, spare)
        invariant forall i: nat :: i < spare ==> !IsSpare(t, st', survivor, i)
      {
        ghost var st2 := st';
        found, st' := ScanOne(t, servers, survivor, spare, crashes(spare), st1, st2);
        FewerSpares(t, st2, st', survivor);
        ReachTrans(t, st, st1, st');
        if found {
          return;
        }
        spare := spare + 1;
      }
      ReachThen(t, st1, st', Recover);
      ReachThen(t, st, st', Recover);
      found := false;
      FewerSpares(t, st', Apply(t, st', Recover), survivor);
      st' := Apply(t, st', Recover);
    }

    method ScanOne(t: Tenure, servers: seq<ParamServer>, survivor: nat, i: nat, crash: seq<nat>,
                   ghost st: State, ghost st1: State)
      returns (found: bool, ghost st': State)
      requires Tracks(t, servers, st1) && Reach(t, st, st1) && InCluster(t, crash) && i < t.n
      requires st1.pc.Scanning? && st1.pc.survivor == survivor && st1.pc.i == i
      modifies servers
      ensures Tracks(t, servers, st') && Reach(t, st, st')
      ensures st'.pc == if found then Promoting(survivor, st1.pc.params, st1.pc.d, i)
                        else Scanning(survivor, st1.pc.params, st1.pc.d, i + 1)
      ensures Fewer(st1, st') && found == IsSpare(t, st', survivor, i)
    {
      hide Reach;
      found := false;
      st' := st1;
      if i != survivor && i != me {
        var p;
        found, p, st' := ProbeParamServer(t, servers, i, crash, st, st1);
      }
      ReachThen(t, st, st', Recover);
      st' := Apply(t, st', Recover);
    }

    method Reassign(t: Tenure, servers: seq<ParamServer>, survivor: nat, spare: nat, p: Vec, crashes: Storm,
                    ghost st: State, ghost st1: State)
      returns (ghost st': State)
      requires Tracks(t, servers, st1) && Reach(t, st, st1)
      requires st1.pc.Promoting? && st1.pc.survivor == survivor && st1.pc.spare == spare && st1.pc.params == p
      requires Blows(t, crashes)
      modifies servers, this`paramPrimaryID, this`paramBackupID
      ensures Tracks(t, servers, st') && Reach(t, st, st') && st'.pc.Ready?
      ensures paramPrimaryID == survivor && paramBackupID == spare
    {
      st' := Instruct(t, servers, survivor, Primary, Node(spare), crashes(0), st, st1);
      st' := Instruct(t, servers, spare, Backup, NoAddress, crashes(1), st, st');
      st' := SeedSpare(t, servers, spare, p, crashes(2), st, st');
      st' := Commit(t, servers, survivor, spare, st, st');
    }

    /** The leader's own record of the new roles. */
    method Commit(t: Tenure, servers: seq<ParamServer>, survivor: nat, spare: nat, ghost st: State, ghost st1: State)
      returns (ghost st': State)
      requires Tracks(t, servers, st1) && Reach(t, st, st1)
      requires st1.pc.Committing? && st1.pc.survivor == survivor && st1.pc.spare == spare
      modifies this`paramPrimaryID, this`paramBackupID
      ensures Tracks(t, servers, st') && Reach(t, st, st') && st'.pc.Ready?
      ensures paramPrimaryID == survivor && paramBackupID == spare
    {
      ReachThen(t, st, st1, Recover);
      st' := Apply(t, st1, Recover);
      paramPrimaryID := survivor;
      paramBackupID := spare;
    }

    method SeedSpare(t: Tenure, servers: seq<ParamServer>, spare: nat, p: Vec, crash: seq<nat>,
                     ghost st: State, ghost st1: State)
      returns (ghost st': State)
      requires Tracks(t, servers, st1) && Reach(t, st, st1) && InCluster(t, crash)
      requires st1.pc.Seeding? && st1.pc.spare == spare && st1.pc.params == p
      modifies servers
      ensures Tracks(t, servers, st') && Reach(t, st, st')
      ensures st'.pc == Committing(st1.pc.survivor, st1.pc.d, spare)
    {
      st' := Before(t, servers, crash, st, st1);
      var _ := servers[spare].ReplicateParams(p);
      ReachThen(t, st, st', Recover);
      st' := Apply(t, st', Recover);
      assert Views(servers) == st'.servers;
    }

    /** One SetRole call of a recovery. */
    method Instruct(t: Tenure, servers: seq<ParamServer>, i: nat, role: Role, addr: Address, crash: seq<nat>,
                    ghost st: State, ghost st1: State)
      returns (ghost st': State)
      requires Tracks(t, servers, st1) && Reach(t, st, st1) && InCluster(t, crash) && i < t.n
      requires (st1.pc.Promoting? && i == st1.pc.survivor && role == Primary && addr == Node(st1.pc.spare))
            || (st1.pc.Enlisting? && i == st1.pc.spare && role == Backup && addr == NoAddress)
      modifies servers
      ensures Tracks(t, servers, st') && Reach(t, st, st')
      ensures st'.pc == if st1.pc.Promoting? then Enlisting(st1.pc.survivor, st1.pc.params, st1.pc.d, st1.pc.spare)
                        else Seeding(st1.pc.survivor, st1.pc.params, st1.pc.d, st1.pc.spare)
    {
      st' := Before(t, servers, crash, st, st1);
      var _ := servers[i].SetRole(role, addr);
      ReachThen(t, st, st', Recover);
      st' := Apply(t, st', Recover);
      assert Views(servers) == st'.servers;
    }

    /** runParamRecovery, whatever crashes before each of its calls. It gives the
        roles to nodes that were up, and gives up only when no recovery is possible;
        and if nobody crashes meanwhile, it succeeds exactly if a param node and a
        spare are up. */
    method RunParamRecovery(t: Tenure, servers: seq<ParamServer>, crashes: Storm,
                            scanCrashes: Storm, roleCrashes: Storm, ghost st: State)
      returns (recovered: bool, ghost st': State)
      requires Tracks(t, servers, st) && st.pc.Probing?
      requires Blows(t, crashes) && Blows(t, scanCrashes) && Blows(t, roleCrashes)
      modifies servers, this`paramPrimaryID, this`paramBackupID
      ensures Tracks(t, servers, st') && Reach(t, st, st') && st'.pc.Ready?
      ensures RolesMove(st, st')
      ensures if recovered then CanRecover(t, st) && Up(st, st'.primary) && Up(st, st'.backup)
              else Hopeless(t, st') && st'.primary == st.primary && st'.backup == st.backup
      ensures NobodyCrashed(st, st') ==> recovered == CanRecover(t, st)
      ensures NobodyCrashed(st, st') && recovered ==> FirstChoice(t, st, st'.primary, st'.backup)
    {
      hide Reach, Hopeless, CanRecover, FirstChoice;
      var survivor, spare, p;
      recovered, survivor, p, st' := Probe(t, servers, crashes(0), crashes(1), st);
      ghost var st1 := st';
      ReachFewer(t, st, st1);
      if !recovered {
        NoSurvivor(t, st, st1);
        return;
      }
      recovered, spare, st' := FindSpare(t, servers, survivor, scanCrashes, st, st1);
      ghost var st2 := st';
      ReachFewer(t, st1, st2);
      ReachFewer(t, st, st2);
      if !recovered {
        NoSpare(t, st, st1, st2);
        return;
      }
      ReachSelf(t, st2);
      st' := Reassign(t, servers, survivor, spare, p, roleCrashes, st2, st2);
      ReachTrans(t, st, st2, st');
      ReachFewer(t, st2, st');
      SpareFound(t, st, st1, st2, spare);
    }

    /** Recovery at the end of an iteration. From a param node and a spare that are
        up, and without a crash meanwhile, it restores two live copies. */
    method RecoverParams(t: Tenure, servers: seq<ParamServer>, weather: Weather, ghost st: State)
      returns (recovered: bool, ghost st': State)
      requires Reached(t, st) && Tracks(t, servers, st) && st.pc.Probing? && Suits(t, weather)
      modifies servers, this`paramPrimaryID, this`paramBackupID
      ensures Tracks(t, servers, st') && Reach(t, st, st') && st'.pc.Ready?
      ensures Reached(t, st') && Fewer(st, st') && RolesMove(st, st')
      ensures if recovered then Up(st, st'.primary) && Up(st, st'.backup) else Hopeless(t, st')
      ensures NobodyCrashed(st, st') && CanRecover(t, st) ==> Restored(t, st')
    {
      hide Reach, Reached, Hopeless, CanRecover, Restored;
      recovered, st' := RunParamRecovery(t, servers, weather.probe, weather.scan, weather.assign, st);
      ReachKeeps(t, st, st');
      if Up(st', st'.primary) && Up(st', st'.backup) {
        UpIsRestored(t, st');
      }
    }

    // --- Epochs ---

    /** An iteration up to the acknowledged write. Any failure on the way leads
        through recovery to the next iteration, with the epoch unchanged. In fair
        weather the only such failure is that the primary or the backup is down. */
    method TryEpoch(t: Tenure, servers: seq<ParamServer>, weather: Weather, ghost st: State)
      returns (written: bool, avgLoss: real, ghost lost: nat, ghost st': State)
      requires Reached(t, st) && Tracks(t, servers, st) && st.pc.Ready? && Suits(t, weather)
      modifies servers, this`paramPrimaryID, this`paramBackupID, this`model
      ensures Tracks(t, servers, st') && Reach(t, st, st') && RolesMove(st, st')
      ensures if written then st'.pc.Finishing? else st'.pc.Ready?
      ensures written ==> st'.primary == st.primary && st'.backup == st.backup
      ensures written ==> Reported(weather.arrivals) != [] && avgLoss == Mean(Reported(weather.arrivals))
      ensures Fair(t, weather) && !written ==> LostTo(t, st, st', lost)
    {
      hide Reach, Reached, Hopeless, LostTo;
      avgLoss, lost := 0.0, paramPrimaryID;
      var p;
      written, p, st' := FetchParams(t, servers, weather.fetch, st);
      ghost var st1 := st';
      ReachKeeps(t, st, st1);
      if !written {
        st' := RecoverWrite(t, servers, weather, lost, st, st1);
        return;
      }
      var gradients, rowCounts, losses, failedIDs;
      ghost var order;
      gradients, rowCounts, losses, failedIDs, order := Delegate(t, p, weather.arrivals);
      if |failedIDs| > 0 {
        st' := AbandonEpoch(t, servers, p, weather.loaded, st, st1);
        written := false;
        return;
      }
      var averaged := AggregateGradients(gradients, rowCounts);
      avgLoss := AverageLoss(losses);
      var _, weights := NewWeights(p, averaged[..]);
      st' := LoadModel(t, servers, p, order, st, st1);
      written, lost, st' := PushWeights(t, servers, weights, weather, st, st');
    }

    /** writeParams' call, with recovery if it fails. */
    method PushWeights(t: Tenure, servers: seq<ParamServer>, weights: Vec, weather: Weather,
                       ghost st: State, ghost st1: State)
      returns (written: bool, ghost lost: nat, ghost st': State)
      requires Reached(t, st) && Tracks(t, servers, st1) && Reach(t, st, st1) && Suits(t, weather)
      requires st1.pc.Writing? && st1.pc.w == weights && st1.primary == st.primary && st1.backup == st.backup
      modifies servers, this`paramPrimaryID, this`paramBackupID
      ensures Tracks(t, servers, st') && Reach(t, st, st') && RolesMove(st, st')
      ensures if written then st'.pc.Finishing? && st'.primary == st.primary && st'.backup == st.backup
              else st'.pc.Ready? && LostTo(t, st, st', lost)
    {
      hide Reach, Reached, Hopeless, LostTo, Broken;
      lost := paramPrimaryID;
      written, st' := WriteParams(t, servers, weights, weather.write,
                                  weather.backupReplies, weather.primaryReplies, st1);
      ReachTrans(t, st, st1, st');
      if !written {
        ghost var st2 := st';
        ReachKeeps(t, st, st2);
        BrokenByCrash(t, st2);
        lost := if Up(st2, st2.primary) then st2.backup else st2.primary;
        st' := RecoverWrite(t, servers, weather, lost, st, st2);
      }
    }

    /** Recovery after a fetch or a write that failed in state st1 of the iteration
        that began in st. */
    method RecoverWrite(t: Tenure, servers: seq<ParamServer>, weather: Weather, ghost lost: nat,
                        ghost st: State, ghost st1: State)
      returns (ghost st': State)
      requires Reached(t, st1) && Reach(t, st, st1) && Fewer(st, st1)
      requires Tracks(t, servers, st1) && st1.pc.Probing? && Suits(t, weather)
      requires st1.primary == st.primary && st1.backup == st.backup && (lost == st.primary || lost == st.backup)
      modifies servers, this`paramPrimaryID, this`paramBackupID
      ensures Tracks(t, servers, st') && Reach(t, st, st') && st'.pc.Ready? && RolesMove(st, st')
      ensures !Up(st1, lost) ==> LostTo(t, st, st', lost)
    {
      hide Reach, Reached, Hopeless, CanRecover, Restored;
      var recovered;
      recovered, st' := RecoverParams(t, servers, weather, st1);
      ReachTrans(t, st, st1, st');
    }

    /** Some worker failed: nothing is written, whatever the others computed. */
    method AbandonEpoch(t: Tenure, servers: seq<ParamServer>, p: Vec, loaded: bool, ghost st: State, ghost st1: State)
      returns (ghost st': State)
      requires Tracks(t, servers, st1) && Reach(t, st, st1) && st1.pc.Computing? && st1.pc.w == p
      modifies this`model
      ensures Tracks(t, servers, st') && Reach(t, st, st') && st'.pc.Ready?
    {
      ReachThen(t, st, st1, ComputeFails(loaded));
      st' := Apply(t, st1, ComputeFails(loaded));
      if loaded {
        model := p;
      }
    }

    /** Every worker answered: this node's sidecar has computed on p too. */
    method LoadModel(t: Tenure, servers: seq<ParamServer>, p: Vec, ghost order: seq<nat>,
                     ghost st: State, ghost st1: State)
      returns (ghost st': State)
      requires Tracks(t, servers, st1) && Reach(t, st, st1) && st1.pc.Computing? && st1.pc.w == p
      requires FullHouse(t, order)
      modifies this`model
      ensures Tracks(t, servers, st') && Reach(t, st, st')
      ensures st'.pc.Writing? && st'.pc.w == FullStep(t.net, t.rows, p)
    {
      ReachThen(t, st, st1, Compute(order));
      st' := Apply(t, st1, Compute(order));
      NewParamsIsFullStep(t, p, order);
      model := p;
    }

    /** Early stopping at the end of this epoch. */
    method WatchLoss(watch: Watch, avgLoss: real, epoch: nat) returns (stop: bool, watch': Watch)
      ensures watch' == Observe(watch, avgLoss)
      ensures watch.Fresh? || avgLoss < watch.best - MIN_LOSS_DELTA ==> watch' == Watching(avgLoss, 0)
      ensures watch.Watching? && avgLoss >= watch.best - MIN_LOSS_DELTA ==>
        watch' == Watching(watch.best, watch.patience + 1)
      ensures stop == (Patience(watch') >= PATIENCE || epoch + 1 >= MAX_EPOCHS)
    {
      if watch.Fresh? || avgLoss < watch.best - MIN_LOSS_DELTA {
        watch' := Watching(avgLoss, 0);
      } else {
        watch' := Watching(watch.best, watch.patience + 1);
        if watch'.patience >= PATIENCE {
          return true, watch';
        }
      }
      return epoch + 1 >= MAX_EPOCHS, watch';
    }

    /** evaluateAccuracy's fetch: what the sidecar loads, if it gets to evaluate. */
    method Evaluate(t: Tenure, servers: seq<ParamServer>, weather: Weather, ghost st: State)
      returns (loads: bool, p: Vec, read: Vec, source: Source, ghost st': State)
      requires Tracks(t, servers, st) && st.pc.Finishing? && Suits(t, weather)
      modifies servers
      ensures Tracks(t, servers, st') && Reach(t, st, st') && st' == st.(servers := st'.servers)
      ensures Reachable(st', source) && (loads ==> weather.evaluated && p == InitParams(st', Read(st', source, read)))
      ensures weather.evaluated && Up(st', st'.primary) && st'.servers[st'.primary].params != [] ==>
        loads && p == st'.servers[st'.primary].params
    {
      hide Reach;
      var visit := weather.evaluate;
      var ok;
      ok, read, source, st' := ReadAnywhere(t, servers, visit, st);
      p := read;
      if ok && p == [] {
        ok, p := visit.initOk, model;
      }
      loads := ok && weather.evaluated;
    }

    /** After the write: evaluate, count the epoch, and decide whether to stop. */
    method FinishEpoch(t: Tenure, servers: seq<ParamServer>, weather: Weather, watch: Watch, avgLoss: real,
                       ghost st: State)
      returns (stop: bool, watch': Watch, ghost st': State)
      requires Tracks(t, servers, st) && st.pc.Finishing? && Suits(t, weather)
      modifies servers, this`model, this`currentEpoch
      ensures Tracks(t, servers, st') && Reach(t, st, st')
      ensures currentEpoch == old(currentEpoch) + 1 && watch' == Observe(watch, avgLoss)
      ensures stop == (Patience(watch') >= PATIENCE || currentEpoch >= MAX_EPOCHS)
      ensures if stop then st'.pc.Stopped? else st'.pc.Ready?
      ensures !weather.evaluated ==> model == old(model)
      ensures weather.evaluated && Up(st', st'.primary) && st'.servers[st'.primary].params != [] ==>
        model == st'.servers[st'.primary].params
    {
      hide Reach;
      var epoch := currentEpoch;
      var loads, p, read, source;
      loads, p, read, source, st' := Evaluate(t, servers, weather, st);
      if loads {
        model := p;
      }
      currentEpoch := currentEpoch + 1;
      stop, watch' := WatchLoss(watch, avgLoss, epoch);
      ReachThen(t, st, st', Finish(source, read, loads, stop));
      st' := Apply(t, st', Finish(source, read, loads, stop));
    }

    /** One turn of epochLoop: it completes an epoch, or changes nothing of what
        early stopping looks at. In fair weather it completes one unless a param
        node is down; in particular after a recovery, if nobody crashes. */
    method Iterate(t: Tenure, servers: seq<ParamServer>, weather: Weather, watch: Watch,
                   ghost losses: seq<real>, ghost st: State)
      returns (stop: bool, watch': Watch, ghost losses': seq<real>, ghost lost: nat, ghost st': State)
      requires Reached(t, st) && Tracks(t, servers, st) && st.pc.Ready? && Suits(t, weather)
      requires currentEpoch == |losses| && watch == Track(losses) && !Stops(losses)
      modifies servers, this
      ensures Tracks(t, servers, st') && Reach(t, st, st') && RolesMove(st, st')
      ensures currentEpoch == |losses'| && watch' == Track(losses') && stop == Stops(losses')
      ensures if stop then st'.pc.Stopped? else st'.pc.Ready?
      ensures losses' == losses
           || (Reported(weather.arrivals) != [] && losses' == losses + [Mean(Reported(weather.arrivals))])
      ensures Fair(t, weather) && losses' == losses ==> LostTo(t, st, st', lost)
      ensures Fair(t, weather) && Restored(t, st) && NobodyCrashed(st, st') ==> |losses'| == |losses| + 1
    {
      hide Reach, Reached, Hopeless;
      stop, watch', losses' := false, watch, losses;
      var written, avgLoss;
      written, avgLoss, lost, st' := TryEpoch(t, servers, weather, st);
      if written {
        ghost var st1 := st';
        stop, watch', st' := FinishEpoch(t, servers, weather, watch, avgLoss, st1);
        ReachTrans(t, st, st1, st');
        losses' := losses + [avgLoss];
        assert losses'[..|losses|] == losses;
      }
    }

    /** epochLoop, for as many iterations as there is weather. `losses` are the
        averaged losses of the completed epochs. It stops exactly at the cap or when
        none of the last PATIENCE epochs set a record. In fair weather it loses at
        most one iteration to each crashed param server, unless both param nodes
        are gone or nobody is left to replace one. */
    method EpochLoop(t: Tenure, servers: seq<ParamServer>, weathers: seq<Weather>, ghost st: State)
      returns (ghost losses: seq<real>, ghost st': State)
      requires Reached(t, st) && Tracks(t, servers, st) && st.pc.Ready? && st.epoch == 0
      requires forall k :: 0 <= k < |weathers| ==> Suits(t, weathers[k])
      modifies servers, this
      ensures Tracks(t, servers, st') && Reach(t, st, st')
      ensures currentEpoch == |losses| && Completes(losses) && AllAveraged(weathers, losses)
      ensures forall k: nat :: k < |losses| ==> k < MAX_EPOCHS && !Plateau(losses[..k])
      ensures if |losses| >= MAX_EPOCHS || Plateau(losses) then st'.pc.Stopped? else st'.pc.Ready?
      ensures AllFair(t, weathers) && !Hopeless(t, st') ==>
        Stops(losses) || |losses| + |Down(st'.servers)| >= |weathers|
    {
      hide Reach, Reached, Hopeless, Charged;
      ReachSelf(t, st);
      st' := st;
      losses := [];
      ghost var dropped: set<nat> := {};
      NothingCharged(st);
      var watch := Fresh;
      var i := 0;
      var stop := false;
      while i < |weathers| && !stop
        invariant i <= |weathers|
        invariant Tracks(t, servers, st') && Reach(t, st, st') && Reached(t, st')
        invariant currentEpoch == |losses| && Completes(losses) && watch == Track(losses)
        invariant AllAveraged(weathers, losses)
        invariant stop == Stops(losses)
        invariant if stop then st'.pc.Stopped? else st'.pc.Ready?
        invariant Charged(st', dropped)
        invariant AllFair(t, weathers) ==> Hopeless(t, st') || i == |losses| + |dropped|
      {
        ghost var st1, before, lost := st', losses, 0;
        stop, watch, losses, lost, st' := Iterate(t, servers, weathers[i], watch, before, st1);
        ReachTrans(t, st, st1, st');
        ReachKeeps(t, st1, st');
        Extended(weathers, before, losses, weathers[i]);
        dropped := Charge(t, weathers[i], before, losses, lost, dropped, st1, st');
        i := i + 1;
      }
      ChargedAreDown(st', dropped);
      StopsExactly(losses);
      CompletesExactly(losses);
    }
  }

  /** The books after an iteration: a lost write is charged to its server. */
  lemma Charge(t: Tenure, w: Weather, losses: seq<real>, losses': seq<real>, lost: nat, dropped: set<nat>,
               st: State, st': State)
    returns (dropped': set<nat>)
    requires Valid(t, st) && Valid(t, st') && Charged(st, dropped) && Fewer(st, st') && RolesMove(st, st')
    requires losses' == losses || |losses'| == |losses| + 1
    requires Fair(t, w) && losses' == losses ==> LostTo(t, st, st', lost)
    ensures Charged(st', dropped')
    ensures Fair(t, w) && !Hopeless(t, st') ==>
      !Hopeless(t, st) && |losses'| + |dropped'| == |losses| + |dropped| + 1
  {
    hide Charged, LostTo, Fewer, RolesMove, Hopeless;
    ChargeStays(st, st', dropped);
    if Hopeless(t, st) {
      HopelessStays(t, st, st');
    }
    if Fair(t, w) && losses' == losses && !Hopeless(t, st') {
      ChargeOne(t, st, st', dropped, lost);
      dropped' := dropped + {lost};
    } else {
      dropped' := dropped;
    }
  }

  lemma Extended(weathers: seq<Weather>, losses: seq<real>, losses': seq<real>, w: Weather)
    requires Completes(losses) && !Stops(losses) && AllAveraged(weathers, losses) && w in weathers
    requires losses' == losses || (Reported(w.arrivals) != [] && losses' == losses + [Mean(Reported(w.arrivals))])
    ensures Completes(losses') && AllAveraged(weathers, losses')
  {
    if losses' != losses {
      assert losses'[..|losses|] == losses;
      assert Averaged(weathers, losses'[|losses|]);
    }
  }

  // --- Training ---

  /** Everyone is up and nobody has a role or params yet. */
  ghost predicate NewServers(t: Tenure, servers: seq<ParamServer>)
    reads servers
  {
    && |servers| == t.n
    && (forall i, j :: 0 <= i < j < |servers| ==> servers[i] != servers[j])
    && (forall i :: 0 <= i < |servers| ==> servers[i].View() == Server(true, NoRole, NoAddress, []))
  }

  lemma EndsWell(t: Tenure, p: nat, b: nat, servers: seq<ParamServer>, st: State)
    requires GoodStart(t, p, b) && Reach(t, Init(t, p, b), st) && Matches(t, servers, st)
    requires st.pc.Ready? || st.pc.Stopped?
    ensures st.primary < |servers| && st.backup < |servers| && st.survived <= st.failures
    ensures servers[st.primary].up ==>
      Meaning(t, servers[st.primary].params) == Deep(t, st.epoch + st.survived)
    ensures servers[st.backup].up ==>
      Meaning(t, servers[st.backup].params) == Deep(t, st.epoch + st.survived)
    ensures servers[st.primary].up && servers[st.backup].up ==>
      servers[st.primary].params == servers[st.backup].params
  {
    hide Reach, Deep, Meaning;
    assert Reached(t, st);
    SurvivedAtMost(t, st);
    if servers[st.primary].up {
      ObjectsHoldSteps(t, p, b, servers, st, st.primary);
    }
    if servers[st.backup].up {
      ObjectsHoldSteps(t, p, b, servers, st, st.backup);
    }
    ObjectsAgree(t, p, b, servers, st);
  }

  /** A tenure from its first assignment of roles on. However the weather is, no
      epoch completes after early stopping says so; a live primary or backup holds
      one full-batch gradient step from the initial vector per completed epoch and
      one per failed write that survived; if both are up they hold the same
      params; and in fair weather at most one iteration is lost to each crashed
      param server, unless recovery is impossible at the end. */
  method Train(t: Tenure, p: nat, b: nat, servers: seq<ParamServer>, assign: Storm, weathers: seq<Weather>)
    returns (leader: Leader, ghost losses: seq<real>, ghost st: State)
    requires GoodStart(t, p, b) && NewServers(t, servers)
    requires Blows(t, assign) && forall k :: 0 <= k < |weathers| ==> Suits(t, weathers[k])
    modifies servers
    ensures leader.currentEpoch == |losses| && Completes(losses) && AllAveraged(weathers, losses)
    ensures leader.paramPrimaryID < |servers| && leader.paramBackupID < |servers|
    ensures Reach(t, Init(t, p, b), st) && leader.Tracks(t, servers, st)
    ensures AllFair(t, weathers) && !Hopeless(t, st) ==>
      Stops(losses) || |losses| + |Down(Views(servers))| >= |weathers|
    ensures servers[leader.paramPrimaryID].up ==>
      Meaning(t, servers[leader.paramPrimaryID].params) == Deep(t, |losses| + st.survived)
    ensures servers[leader.paramBackupID].up ==>
      Meaning(t, servers[leader.paramBackupID].params) == Deep(t, |losses| + st.survived)
    ensures st.survived <= st.failures
    ensures servers[leader.paramPrimaryID].up && servers[leader.paramBackupID].up ==>
      servers[leader.paramPrimaryID].params == servers[leader.paramBackupID].params
  {
    hide Reach, Hopeless;
    leader := new Leader(t.me, p, b, t.start);
    ghost var first := Init(t, p, b);
    assert Views(servers) == first.servers;
    ReachSelf(t, first);
    assert Reached(t, first);
    ghost var st1 := leader.AssignRoles(t, servers, assign, first);
    ReachKeeps(t, first, st1);
    losses, st := leader.EpochLoop(t, servers, weathers, st1);
    ReachTrans(t, first, st1, st);
    EndsWell(t, p, b, servers, st);
  }
}
