/** The parameter protocol during one leader's tenure: fetch, compute, write
    through the primary to the backup, recover, with any param server crashing at
    any moment, also in the middle of a write or of a recovery.

    A crashed server stays down. A call takes effect if and only if the callee is
    up, and a caller that crashes sends nothing more. */
module ParamProtocol {
  import opened Sums
  import opened Sharding
  import opened Gradients

  datatype Role = NoRole | Primary | Backup

  datatype Address = NoAddress | Node(id: nat)

  /** One param server: is it up, and its fields. `params` is [] until written. */
  datatype Server = Server(up: bool, role: Role, backupAddr: Address, params: Vec)

  /** What stays fixed over the tenure: the cluster size, the leader, the network
      and its data, and the vector every sidecar initialises to. */
  datatype Tenure = Tenure(n: nat, me: nat, net: Net, rows: seq<Row>, start: Vec)
  {
    ghost predicate Valid() {
      0 < n <= |rows| && me < n && start != []
    }
  }

  /** Where fetchParams found its params. */
  datatype Source = PlanA | PlanB | PlanC

  /** Where the leader's one goroutine stands. Every state before a remote call is
      a state of its own, so that a crash can come between any two calls. */
  datatype Pc =
    | AssignPrimary
    | AssignBackup
    | Ready
    | Computing(w: Vec, d: nat, source: Source)
    | Writing(w: Vec, d: nat, source: Source)
    | Replicating(w: Vec, d: nat)
    | Storing(w: Vec, d: nat)
    | Replying(d: nat)
    | Finishing
    | Probing
    | Scanning(survivor: nat, params: Vec, d: nat, i: nat)
    | Promoting(survivor: nat, params: Vec, d: nat, spare: nat)
    | Enlisting(survivor: nat, params: Vec, d: nat, spare: nat)
    | Seeding(survivor: nat, params: Vec, d: nat, spare: nat)
    | Committing(survivor: nat, d: nat, spare: nat)
    | Stopped

  /** `model` is what the leader's sidecar has loaded. History: `depths[i]` counts
      the gradient steps in server i's params, `acked` the successful writeParams,
      `failures` the failed ones, and `survived` those of the failed ones whose
      update stays with the backup. */
  datatype State = State(
    servers: seq<Server>,
    primary: nat,
    backup: nat,
    model: Vec,
    pc: Pc,
    epoch: nat,
    depths: seq<nat>,
    acked: nat,
    failures: nat,
    survived: nat)

  /** becomeLeader has just picked two param nodes other than itself. */
  function Init(t: Tenure, primary: nat, backup: nat): State {
    State(seq(t.n, i => Server(true, NoRole, NoAddress, [])), primary, backup,
          t.start, AssignPrimary, 0, seq(t.n, i => 0), 0, 0, 0)
  }

  ghost predicate Valid(t: Tenure, st: State) {
    && t.Valid()
    && |st.servers| == |st.depths| == t.n
    && st.primary < t.n && st.backup < t.n
    && (st.pc.Scanning? || st.pc.Promoting? || st.pc.Enlisting? || st.pc.Seeding? || st.pc.Committing? ==>
          st.pc.survivor < t.n)
    && (st.pc.Promoting? || st.pc.Enlisting? || st.pc.Seeding? || st.pc.Committing? ==> st.pc.spare < t.n)
    && (forall i :: 0 <= i < t.n && st.servers[i].backupAddr.Node? ==> st.servers[i].backupAddr.id < t.n)
  }

  function Up(st: State, i: nat): bool
    requires i < |st.servers|
  {
    st.servers[i].up
  }

  // --- Steps ---

  datatype Step =
    | Crash(i: nat)
    | Assign                         // the next SetRole call of becomeLeader
    | Fetch(source: Source, file: Vec) // fetchParams returns; `file` is what plan C reads
    | FetchFails
    | Compute(order: seq<nat>)       // every worker has answered, in this order
    | ComputeFails(loaded: bool)     // some worker has not; was the leader's sidecar loaded?
    | Write                          // the next call inside writeParams
    | WriteFails
    | Finish(source: Source, file: Vec, loaded: bool, stop: bool) // accuracy, then the next epoch
    | Recover                        // the next call inside runParamRecovery

  /** What fetchParams reads from this source. */
  function Read(st: State, source: Source, file: Vec): Vec
    requires st.primary < |st.servers| && st.backup < |st.servers|
  {
    match source
    case PlanA => st.servers[st.primary].params
    case PlanB => st.servers[st.backup].params
    case PlanC => file
  }

  function ReadDepth(st: State, source: Source): nat
    requires st.primary < |st.depths| && st.backup < |st.depths|
  {
    match source
    case PlanA => st.depths[st.primary]
    case PlanB => st.depths[st.backup]
    case PlanC => 0
  }

  /** Plan B is tried when the primary does not answer, plan C when neither does. */
  predicate Reachable(st: State, source: Source)
    requires st.primary < |st.servers| && st.backup < |st.servers|
  {
    match source
    case PlanA => Up(st, st.primary)
    case PlanB => !Up(st, st.primary) && Up(st, st.backup)
    case PlanC => !Up(st, st.primary) && !Up(st, st.backup)
  }

  /** initParams: empty params are replaced by what the leader's sidecar reports. */
  function InitParams(st: State, p: Vec): Vec { if p != [] then p else st.model }

  ghost predicate Enabled(t: Tenure, st: State, step: Step)
    requires Valid(t, st)
  {
    match step
    case Crash(i) => i < t.n
    case Assign => st.pc.AssignPrimary? || st.pc.AssignBackup?
    case Fetch(source, file) => st.pc.Ready? && Reachable(st, source)
    case FetchFails =>
      && st.pc.Ready?
      && (Reachable(st, PlanC) || exists s :: Reachable(st, s) && Read(st, s, []) == [])
    case Compute(order) => st.pc.Computing? && multiset(order) == multiset(Range(t.n))
    case ComputeFails(_) => st.pc.Computing?
    case Write =>
      (match st.pc
       case Writing(_, _, _) => Up(st, st.primary) && st.servers[st.primary].role.Primary?
       case Replicating(_, _) => Up(st, st.primary) && BackupUp(st)
       case Storing(_, _) => Up(st, st.primary)
       case Replying(_) => true
       case _ => false)
    case WriteFails =>
      (match st.pc
       case Writing(_, _, _) => !Up(st, st.primary) || !st.servers[st.primary].role.Primary?
       case Replicating(_, _) => !Up(st, st.primary) || !BackupUp(st)
       case Storing(_, _) => !Up(st, st.primary) || !BackupUp(st)
       case Replying(_) => !Up(st, st.primary)
       case _ => false)
    case Finish(source, file, _, _) => st.pc.Finishing? && Reachable(st, source)
    case Recover =>
      st.pc.Probing? || st.pc.Scanning? || st.pc.Promoting? || st.pc.Enlisting? || st.pc.Seeding? || st.pc.Committing?
  }

  /** The server at the primary's backupAddr answers. */
  predicate BackupUp(st: State)
    requires st.primary < |st.servers|
  {
    var a := st.servers[st.primary].backupAddr;
    a.Node? && a.id < |st.servers| && Up(st, a.id)
  }

  /** A write that fails here leaves its update behind: it got past the replication
      call, and the primary is down. */
  predicate Lingers(st: State)
    requires st.primary < |st.servers|
  {
    (st.pc.Storing? || st.pc.Replying?) && !Up(st, st.primary)
  }

  function SetServer(st: State, i: nat, s: Server): State
    requires i < |st.servers|
  {
    st.(servers := st.servers[i := s])
  }

  /** SetRole, lost if the server is down. */
  function SetRole(st: State, i: nat, role: Role, addr: Address): State
    requires i < |st.servers|
  {
    if Up(st, i) then SetServer(st, i, st.servers[i].(role := role, backupAddr := addr)) else st
  }

  /** The server stores these params, d steps deep. */
  function Put(st: State, i: nat, w: Vec, d: nat): State
    requires i < |st.servers| == |st.depths|
  {
    SetServer(st, i, st.servers[i].(params := w)).(depths := st.depths[i := d])
  }

  /** What the leader makes of all the workers' answers, in order of arrival. */
  function Parts(t: Tenure, order: seq<nat>): seq<seq<Row>>
    requires t.n > 0
  {
    seq(|order|, k requires 0 <= k < |order| => Shard(t.rows, t.n, order[k]))
  }

  ghost predicate FullHouse(t: Tenure, order: seq<nat>) {
    t.Valid() && multiset(order) == multiset(Range(t.n))
  }

  lemma NobodyIdle(t: Tenure, order: seq<nat>)
    requires FullHouse(t, order)
    ensures forall k :: 0 <= k < |order| ==> Parts(t, order)[k] != []
  {
    forall k | 0 <= k < |order|
      ensures Parts(t, order)[k] != []
    {
      assert order[k] in multiset(order);
      ShardNotEmpty(t.rows, t.n, order[k]);
    }
  }

  ghost function LocalGradients(t: Tenure, w: Vec, order: seq<nat>): (gs: seq<Vec>)
    requires FullHouse(t, order)
    ensures |gs| == |order|
  {
    NobodyIdle(t, order);
    seq(|order|, k requires 0 <= k < |order| => LocalGradient(t.net, w, Parts(t, order)[k]))
  }

  function Counts(t: Tenure, order: seq<nat>): (counts: seq<nat>)
    requires t.n > 0
    ensures |counts| == |order|
  {
    seq(|order|, k requires 0 <= k < |order| => |Parts(t, order)[k]|)
  }

  lemma AverageIsCentral(t: Tenure, w: Vec, order: seq<nat>)
    requires FullHouse(t, order)
    ensures |order| > 0 && CountTotal(Counts(t, order)) > 0
    ensures forall g :: g in LocalGradients(t, w, order) ==> |g| == |w|
    ensures Aggregate(LocalGradients(t, w, order), Counts(t, order)) == LocalGradient(t.net, w, t.rows)
  {
    NobodyIdle(t, order);
    ShardedIsCentral(t.net, w, t.rows, t.n, order, Parts(t, order), LocalGradients(t, w, order), Counts(t, order));
  }

  /** What writeParams sends when the workers have answered in this order. */
  ghost function NewParams(t: Tenure, w: Vec, order: seq<nat>): Vec
    requires FullHouse(t, order)
  {
    AverageIsCentral(t, w, order);
    Sgd(w, Aggregate(LocalGradients(t, w, order), Counts(t, order)))
  }

  /** Whatever the order of arrival, the leader makes one full-batch step. */
  lemma NewParamsIsFullStep(t: Tenure, w: Vec, order: seq<nat>)
    requires FullHouse(t, order)
    ensures NewParams(t, w, order) == FullStep(t.net, t.rows, w)
  {
    AverageIsCentral(t, w, order);
  }

  ghost function Apply(t: Tenure, st: State, step: Step): State
    requires Valid(t, st) && Enabled(t, st, step)
  {
    match step
    case Crash(i) => SetServer(st, i, st.servers[i].(up := false))
    case Assign =>
      if st.pc.AssignPrimary? then SetRole(st, st.primary, Primary, Node(st.backup)).(pc := AssignBackup)
      else SetRole(st, st.backup, Backup, NoAddress).(pc := Ready)
    case Fetch(source, file) =>
      st.(pc := Computing(InitParams(st, Read(st, source, file)), ReadDepth(st, source), source))
    case FetchFails => st.(pc := Probing)
    case Compute(order) =>
      st.(model := st.pc.w, pc := Writing(NewParams(t, st.pc.w, order), st.pc.d, st.pc.source))
    case ComputeFails(loaded) => st.(model := if loaded then st.pc.w else st.model, pc := Ready)
    case Write => ApplyWrite(t, st)
    case WriteFails =>
      st.(failures := st.failures + 1, survived := st.survived + (if Lingers(st) then 1 else 0), pc := Probing)
    case Finish(source, file, loaded, stop) =>
      st.(model := if loaded then InitParams(st, Read(st, source, file)) else st.model,
          epoch := st.epoch + 1, pc := if stop then Stopped else Ready)
    case Recover => ApplyRecover(t, st)
  }

  /** WriteParams on the primary: check the role, replicate, store, answer. The
      history records d + 1 steps for what is stored. */
  ghost function ApplyWrite(t: Tenure, st: State): State
    requires Valid(t, st) && Enabled(t, st, Write)
  {
    match st.pc
    case Writing(w, d, _) => st.(pc := Replicating(w, d))
    case Replicating(w, d) => Put(st, st.servers[st.primary].backupAddr.id, w, d + 1).(pc := Storing(w, d))
    case Storing(w, d) => Put(st, st.primary, w, d + 1).(pc := Replying(d))
    case Replying(d) => st.(acked := st.acked + 1, pc := Finishing)
  }

  /** runParamRecovery, call by call. */
  ghost function ApplyRecover(t: Tenure, st: State): State
    requires Valid(t, st) && Enabled(t, st, Recover)
  {
    match st.pc
    case Probing =>
      if Up(st, st.primary) then
        st.(pc := Scanning(st.primary, st.servers[st.primary].params, st.depths[st.primary], 0))
      else if Up(st, st.backup) then
        st.(pc := Scanning(st.backup, st.servers[st.backup].params, st.depths[st.backup], 0))
      else st.(pc := Ready)
    case Scanning(survivor, params, d, i) =>
      if i >= t.n then st.(pc := Ready)
      else if i == survivor || i == t.me || !Up(st, i) then st.(pc := Scanning(survivor, params, d, i + 1))
      else st.(pc := Promoting(survivor, params, d, i))
    case Promoting(survivor, params, d, spare) =>
      SetRole(st, survivor, Primary, Node(spare)).(pc := Enlisting(survivor, params, d, spare))
    case Enlisting(survivor, params, d, spare) =>
      SetRole(st, spare, Backup, NoAddress).(pc := Seeding(survivor, params, d, spare))
    case Seeding(survivor, params, d, spare) =>
      (if Up(st, spare) then Put(st, spare, params, d) else st).(pc := Committing(survivor, d, spare))
    case Committing(survivor, d, spare) => st.(primary := survivor, backup := spare, pc := Ready)
  }

  // --- Runs ---

  ghost predicate Allowed(t: Tenure, st: State, steps: seq<Step>)
    decreases |steps|
  {
    steps == [] ||
    (Valid(t, st) && Enabled(t, st, steps[0]) && Allowed(t, Apply(t, st, steps[0]), steps[1..]))
  }

  ghost function Exec(t: Tenure, st: State, steps: seq<Step>): State
    requires Allowed(t, st, steps)
    decreases |steps|
  {
    if steps == [] then st else Exec(t, Apply(t, st, steps[0]), steps[1..])
  }
}
