/** What every step of a tenure keeps: who has which role, and how many gradient
    steps deep every live copy of the params is. */
module ParamInvariant {
  import opened Gradients
  import opened ParamProtocol

  /** d full-batch gradient steps from the initial vector. */
  ghost function Deep(t: Tenure, d: nat): (w: Vec)
    requires t.Valid()
    ensures w != []
  {
    if d == 0 then t.start else FullStep(t.net, t.rows, Deep(t, d - 1))
  }

  /** These stored params are d steps deep; nothing is stored at depth 0. */
  ghost predicate Holds(t: Tenure, params: Vec, d: nat)
    requires t.Valid()
  {
    if d == 0 then params == [] else params == Deep(t, d)
  }

  ghost predicate Contents(t: Tenure, st: State)
    requires Valid(t, st)
  {
    && (forall i :: 0 <= i < t.n ==> Holds(t, st.servers[i].params, st.depths[i]))
    && match st.pc
       case Computing(w, d, source) => source.PlanC? || w == Deep(t, d)
       case Writing(w, d, source) => source.PlanC? || w == Deep(t, d + 1)
       case Replicating(w, d) => w == Deep(t, d + 1)
       case Storing(w, d) => w == Deep(t, d + 1)
       case Scanning(_, params, d, _) => Holds(t, params, d)
       case Promoting(_, params, d, _) => Holds(t, params, d)
       case Enlisting(_, params, d, _) => Holds(t, params, d)
       case Seeding(_, params, d, _) => Holds(t, params, d)
       case _ => true
  }

  // --- Roles ---

  ghost predicate OnlyPrimary(st: State, p: nat) {
    forall i :: 0 <= i < |st.servers| && st.servers[i].up && st.servers[i].role.Primary? ==> i == p
  }

  ghost predicate Leads(st: State, p: nat, b: nat)
    requires p < |st.servers|
  {
    Up(st, p) ==> st.servers[p].role.Primary? && st.servers[p].backupAddr == Node(b)
  }

  ghost predicate Follows(st: State, b: nat)
    requires b < |st.servers|
  {
    Up(st, b) ==> st.servers[b].role.Backup?
  }

  ghost predicate RolesAre(st: State, p: nat, b: nat)
    requires p < |st.servers| && b < |st.servers|
  {
    OnlyPrimary(st, p) && Leads(st, p, b) && Follows(st, b)
  }

  ghost predicate Survives(st: State, survivor: nat) {
    survivor == st.primary || survivor == st.backup
  }

  ghost predicate GoodSpare(t: Tenure, survivor: nat, spare: nat) {
    spare < t.n && spare != survivor && spare != t.me
  }

  ghost predicate Roles(t: Tenure, st: State)
    requires Valid(t, st)
  {
    && st.primary != st.backup && st.primary != t.me && st.backup != t.me
    && match st.pc
       case AssignPrimary => forall i :: 0 <= i < t.n ==> st.servers[i].role.NoRole?
       case AssignBackup => OnlyPrimary(st, st.primary) && Leads(st, st.primary, st.backup)
       case Scanning(s, _, _, _) => RolesAre(st, st.primary, st.backup) && Survives(st, s)
       case Promoting(s, _, _, spare) =>
         OnlyPrimaryIfUp(st, s) && RolesAre(st, st.primary, st.backup) && Survives(st, s) && GoodSpare(t, s, spare)
       case Enlisting(s, _, _, spare) =>
         OnlyPrimary(st, s) && Leads(st, s, spare) && Survives(st, s) && GoodSpare(t, s, spare)
       case Seeding(s, _, _, spare) => RolesAre(st, s, spare) && Survives(st, s) && GoodSpare(t, s, spare)
       case Committing(s, _, spare) => RolesAre(st, s, spare) && Survives(st, s) && GoodSpare(t, s, spare)
       case _ => RolesAre(st, st.primary, st.backup)
  }

  /** If the backup is the survivor, the primary is down. */
  ghost predicate OnlyPrimaryIfUp(st: State, s: nat)
    requires st.primary < |st.servers|
  {
    s != st.primary ==> !Up(st, st.primary)
  }

  // --- Depths ---

  /** One step per acknowledged write and per failed one that survived. */
  ghost predicate Exact(st: State, d: nat) { d == st.acked + st.survived }

  /** Each live role holder is this deep. */
  ghost predicate Level(st: State, d: nat)
    requires st.primary < |st.servers| == |st.depths| && st.backup < |st.servers|
  {
    (Up(st, st.primary) ==> st.depths[st.primary] == d) && (Up(st, st.backup) ==> st.depths[st.backup] == d)
  }

  ghost predicate From(st: State, d: nat, source: Source)
    requires st.primary < |st.servers| == |st.depths| && st.backup < |st.servers|
  {
    && Level(st, d)
    && (source.PlanC? || Exact(st, d))
    && (source.PlanB? ==> !Up(st, st.primary))
    && (source.PlanC? ==> !Up(st, st.primary) && !Up(st, st.backup))
  }

  /** The recovering leader's copy is as deep as the survivor. */
  ghost predicate Copied(st: State, survivor: nat, d: nat)
    requires survivor < |st.servers| == |st.depths|
  {
    Exact(st, d) && (Up(st, survivor) ==> st.depths[survivor] == d)
  }

  ghost predicate Depths(t: Tenure, st: State)
    requires Valid(t, st)
  {
    && st.acked == st.epoch + (if st.pc.Finishing? then 1 else 0)
    && st.survived <= st.failures
    && match st.pc
       case Computing(_, d, source) => From(st, d, source)
       case Writing(_, d, source) => From(st, d, source)
       case Replicating(_, d) => Level(st, d) && Exact(st, d)
       case Storing(_, d) =>
         && Exact(st, d)
         && (Up(st, st.primary) ==> st.depths[st.primary] == d)
         && (Up(st, st.backup) ==> st.depths[st.backup] == d + 1)
       case Replying(d) => Level(st, d + 1) && Exact(st, d)
       case Scanning(s, _, d, _) => Level(st, st.acked + st.survived) && Copied(st, s, d) && OnlyPrimaryIfUp(st, s)
       case Promoting(s, _, d, _) => Level(st, st.acked + st.survived) && Copied(st, s, d) && OnlyPrimaryIfUp(st, s)
       case Enlisting(s, _, d, _) => Level(st, st.acked + st.survived) && Copied(st, s, d) && OnlyPrimaryIfUp(st, s)
       case Seeding(s, _, d, _) => Level(st, st.acked + st.survived) && Copied(st, s, d) && OnlyPrimaryIfUp(st, s)
       case Committing(s, d, spare) => Level(st, st.acked + st.survived) && Copied(st, s, d) && Copied(st, spare, d)
       case _ => Level(st, st.acked + st.survived)
  }

  // --- The sidecar's model ---

  /** Once the leader's sidecar has trained, nothing that can still be fetched from
      a param server is empty, so nobody will ask it for initial params again. */
  ghost predicate StartKept(t: Tenure, st: State)
    requires Valid(t, st)
  {
    st.model != t.start ==>
      && (Up(st, st.primary) ==> st.depths[st.primary] > 0)
      && (Up(st, st.backup) ==> st.depths[st.backup] > 0)
      && (st.pc.Scanning? || st.pc.Promoting? || st.pc.Enlisting? || st.pc.Seeding? || st.pc.Committing? ==>
            st.pc.d > 0)
  }

  ghost predicate Inv(t: Tenure, st: State) {
    Valid(t, st) && Contents(t, st) && Roles(t, st) && Depths(t, st) && StartKept(t, st)
  }

  // --- Every step keeps it ---

  lemma KeepValid(t: Tenure, st: State, step: Step)
    requires Valid(t, st) && Enabled(t, st, step)
    ensures Valid(t, Apply(t, st, step))
  {
  }

  lemma CrashKeepsContents(t: Tenure, st: State, step: Step)
    requires Valid(t, st) && Contents(t, st) && Depths(t, st) && StartKept(t, st)
    requires Enabled(t, st, step) && step.Crash?
    requires Valid(t, Apply(t, st, step))
    ensures Contents(t, Apply(t, st, step))
  {
    hide ApplyWrite, ApplyRecover, NewParams, Deep, FullStep, InitParams;
  }

  /** A crash takes nobody's role, and says nothing about who else has one. */
  lemma CrashKeepsPosts(st: State, i: nat)
    requires i < |st.servers|
    ensures var st' := SetServer(st, i, st.servers[i].(up := false));
            && (forall p: nat :: OnlyPrimary(st, p) ==> OnlyPrimary(st', p))
            && (forall p: nat, b: nat :: p < |st.servers| && Leads(st, p, b) ==> Leads(st', p, b))
            && (forall b: nat :: b < |st.servers| && Follows(st, b) ==> Follows(st', b))
            && (forall s: nat :: st.primary < |st.servers| && OnlyPrimaryIfUp(st, s) ==> OnlyPrimaryIfUp(st', s))
  {
  }

  lemma CrashKeepsRoles(t: Tenure, st: State, step: Step)
    requires Valid(t, st) && Roles(t, st) && Depths(t, st)
    requires Enabled(t, st, step) && step.Crash?
    requires Valid(t, Apply(t, st, step))
    ensures Roles(t, Apply(t, st, step))
  {
    hide Depths, ApplyWrite, ApplyRecover, OnlyPrimary, Leads, Follows, OnlyPrimaryIfUp;
    CrashKeepsPosts(st, step.i);
  }

  lemma CrashKeepsDepths(t: Tenure, st: State, step: Step)
    requires Valid(t, st) && Roles(t, st) && Depths(t, st)
    requires Enabled(t, st, step) && step.Crash?
    requires Valid(t, Apply(t, st, step))
    ensures Depths(t, Apply(t, st, step))
  {
    hide ApplyWrite, ApplyRecover, NewParams, Deep, FullStep, InitParams;
  }

  lemma CrashKeepsStart(t: Tenure, st: State, step: Step)
    requires Valid(t, st) && Contents(t, st) && Roles(t, st) && Depths(t, st) && StartKept(t, st)
    requires Enabled(t, st, step) && step.Crash?
    requires Valid(t, Apply(t, st, step))
    ensures StartKept(t, Apply(t, st, step))
  {
    hide ApplyWrite, ApplyRecover, NewParams, Deep, FullStep, InitParams;
  }

  lemma FetchKeepsContents(t: Tenure, st: State, step: Step)
    requires Valid(t, st) && Contents(t, st) && Depths(t, st) && StartKept(t, st)
    requires Enabled(t, st, step) && (step.Fetch?)
    requires Valid(t, Apply(t, st, step))
    ensures Contents(t, Apply(t, st, step))
  {
    hide ApplyWrite, ApplyRecover, NewParams, FullStep;
  }

  lemma ComputeKeepsContents(t: Tenure, st: State, step: Step)
    requires Valid(t, st) && Contents(t, st) && Depths(t, st) && StartKept(t, st)
    requires Enabled(t, st, step) && (step.Compute?)
    requires Valid(t, Apply(t, st, step))
    ensures Contents(t, Apply(t, st, step))
  {
    hide ApplyWrite, ApplyRecover, NewParams, FullStep, Depths, StartKept;
    NewParamsIsFullStep(t, st.pc.w, step.order);
  }

  lemma StepHolds(t: Tenure, d: nat)
    requires t.Valid()
    ensures Holds(t, Deep(t, d + 1), d + 1)
  {
  }

  lemma WriteKeepsContents(t: Tenure, st: State, step: Step)
    requires Valid(t, st) && Contents(t, st) && Depths(t, st) && StartKept(t, st)
    requires Enabled(t, st, step) && (step.Write? || step.WriteFails?)
    requires Valid(t, Apply(t, st, step))
    ensures Contents(t, Apply(t, st, step))
  {
    if st.pc.Replicating? || st.pc.Storing? {
      StepHolds(t, st.pc.d);
    }
    hide ApplyRecover, NewParams, FullStep, Deep, Holds, Depths, StartKept, InitParams;
  }

  lemma PauseKeepsContents(t: Tenure, st: State, step: Step)
    requires Valid(t, st) && Contents(t, st) && Depths(t, st) && StartKept(t, st)
    requires Enabled(t, st, step) && (step.Assign? || step.FetchFails? || step.ComputeFails? || step.Finish?)
    requires Valid(t, Apply(t, st, step))
    ensures Contents(t, Apply(t, st, step))
  {
    hide ApplyWrite, ApplyRecover, NewParams, FullStep, Deep, Depths, StartKept;
  }

  lemma EpochKeepsContents(t: Tenure, st: State, step: Step)
    requires Valid(t, st) && Contents(t, st) && Depths(t, st) && StartKept(t, st)
    requires Enabled(t, st, step) && !step.Crash? && !step.Recover?
    requires Valid(t, Apply(t, st, step))
    ensures Contents(t, Apply(t, st, step))
  {
    hide Apply, Contents, Depths, StartKept, Enabled;
    match step
    case Fetch(_, _) => FetchKeepsContents(t, st, step);
    case Compute(_) => ComputeKeepsContents(t, st, step);
    case Write => WriteKeepsContents(t, st, step);
    case WriteFails => WriteKeepsContents(t, st, step);
    case _ => PauseKeepsContents(t, st, step);
  }

  lemma EpochKeepsRoles(t: Tenure, st: State, step: Step)
    requires Valid(t, st) && Roles(t, st) && Depths(t, st)
    requires Enabled(t, st, step) && !step.Crash? && !step.Recover?
    requires Valid(t, Apply(t, st, step))
    ensures Roles(t, Apply(t, st, step))
  {
  }

  lemma EpochKeepsDepths(t: Tenure, st: State, step: Step)
    requires Valid(t, st) && Roles(t, st) && Depths(t, st)
    requires Enabled(t, st, step) && !step.Crash? && !step.Recover? && !step.Write? && !step.WriteFails?
    requires Valid(t, Apply(t, st, step))
    ensures Depths(t, Apply(t, st, step))
  {
  }

  lemma EpochKeepsStart(t: Tenure, st: State, step: Step)
    requires Valid(t, st) && Contents(t, st) && Roles(t, st) && Depths(t, st) && StartKept(t, st)
    requires Enabled(t, st, step) && !step.Crash? && !step.Recover?
    requires Valid(t, Apply(t, st, step))
    ensures StartKept(t, Apply(t, st, step))
  {
  }

  lemma WriteKeepsDepths(t: Tenure, st: State, step: Step)
    requires Valid(t, st) && Roles(t, st) && Depths(t, st)
    requires Enabled(t, st, step) && (step.Write? || step.WriteFails?)
    requires Valid(t, Apply(t, st, step))
    ensures Depths(t, Apply(t, st, step))
  {
    hide ApplyRecover, NewParams, Deep, FullStep, InitParams;
  }

  lemma SearchKeepsContents(t: Tenure, st: State, step: Step)
    requires Valid(t, st) && Contents(t, st) && Depths(t, st) && StartKept(t, st)
    requires Enabled(t, st, step) && step.Recover? && (st.pc.Probing? || st.pc.Scanning?)
    requires Valid(t, Apply(t, st, step))
    ensures Contents(t, Apply(t, st, step))
  {
    hide ApplyWrite, NewParams, Deep, FullStep, InitParams;
  }

  lemma SearchKeepsRoles(t: Tenure, st: State, step: Step)
    requires Valid(t, st) && Roles(t, st) && Depths(t, st)
    requires Enabled(t, st, step) && step.Recover? && (st.pc.Probing? || st.pc.Scanning?)
    requires Valid(t, Apply(t, st, step))
    ensures Roles(t, Apply(t, st, step))
  {
    hide ApplyWrite, NewParams, Deep, FullStep, InitParams;
  }

  lemma SearchKeepsDepths(t: Tenure, st: State, step: Step)
    requires Valid(t, st) && Roles(t, st) && Depths(t, st)
    requires Enabled(t, st, step) && step.Recover? && (st.pc.Probing? || st.pc.Scanning?)
    requires Valid(t, Apply(t, st, step))
    ensures Depths(t, Apply(t, st, step))
  {
    hide ApplyWrite, NewParams, Deep, FullStep, InitParams;
  }

  lemma SearchKeepsStart(t: Tenure, st: State, step: Step)
    requires Valid(t, st) && Contents(t, st) && Roles(t, st) && Depths(t, st) && StartKept(t, st)
    requires Enabled(t, st, step) && step.Recover? && (st.pc.Probing? || st.pc.Scanning?)
    requires Valid(t, Apply(t, st, step))
    ensures StartKept(t, Apply(t, st, step))
  {
    hide ApplyWrite, NewParams, Deep, FullStep, InitParams;
  }

  lemma AppointKeepsContents(t: Tenure, st: State, step: Step)
    requires Valid(t, st) && Contents(t, st)
    requires Enabled(t, st, step) && step.Recover? && (st.pc.Promoting? || st.pc.Enlisting?)
    requires Valid(t, Apply(t, st, step))
    ensures Contents(t, Apply(t, st, step))
  {
    hide ApplyWrite, NewParams, Deep, FullStep, InitParams;
  }

  lemma AppointKeepsRoles(t: Tenure, st: State, step: Step)
    requires Valid(t, st) && Roles(t, st) && Depths(t, st)
    requires Enabled(t, st, step) && step.Recover? && (st.pc.Promoting? || st.pc.Enlisting?)
    requires Valid(t, Apply(t, st, step))
    ensures Roles(t, Apply(t, st, step))
  {
    hide ApplyWrite, NewParams, Deep, FullStep, InitParams;
  }

  lemma AppointKeepsDepths(t: Tenure, st: State, step: Step)
    requires Valid(t, st) && Roles(t, st) && Depths(t, st)
    requires Enabled(t, st, step) && step.Recover? && (st.pc.Promoting? || st.pc.Enlisting?)
    requires Valid(t, Apply(t, st, step))
    ensures Depths(t, Apply(t, st, step))
  {
    hide ApplyWrite, NewParams, Deep, FullStep, InitParams;
  }

  lemma AppointKeepsStart(t: Tenure, st: State, step: Step)
    requires Valid(t, st) && Roles(t, st) && Depths(t, st) && StartKept(t, st)
    requires Enabled(t, st, step) && step.Recover? && (st.pc.Promoting? || st.pc.Enlisting?)
    requires Valid(t, Apply(t, st, step))
    ensures StartKept(t, Apply(t, st, step))
  {
    hide ApplyWrite, NewParams, Deep, FullStep, InitParams;
  }

  lemma SeedKeepsContents(t: Tenure, st: State, step: Step)
    requires Valid(t, st) && Contents(t, st)
    requires Enabled(t, st, step) && step.Recover? && (st.pc.Seeding? || st.pc.Committing?)
    requires Valid(t, Apply(t, st, step))
    ensures Contents(t, Apply(t, st, step))
  {
    hide ApplyWrite, NewParams, Deep, FullStep, InitParams;
  }

  lemma SeedKeepsRoles(t: Tenure, st: State, step: Step)
    requires Valid(t, st) && Roles(t, st) && Depths(t, st)
    requires Enabled(t, st, step) && step.Recover? && (st.pc.Seeding? || st.pc.Committing?)
    requires Valid(t, Apply(t, st, step))
    ensures Roles(t, Apply(t, st, step))
  {
    hide ApplyWrite, NewParams, Deep, FullStep, InitParams;
  }

  lemma SeedKeepsDepths(t: Tenure, st: State, step: Step)
    requires Valid(t, st) && Roles(t, st) && Depths(t, st)
    requires Enabled(t, st, step) && step.Recover? && (st.pc.Seeding? || st.pc.Committing?)
    requires Valid(t, Apply(t, st, step))
    ensures Depths(t, Apply(t, st, step))
  {
    hide ApplyWrite, NewParams, Deep, FullStep, InitParams;
  }

  lemma SeedKeepsStart(t: Tenure, st: State, step: Step)
    requires Valid(t, st) && Roles(t, st) && Depths(t, st) && StartKept(t, st)
    requires Enabled(t, st, step) && step.Recover? && (st.pc.Seeding? || st.pc.Committing?)
    requires Valid(t, Apply(t, st, step))
    ensures StartKept(t, Apply(t, st, step))
  {
    hide ApplyWrite, NewParams, Deep, FullStep, InitParams;
  }

  lemma KeepCrash(t: Tenure, st: State, step: Step)
    requires Inv(t, st) && Enabled(t, st, step) && step.Crash?
    ensures Inv(t, Apply(t, st, step))
  {
    hide Apply, Contents, Roles, Depths, StartKept, Enabled;
    KeepValid(t, st, step);
    CrashKeepsContents(t, st, step);
    CrashKeepsRoles(t, st, step);
    CrashKeepsDepths(t, st, step);
    CrashKeepsStart(t, st, step);
  }

  lemma KeepEpoch(t: Tenure, st: State, step: Step)
    requires Inv(t, st) && Enabled(t, st, step) && !step.Crash? && !step.Recover?
    ensures Inv(t, Apply(t, st, step))
  {
    hide Apply, Contents, Roles, Depths, StartKept, Enabled;
    KeepValid(t, st, step);
    EpochKeepsContents(t, st, step);
    EpochKeepsRoles(t, st, step);
    if step.Write? || step.WriteFails? {
      WriteKeepsDepths(t, st, step);
    } else {
      EpochKeepsDepths(t, st, step);
    }
    EpochKeepsStart(t, st, step);
  }

  lemma KeepSearch(t: Tenure, st: State, step: Step)
    requires Inv(t, st) && Enabled(t, st, step) && step.Recover? && (st.pc.Probing? || st.pc.Scanning?)
    ensures Inv(t, Apply(t, st, step))
  {
    hide Apply, Contents, Roles, Depths, StartKept, Enabled;
    KeepValid(t, st, step);
    SearchKeepsContents(t, st, step);
    SearchKeepsRoles(t, st, step);
    SearchKeepsDepths(t, st, step);
    SearchKeepsStart(t, st, step);
  }

  lemma KeepAppoint(t: Tenure, st: State, step: Step)
    requires Inv(t, st) && Enabled(t, st, step) && step.Recover? && (st.pc.Promoting? || st.pc.Enlisting?)
    ensures Inv(t, Apply(t, st, step))
  {
    hide Apply, Contents, Roles, Depths, StartKept, Enabled;
    KeepValid(t, st, step);
    AppointKeepsContents(t, st, step);
    AppointKeepsRoles(t, st, step);
    AppointKeepsDepths(t, st, step);
    AppointKeepsStart(t, st, step);
  }

  lemma KeepSeed(t: Tenure, st: State, step: Step)
    requires Inv(t, st) && Enabled(t, st, step) && step.Recover? && (st.pc.Seeding? || st.pc.Committing?)
    ensures Inv(t, Apply(t, st, step))
  {
    hide Apply, Contents, Roles, Depths, StartKept, Enabled;
    KeepValid(t, st, step);
    SeedKeepsContents(t, st, step);
    SeedKeepsRoles(t, st, step);
    SeedKeepsDepths(t, st, step);
    SeedKeepsStart(t, st, step);
  }

  lemma KeepInv(t: Tenure, st: State, step: Step)
    requires Inv(t, st) && Enabled(t, st, step)
    ensures Inv(t, Apply(t, st, step))
  {
    if step.Crash? {
      KeepCrash(t, st, step);
    } else if !step.Recover? {
      KeepEpoch(t, st, step);
    } else if st.pc.Probing? || st.pc.Scanning? {
      KeepSearch(t, st, step);
    } else if st.pc.Promoting? || st.pc.Enlisting? {
      KeepAppoint(t, st, step);
    } else {
      KeepSeed(t, st, step);
    }
  }
}
