/** What crashes can and cannot do to a tenure: what is down stays down, when a
    recovery succeeds, and when no recovery can succeed any more. */
module ParamProgress {
  import opened ParamProtocol
  import opened ParamInvariant
  import opened ParamTheorems
  import opened ParamServers

  /** A state that some tenure can get into. */
  ghost predicate Reached(t: Tenure, st: State) {
    exists p, b :: GoodStart(t, p, b) && Reach(t, Init(t, p, b), st)
  }

  lemma ReachedIsInv(t: Tenure, st: State)
    requires Reached(t, st)
    ensures Inv(t, st)
  {
    hide Inv, Allowed, Exec;
    var p, b :| GoodStart(t, p, b) && Reach(t, Init(t, p, b), st);
    var steps :| Allowed(t, Init(t, p, b), steps) && Exec(t, Init(t, p, b), steps) == st;
    ReachedIsSound(t, p, b, steps);
  }

  lemma SurvivedAtMost(t: Tenure, st: State)
    requires Reached(t, st)
    ensures st.survived <= st.failures
  {
    hide Contents, Roles, StartKept, Reached;
    ReachedIsInv(t, st);
  }

  // --- What is down stays down ---

  ghost predicate Fewer(st: State, st': State) {
    && |st'.servers| == |st.servers|
    && forall i: nat :: i < |st.servers| && Up(st', i) ==> Up(st, i)
  }

  lemma StepsRaiseNobody(t: Tenure, st: State, step: Step)
    requires Valid(t, st) && Enabled(t, st, step)
    ensures Fewer(st, Apply(t, st, step))
  {
    hide NewParams, InitParams, Read;
  }

  lemma {:induction false} NobodyRises(t: Tenure, st: State, steps: seq<Step>)
    requires Allowed(t, st, steps)
    ensures Fewer(st, Exec(t, st, steps))
    decreases |steps|
  {
    hide Apply, Enabled, Valid;
    if steps != [] {
      StepsRaiseNobody(t, st, steps[0]);
      NobodyRises(t, Apply(t, st, steps[0]), steps[1..]);
    }
  }

  lemma ReachKeeps(t: Tenure, st: State, st': State)
    requires Reached(t, st) && Reach(t, st, st')
    ensures Reached(t, st') && Fewer(st, st')
  {
    var p, b :| GoodStart(t, p, b) && Reach(t, Init(t, p, b), st);
    ReachTrans(t, Init(t, p, b), st, st');
    ReachFewer(t, st, st');
  }

  lemma ReachFewer(t: Tenure, st: State, st': State)
    requires Reach(t, st, st')
    ensures Fewer(st, st')
  {
    var steps :| Allowed(t, st, steps) && Exec(t, st, steps) == st';
    NobodyRises(t, st, steps);
  }

  // --- Failed writes ---

  /** The primary does not answer, or does not take itself for the primary, or its
      backup does not answer. */
  ghost predicate Broken(st: State)
    requires st.primary < |st.servers|
  {
    !Up(st, st.primary) || !st.servers[st.primary].role.Primary? || !BackupUp(st)
  }

  /** Nothing but a crashed primary or backup breaks a write. */
  lemma BrokenByCrash(t: Tenure, st: State)
    requires Reached(t, st) && st.pc.Probing? && st.primary < |st.servers| && Broken(st)
    ensures st.backup < |st.servers| && (!Up(st, st.primary) || !Up(st, st.backup))
  {
    hide Contents, Depths, StartKept, Reached;
    ReachedIsInv(t, st);
  }

  // --- Recovery ---

  /** The param node whose params recovery goes on with. */
  function Survivor(st: State): nat
    requires st.primary < |st.servers|
  {
    if Up(st, st.primary) then st.primary else st.backup
  }

  ghost predicate IsSpare(t: Tenure, st: State, survivor: nat, i: nat) {
    i < |st.servers| && i != survivor && i != t.me && Up(st, i)
  }

  lemma FewerSpares(t: Tenure, st: State, st': State, survivor: nat)
    requires Fewer(st, st')
    ensures forall i: nat :: !IsSpare(t, st, survivor, i) ==> !IsSpare(t, st', survivor, i)
  {
  }

  /** A param node is up, and so is some other node beside the leader. */
  ghost predicate CanRecover(t: Tenure, st: State)
    requires st.primary < |st.servers| && st.backup < |st.servers|
  {
    (Up(st, st.primary) || Up(st, st.backup)) && exists i: nat :: IsSpare(t, st, Survivor(st), i)
  }

  ghost predicate NobodyCrashed(st: State, st': State) { Fewer(st, st') && Fewer(st', st) }

  /** Two live role holders that know their roles and hold the same params. */
  ghost predicate Restored(t: Tenure, st: State) {
    && st.primary < |st.servers| && st.backup < |st.servers|
    && st.primary != st.backup && st.primary != t.me && st.backup != t.me
    && Up(st, st.primary) && Up(st, st.backup)
    && st.servers[st.primary].role.Primary? && st.servers[st.primary].backupAddr == Node(st.backup)
    && st.servers[st.backup].role.Backup?
    && st.servers[st.primary].params == st.servers[st.backup].params
  }

  lemma UpIsRestored(t: Tenure, st: State)
    requires Reached(t, st) && (st.pc.Ready? || st.pc.Stopped?)
    requires st.primary < |st.servers| && st.backup < |st.servers| && Up(st, st.primary) && Up(st, st.backup)
    ensures Restored(t, st)
  {
    hide StartKept, Reached;
    ReachedIsInv(t, st);
    assert Holds(t, st.servers[st.primary].params, st.depths[st.primary]);
    assert Holds(t, st.servers[st.backup].params, st.depths[st.backup]);
  }

  // --- Beyond recovery ---

  ghost predicate Orphaned(st: State)
    requires st.primary < |st.servers| && st.backup < |st.servers|
  {
    !Up(st, st.primary) && !Up(st, st.backup)
  }

  /** At most one node beside the leader is up. */
  ghost predicate Lonely(t: Tenure, st: State) {
    forall i: nat, j: nat :: i < |st.servers| && j < |st.servers| && i != t.me && j != t.me && Up(st, i) && Up(st, j)
                             ==> i == j
  }

  ghost predicate Hopeless(t: Tenure, st: State)
    requires st.primary < |st.servers| && st.backup < |st.servers|
  {
    Orphaned(st) || Lonely(t, st)
  }

  /** Roles stay, or go to nodes that were up, the primary's to a param node. */
  ghost predicate RolesMove(st: State, st': State)
    requires st.primary < |st.servers| && st.backup < |st.servers|
  {
    || (st'.primary == st.primary && st'.backup == st.backup)
    || (&& (st'.primary == st.primary || st'.primary == st.backup) && Up(st, st'.primary)
        && st'.backup < |st.servers| && Up(st, st'.backup))
  }

  lemma HopelessStays(t: Tenure, st: State, st': State)
    requires st.primary < |st.servers| && st.backup < |st.servers|
    requires st'.primary < |st'.servers| && st'.backup < |st'.servers|
    requires Hopeless(t, st) && Fewer(st, st') && RolesMove(st, st')
    ensures Hopeless(t, st')
    ensures st'.primary != t.me && st'.backup != t.me ==> !CanRecover(t, st')
  {
    forall i: nat | st'.primary != t.me && st'.backup != t.me && IsSpare(t, st', Survivor(st'), i)
      ensures Orphaned(st')
    {
      assert i != Survivor(st');
    }
  }

  lemma NoSurvivor(t: Tenure, st: State, st1: State)
    requires st1.primary == st.primary < |st.servers| && st1.backup == st.backup < |st.servers|
    requires Fewer(st, st1) && Orphaned(st1)
    ensures Hopeless(t, st1) && (NobodyCrashed(st, st1) ==> !CanRecover(t, st))
  {
  }

  /** The survivor answered in st1, and in st2 there is no spare for it. */
  lemma NoSpare(t: Tenure, st: State, st1: State, st2: State)
    requires st2.primary == st1.primary == st.primary < |st.servers|
    requires st2.backup == st1.backup == st.backup < |st.servers|
    requires Fewer(st, st1) && Fewer(st1, st2)
    requires forall i: nat :: !IsSpare(t, st2, Survivor(st1), i)
    ensures Hopeless(t, st2) && (NobodyCrashed(st, st2) ==> !CanRecover(t, st))
  {
    assert forall i: nat :: i < |st2.servers| && i != t.me && i != Survivor(st1) && Up(st2, i) ==>
      IsSpare(t, st2, Survivor(st1), i);
    if NobodyCrashed(st, st2) {
      forall i: nat
        ensures !IsSpare(t, st, Survivor(st), i)
      {
        assert !IsSpare(t, st2, Survivor(st1), i);
      }
    }
  }

  /** The roles that recovery hands out when nobody crashes meanwhile: the primary stays
      if it is up, or else the backup takes its place; and the first other node that
      is up becomes the backup. */
  ghost predicate FirstChoice(t: Tenure, st: State, primary: nat, backup: nat)
    requires st.primary < |st.servers| && st.backup < |st.servers|
  {
    && primary == (if Up(st, st.primary) then st.primary else st.backup)
    && backup < |st.servers| && Up(st, backup) && backup != primary && backup != t.me
    && forall i: nat :: i < backup && i != primary && i != t.me ==> !Up(st, i)
  }

  lemma SpareFound(t: Tenure, st: State, st1: State, st2: State, spare: nat)
    requires st1.primary == st.primary < |st.servers| && st1.backup == st.backup < |st.servers|
    requires Fewer(st, st1) && Fewer(st1, st2) && Survivor(st1) < |st.servers| && Up(st1, Survivor(st1))
    requires IsSpare(t, st2, Survivor(st1), spare)
    requires forall i: nat :: i < spare ==> !IsSpare(t, st2, Survivor(st1), i)
    ensures CanRecover(t, st) && Up(st, Survivor(st1)) && Up(st, spare)
    ensures Fewer(st2, st) ==> FirstChoice(t, st, Survivor(st1), spare)
  {
    forall i: nat | Fewer(st2, st) && i < spare && i != Survivor(st1) && i != t.me
      ensures !Up(st, i)
    {
      assert !IsSpare(t, st2, Survivor(st1), i);
    }
    if Survivor(st1) != Survivor(st) {
      assert !Up(st1, st.primary) && !Up(st2, st.primary);
    }
    assert IsSpare(t, st, Survivor(st), spare);
  }

  /** A write was lost to the crash of param node x, which then has no role any
      more, unless no recovery is possible. */
  ghost predicate LostTo(t: Tenure, st: State, st': State, x: nat)
    requires st'.primary < |st'.servers| && st'.backup < |st'.servers|
  {
    && (x == st.primary || x == st.backup)
    && x < |st'.servers| && !Up(st', x)
    && (Hopeless(t, st') || (st'.primary != x && st'.backup != x))
  }

  /** The servers that have crashed. */
  function Down(views: seq<Server>): set<nat> { set i: nat | i < |views| && !views[i].up }

  /** Every lost write is charged to a crashed server of its own. */
  ghost predicate Charged(st: State, dropped: set<nat>) {
    dropped <= Down(st.servers) && st.primary !in dropped && st.backup !in dropped
  }

  lemma ChargeStays(st: State, st': State, dropped: set<nat>)
    requires st.primary < |st.servers| && st.backup < |st.servers|
    requires Charged(st, dropped) && Fewer(st, st') && RolesMove(st, st')
    ensures Charged(st', dropped)
  {
    forall i | i in dropped
      ensures i in Down(st'.servers)
    {
      assert i in Down(st.servers);
      assert !Up(st, i);
    }
  }

  lemma ChargeOne(t: Tenure, st: State, st': State, dropped: set<nat>, x: nat)
    requires st.primary < |st.servers| && st.backup < |st.servers|
    requires st'.primary < |st'.servers| && st'.backup < |st'.servers|
    requires Charged(st, dropped) && Fewer(st, st') && RolesMove(st, st')
    requires LostTo(t, st, st', x) && !Hopeless(t, st')
    ensures Charged(st', dropped + {x}) && |dropped + {x}| == |dropped| + 1
  {
    ChargeStays(st, st', dropped);
  }

  lemma NothingCharged(st: State)
    ensures Charged(st, {})
  {
  }

  lemma ChargedAreDown(st: State, dropped: set<nat>)
    requires Charged(st, dropped)
    ensures |dropped| <= |Down(st.servers)|
  {
    var down := Down(st.servers);
    assert down == dropped + (down - dropped);
  }
}
