/** Ring replication of datastore.go: every node pushes its shard to its right
    neighbour, which can stand in for it. */
module RingReplication {
  import opened Numbers
  import opened Sums
  import opened Sharding
  import opened Gradients

  function Right(i: nat, n: nat): nat
    requires n > 0
  {
    (i + 1) % n
  }

  function Left(i: nat, n: nat): nat
    requires i < n
  {
    if i == 0 then n - 1 else i - 1
  }

  lemma RightIs(i: nat, n: nat)
    requires i < n
    ensures Right(i, n) == if i == n - 1 then 0 else i + 1
    ensures Right(i, n) < n
    ensures forall k: nat :: k < n ==> (Left(k, n) == i <==> k == Right(i, n))
  {
    if i == n - 1 {
      DivModOf(1, n, 0);
    } else {
      DivModOf(0, n, i + 1);
    }
  }

  // --- The stores ---

  datatype Rescue = Rows(rows: seq<Row>) | NotActivated

  class DataStore {
    const nodeID: nat
    var primaryShard: seq<Row>
    var replicaShard: seq<Row>
    var replicaActive: bool

    constructor (nodeID: nat, shard: seq<Row>)
      ensures this.nodeID == nodeID && primaryShard == shard
      ensures replicaShard == [] && !replicaActive
    {
      this.nodeID := nodeID;
      primaryShard := shard;
      replicaShard := [];
      replicaActive := false;
    }

    method GetShard() returns (rows: seq<Row>)
      ensures rows == primaryShard
    {
      rows := primaryShard;
    }

    method ReceiveReplica(rows: seq<Row>)
      modifies this`replicaShard
      ensures replicaShard == rows
    {
      replicaShard := rows;
    }

    method ActivateReplica()
      modifies this`replicaActive
      ensures replicaActive
    {
      replicaActive := true;
    }

    method GetRescuedShard() returns (r: Rescue)
      ensures r == if replicaActive then Rows(replicaShard) else NotActivated
    {
      if !replicaActive {
        return NotActivated;
      }
      return Rows(replicaShard);
    }
  }

  /** The sidecar's training data; `None` until a shard is loaded. */
  datatype Loaded = None | Some(rows: seq<Row>)

  class Sidecar {
    var data: Loaded

    constructor ()
      ensures data == None
    {
      data := None;
    }

    method LoadShard(rows: seq<Row>)
      modifies this
      ensures data == Some(rows)
    {
      data := Some(rows);
    }

    /** Appends rescued rows to what is already loaded. */
    method ReloadShard(rows: seq<Row>)
      modifies this
      ensures data == Some(if old(data).None? then rows else old(data).rows + rows)
    {
      if data.None? {
        LoadShard(rows);
      } else {
        data := Some(data.rows + rows);
      }
    }
  }

  /** The fate of one call over the network. */
  datatype Attempt = Unreached | ReplyLost | Acked

  ghost predicate Delivered(attempts: seq<Attempt>) {
    exists k :: 0 <= k < |attempts| && !attempts[k].Unreached?
  }

  /** Store i holds shard i. */
  ghost predicate Stocked(stores: seq<DataStore>, rows: seq<Row>)
    reads stores
  {
    && |stores| > 0
    && (forall i, j :: 0 <= i < j < |stores| ==> stores[i] != stores[j])
    && (forall i: nat :: i < |stores| ==> stores[i].primaryShard == Shard(rows, |stores|, i))
  }

  /** The push at the end of Make: `attempts` are the calls that fit in before the
      deadline, and the first acknowledged one is the last. */
  method PushReplica(stores: seq<DataStore>, nodeID: nat, rows: seq<Row>, attempts: seq<Attempt>)
    requires Stocked(stores, rows) && nodeID < |stores| && Right(nodeID, |stores|) < |stores|
    modifies stores[Right(nodeID, |stores|)]
    ensures Stocked(stores, rows)
    ensures stores[Right(nodeID, |stores|)].replicaShard ==
      if Delivered(attempts) then Shard(rows, |stores|, nodeID) else old(stores[Right(nodeID, |stores|)].replicaShard)
    ensures forall k: nat :: k < |stores| && k != Right(nodeID, |stores|) ==>
      stores[k].replicaShard == old(stores[k].replicaShard)
    ensures forall k: nat :: k < |stores| ==> stores[k].replicaActive == old(stores[k].replicaActive)
  {
    DeliveredAll(attempts, 0);
    hide Delivered, Shard;
    var rightNeighbor := (nodeID + 1) % |stores|;
    ghost var before := stores[rightNeighbor].replicaShard;
    var k := 0;
    var acked := false;
    while k < |attempts| && !acked
      invariant k <= |attempts| && Stocked(stores, rows)
      invariant acked ==> Delivered(attempts[..k])
      invariant stores[rightNeighbor].replicaShard ==
        if Delivered(attempts[..k]) then Shard(rows, |stores|, nodeID) else before
      invariant forall j: nat :: j < |stores| && j != rightNeighbor ==>
        stores[j].replicaShard == old(stores[j].replicaShard)
      invariant forall j: nat :: j < |stores| ==> stores[j].replicaActive == old(stores[j].replicaActive)
    {
      DeliveredMore(attempts, k);
      if !attempts[k].Unreached? {
        stores[rightNeighbor].ReceiveReplica(stores[nodeID].primaryShard);
      }
      acked := attempts[k].Acked?;
      k := k + 1;
    }
    DeliveredAll(attempts, k);
  }

  lemma DeliveredMore(attempts: seq<Attempt>, k: nat)
    requires k < |attempts|
    ensures Delivered(attempts[..k + 1]) <==> Delivered(attempts[..k]) || !attempts[k].Unreached?
  {
    if Delivered(attempts[..k]) {
      var j :| 0 <= j < k && !attempts[..k][j].Unreached?;
      assert !attempts[..k + 1][j].Unreached?;
    }
    if !attempts[k].Unreached? {
      assert !attempts[..k + 1][k].Unreached?;
    }
    if Delivered(attempts[..k + 1]) && attempts[k].Unreached? {
      var j :| 0 <= j < k + 1 && !attempts[..k + 1][j].Unreached?;
      assert !attempts[..k][j].Unreached?;
    }
  }

  lemma DeliveredAll(attempts: seq<Attempt>, k: nat)
    requires k <= |attempts|
    ensures !Delivered(attempts[..0])
    ensures Delivered(attempts[..k]) ==> Delivered(attempts)
    ensures k == |attempts| ==> (Delivered(attempts[..k]) <==> Delivered(attempts))
  {
    assert k == |attempts| ==> attempts[..k] == attempts;
    if Delivered(attempts[..k]) {
      var j :| 0 <= j < k && !attempts[..k][j].Unreached?;
      assert !attempts[j].Unreached?;
    }
  }

  /** The nodes whose shard never reached the right neighbour. */
  ghost function Unpushed(attempts: seq<seq<Attempt>>): set<nat> {
    set i: nat | i < |attempts| && !Delivered(attempts[i])
  }

  ghost predicate Replicated(stores: seq<DataStore>, rows: seq<Row>, unpushed: set<nat>)
    reads stores
  {
    forall i: nat :: i < |stores| ==>
      stores[i].replicaShard == if Left(i, |stores|) in unpushed then [] else Shard(rows, |stores|, Left(i, |stores|))
  }

  /** The pushes that every node's Make ends with. */
  method PushReplicas(stores: seq<DataStore>, rows: seq<Row>, attempts: seq<seq<Attempt>>)
    requires Stocked(stores, rows) && |attempts| == |stores|
    requires forall i: nat :: i < |stores| ==> stores[i].replicaShard == []
    modifies stores
    ensures Stocked(stores, rows) && Replicated(stores, rows, Unpushed(attempts))
    ensures forall k: nat :: k < |stores| ==> stores[k].replicaActive == old(stores[k].replicaActive)
  {
    var n := |stores|;
    ghost var unpushed := Unpushed(attempts);
    var i := 0;
    while i < n
      invariant i <= n
      invariant Stocked(stores, rows)
      invariant forall k: nat :: k < n ==> stores[k].replicaActive == old(stores[k].replicaActive)
      invariant forall k: nat :: k < n ==>
        stores[k].replicaShard ==
          if Left(k, n) >= i || Left(k, n) in unpushed then [] else Shard(rows, n, Left(k, n))
    {
      RightIs(i, n);
      assert i in unpushed <==> !Delivered(attempts[i]);
      PushReplica(stores, i, rows, attempts[i]);
      i := i + 1;
    }
  }

  // --- The workers ---

  /** A worker's start: it fetches its shard and posts it to the sidecar. */
  method StartWorker(store: DataStore, sidecar: Sidecar)
    modifies sidecar
    ensures sidecar.data == Some(store.primaryShard)
  {
    var rows := store.GetShard();
    sidecar.LoadShard(rows);
  }

  /** Standing in for a failed left neighbour: the replica is activated, fetched, and
      posted to the sidecar, which appends it to what it has. */
  method TakeOver(store: DataStore, sidecar: Sidecar, post: Attempt) returns (ok: bool)
    requires sidecar.data.Some?
    modifies store`replicaActive, sidecar
    ensures store.replicaActive && ok == post.Acked?
    ensures sidecar.data ==
      Some(old(sidecar.data).rows + if post.Unreached? then [] else store.replicaShard)
  {
    store.ActivateReplica();
    var r := store.GetRescuedShard();
    if !post.Unreached? {
      sidecar.ReloadShard(r.rows);
    }
    ok := post.Acked?;
    assert old(sidecar.data).rows + [] == old(sidecar.data).rows;
  }

  /** What sidecar i trains on afterwards: what node i holds, if it is a survivor
      whose post got through, and its own shard otherwise. */
  ghost function Trains(rows: seq<Row>, n: nat, failed: set<nat>, unpushed: set<nat>, post: Attempt, i: nat): Loaded
    requires n > 0
  {
    Some(if i in failed || post.Unreached? then Shard(rows, n, i) else Held(rows, n, failed, unpushed)(i))
  }

  ghost function Datas(sidecars: seq<Sidecar>): (datas: seq<Loaded>)
    reads sidecars
    ensures |datas| == |sidecars|
  {
    seq(|sidecars|, i requires 0 <= i < |sidecars| reads sidecars => sidecars[i].data)
  }

  ghost predicate Separate(sidecars: seq<Sidecar>) {
    forall i, j :: 0 <= i < j < |sidecars| ==> sidecars[i] != sidecars[j]
  }

  /** Every survivor takes over for its left neighbour, if that one has failed. */
  method RescueAll(stores: seq<DataStore>, sidecars: seq<Sidecar>, rows: seq<Row>, failed: set<nat>,
                   ghost unpushed: set<nat>, posts: seq<Attempt>)
    requires Stocked(stores, rows) && Replicated(stores, rows, unpushed)
    requires |sidecars| == |posts| == |stores| > 0 && Separate(sidecars)
    requires forall i: nat :: i < |stores| ==> Datas(sidecars)[i] == Some(Shard(rows, |stores|, i))
    modifies stores, sidecars
    ensures forall i: nat :: i < |stores| ==>
      Datas(sidecars)[i] == Trains(rows, |stores|, failed, unpushed, posts[i], i)
  {
    hide Held, Shard, Trains, Stocked, Replicated, Separate, Datas;
    var n := |stores|;
    var i := 0;
    while i < n
      invariant i <= n && Stocked(stores, rows) && Replicated(stores, rows, unpushed)
      invariant forall k: nat :: k < i ==> Datas(sidecars)[k] == Trains(rows, n, failed, unpushed, posts[k], k)
      invariant forall k: nat :: i <= k < n ==> Datas(sidecars)[k] == Some(Shard(rows, n, k))
    {
      RescueOne(stores, sidecars, rows, failed, unpushed, posts[i], i);
      i := i + 1;
    }
  }

  method RescueOne(stores: seq<DataStore>, sidecars: seq<Sidecar>, rows: seq<Row>, failed: set<nat>,
                   ghost unpushed: set<nat>, post: Attempt, i: nat)
    requires Stocked(stores, rows) && Replicated(stores, rows, unpushed) && i < |stores| == |sidecars|
    requires Separate(sidecars) && Datas(sidecars)[i] == Some(Shard(rows, |stores|, i))
    modifies stores[i], sidecars[i]
    ensures Stocked(stores, rows) && Replicated(stores, rows, unpushed)
    ensures Datas(sidecars) == old(Datas(sidecars))[i := Trains(rows, |stores|, failed, unpushed, post, i)]
  {
    ghost var before := Datas(sidecars);
    assert before[i] == sidecars[i].data;
    if i !in failed && Left(i, |stores|) in failed {
      var _ := TakeOver(stores[i], sidecars[i], post);
    }
    assert Shard(rows, |stores|, i) + [] == Shard(rows, |stores|, i);
    assert Datas(sidecars) == before[i := sidecars[i].data];
  }

  // --- What survives a set of failures ---

  /** The rows at node i when the nodes in `failed` are down, those in `unpushed`
      have no replica, and every survivor with a failed left neighbour has taken
      over. */
  function Held(rows: seq<Row>, n: nat, failed: set<nat>, unpushed: set<nat>): nat -> seq<Row>
    requires n > 0
  {
    (i: nat) =>
      if i >= n || i in failed then []
      else
        Shard(rows, n, i)
        + if Left(i, n) in failed && Left(i, n) !in unpushed then Shard(rows, n, Left(i, n)) else []
  }

  /** Shard i has neither its owner nor a replica at a live right neighbour. */
  predicate Gone(n: nat, failed: set<nat>, unpushed: set<nat>, i: nat)
    requires n > 0
  {
    i in failed && (Right(i, n) in failed || i in unpushed)
  }

  /** The shards that neither their owner nor its right neighbour can supply. */
  function Lost(rows: seq<Row>, n: nat, failed: set<nat>, unpushed: set<nat>): nat -> seq<Row>
    requires n > 0
  {
    (i: nat) => if i < n && Gone(n, failed, unpushed, i) then Shard(rows, n, i) else []
  }

  function Own(rows: seq<Row>, n: nat, failed: set<nat>): nat -> seq<Row>
    requires n > 0
  {
    (i: nat) => if i < n && i !in failed then Shard(rows, n, i) else []
  }

  /** Shard i, when only its right neighbour supplies it. */
  function Saved(rows: seq<Row>, n: nat, failed: set<nat>, unpushed: set<nat>): nat -> seq<Row>
    requires n > 0
  {
    (i: nat) => if i < n && i in failed && !Gone(n, failed, unpushed, i) then Shard(rows, n, i) else []
  }

  function Shifted<T>(n: nat, part: nat -> seq<T>): nat -> seq<T> {
    (i: nat) => if i < n then part(Left(i, n)) else []
  }

  lemma ShiftStep<T>(n: nat, part: nat -> seq<T>, k: nat)
    requires 0 < k < n
    requires Gather(Range(k), Shifted(n, part)) == part(n - 1) + Gather(Range(k - 1), part)
    ensures Gather(Range(k + 1), Shifted(n, part)) == part(n - 1) + Gather(Range(k), part)
  {
    calc {
      Gather(Range(k + 1), Shifted(n, part));
      { GatherLast(k + 1, Shifted(n, part)); assert Left(k, n) == k - 1; }
      Gather(Range(k), Shifted(n, part)) + part(k - 1);
      (part(n - 1) + Gather(Range(k - 1), part)) + part(k - 1);
      { Associate(part(n - 1), Gather(Range(k - 1), part), part(k - 1)); }
      part(n - 1) + (Gather(Range(k - 1), part) + part(k - 1));
      { GatherLast(k, part); }
      part(n - 1) + Gather(Range(k), part);
    }
  }

  lemma {:induction false} ShiftPrefix<T>(n: nat, part: nat -> seq<T>, k: nat)
    requires k < n
    ensures Gather(Range(k + 1), Shifted(n, part)) == part(n - 1) + Gather(Range(k), part)
  {
    if k > 0 {
      ShiftPrefix(n, part, k - 1);
      ShiftStep(n, part, k);
    } else {
      GatherLast(1, Shifted(n, part));
      assert Left(0, n) == n - 1;
    }
  }

  lemma Associate<T>(a: seq<T>, b: seq<T>, c: seq<T>)
    ensures (a + b) + c == a + (b + c)
  {
  }

  /** Going once around the ring visits every part once. */
  lemma ShiftKeepsAll<T>(n: nat, part: nat -> seq<T>)
    requires n > 0
    ensures multiset(Gather(Range(n), Shifted(n, part))) == multiset(Gather(Range(n), part))
  {
    ShiftPrefix(n, part, n - 1);
    GatherLast(n, part);
  }

  /** Conservation: for any failures, what the survivors hold and what is lost is
      the dataset, every row as often as it occurs there. */
  lemma HeldAndLost(rows: seq<Row>, n: nat, failed: set<nat>, unpushed: set<nat>)
    requires n > 0
    ensures multiset(Gather(Range(n), Held(rows, n, failed, unpushed)))
          + multiset(Gather(Range(n), Lost(rows, n, failed, unpushed)))
         == multiset(rows)
  {
    HeldSplits(rows, n, failed, unpushed);
    ShardsSplit(rows, n, failed, unpushed);
    ShardsCoverInOrder(rows, n);
    ShiftKeepsAll(n, Saved(rows, n, failed, unpushed));
  }

  lemma HeldSplits(rows: seq<Row>, n: nat, failed: set<nat>, unpushed: set<nat>)
    requires n > 0
    ensures multiset(Gather(Range(n), Held(rows, n, failed, unpushed)))
         == multiset(Gather(Range(n), Own(rows, n, failed)))
          + multiset(Gather(Range(n), Shifted(n, Saved(rows, n, failed, unpushed))))
  {
    var shifted := Shifted(n, Saved(rows, n, failed, unpushed));
    forall i: nat | i < n
      ensures multiset(Held(rows, n, failed, unpushed)(i)) == multiset(Own(rows, n, failed)(i)) + multiset(shifted(i))
    {
      RightIs(Left(i, n), n);
    }
    GatherSplit(n, Held(rows, n, failed, unpushed), Own(rows, n, failed), shifted);
  }

  function Failed(rows: seq<Row>, n: nat, failed: set<nat>): nat -> seq<Row>
    requires n > 0
  {
    (i: nat) => if i < n && i in failed then Shard(rows, n, i) else []
  }

  lemma ShardsSplit(rows: seq<Row>, n: nat, failed: set<nat>, unpushed: set<nat>)
    requires n > 0
    ensures multiset(Gather(Range(n), ShardOf(rows, n)))
         == multiset(Gather(Range(n), Own(rows, n, failed)))
          + (multiset(Gather(Range(n), Saved(rows, n, failed, unpushed)))
             + multiset(Gather(Range(n), Lost(rows, n, failed, unpushed))))
  {
    GatherSplit(n, ShardOf(rows, n), Own(rows, n, failed), Failed(rows, n, failed));
    GatherSplit(n, Failed(rows, n, failed), Saved(rows, n, failed, unpushed), Lost(rows, n, failed, unpushed));
  }

  ghost predicate NothingGone(n: nat, failed: set<nat>, unpushed: set<nat>)
    requires n > 0
  {
    forall i: nat :: i < n ==> !Gone(n, failed, unpushed, i)
  }

  lemma {:induction false} NothingGathered<T>(n: nat, part: nat -> seq<T>)
    requires forall i: nat :: i < n ==> part(i) == []
    ensures Gather(Range(n), part) == []
  {
    if n > 0 {
      GatherLast(n, part);
      NothingGathered(n - 1, part);
    }
  }

  lemma {:induction false} PartIsGathered<T>(n: nat, part: nat -> seq<T>, i: nat)
    requires i < n && part(i) != []
    ensures Gather(Range(n), part) != []
  {
    GatherLast(n, part);
    if i < n - 1 {
      PartIsGathered(n - 1, part, i);
    }
  }

  lemma LostIsMissed(rows: seq<Row>, n: nat, failed: set<nat>, unpushed: set<nat>, i: nat)
    requires i < n <= |rows| && Gone(n, failed, unpushed, i)
    ensures Gather(Range(n), Lost(rows, n, failed, unpushed)) != []
  {
    ShardNotEmpty(rows, n, i);
    PartIsGathered(n, Lost(rows, n, failed, unpushed), i);
  }

  lemma NothingMissing<T>(held: multiset<T>, lost: seq<T>, all: multiset<T>)
    requires held + multiset(lost) == all
    ensures held == all <==> lost == []
  {
    if lost != [] {
      assert |held + multiset(lost)| == |held| + |lost|;
    }
  }

  /** With at least one row per node, the survivors hold the dataset exactly once
      if and only if no two cyclic neighbours have failed, and no node has failed
      whose push never got through. */
  lemma RescueIsComplete(rows: seq<Row>, n: nat, failed: set<nat>, unpushed: set<nat>)
    requires 0 < n <= |rows|
    ensures multiset(Gather(Range(n), Held(rows, n, failed, unpushed))) == multiset(rows)
            <==> NothingGone(n, failed, unpushed)
  {
    HeldAndLost(rows, n, failed, unpushed);
    NothingMissing(multiset(Gather(Range(n), Held(rows, n, failed, unpushed))),
                   Gather(Range(n), Lost(rows, n, failed, unpushed)), multiset(rows));
    if NothingGone(n, failed, unpushed) {
      NothingGathered(n, Lost(rows, n, failed, unpushed));
    } else {
      var i: nat :| i < n && Gone(n, failed, unpushed, i);
      LostIsMissed(rows, n, failed, unpushed, i);
    }
  }

  // --- Training goes on unchanged ---

  function Survivors(n: nat, failed: set<nat>): seq<nat> {
    if n == 0 then [] else Survivors(n - 1, failed) + if n - 1 in failed then [] else [n - 1]
  }

  lemma {:induction false} SurvivorsHoldAll(rows: seq<Row>, n: nat, failed: set<nat>, unpushed: set<nat>, k: nat)
    requires n > 0 && k <= n
    ensures Gather(Survivors(k, failed), Held(rows, n, failed, unpushed))
         == Gather(Range(k), Held(rows, n, failed, unpushed))
  {
    if k > 0 {
      SurvivorsHoldAll(rows, n, failed, unpushed, k - 1);
      GatherLast(k, Held(rows, n, failed, unpushed));
      if k - 1 !in failed {
        GatherAppend(Survivors(k - 1, failed), [k - 1], Held(rows, n, failed, unpushed));
        GatherSingle(k - 1, Held(rows, n, failed, unpushed));
      } else {
        assert Survivors(k - 1, failed) + [] == Survivors(k - 1, failed);
      }
    }
  }

  /** After the take-overs the aggregated gradient is what it was before any node
      failed: the mean over the whole dataset, for any order of answers. */
  lemma RescueKeepsGradient(net: Net, w: Vec, rows: seq<Row>, n: nat, failed: set<nat>, unpushed: set<nat>,
                            order: seq<nat>, parts: seq<seq<Row>>, gs: seq<Vec>, counts: seq<nat>)
    requires 0 < n <= |rows| && NothingGone(n, failed, unpushed)
    requires multiset(order) == multiset(Survivors(n, failed))
    requires |parts| == |order|
    requires forall k :: 0 <= k < |order| ==> parts[k] == Held(rows, n, failed, unpushed)(order[k])
    requires Answers(net, w, parts, gs, counts)
    ensures |gs| == |counts| > 0 && CountTotal(counts) > 0 && forall g :: g in gs ==> |g| == |w|
    ensures Aggregate(gs, counts) == LocalGradient(net, w, rows)
  {
    RescueIsComplete(rows, n, failed, unpushed);
    SurvivorsHoldAll(rows, n, failed, unpushed, n);
    GatherOrderFree(order, Survivors(n, failed), Held(rows, n, failed, unpushed));
    GatherIsConcat(order, Held(rows, n, failed, unpushed), parts);
    PartsAreCentral(net, w, rows, parts, gs, counts);
  }
}
