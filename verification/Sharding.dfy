/** The round-robin partition of datastore.go. */
module Sharding {
  import opened Numbers
  import opened Sums

  datatype Row = Row(features: seq<real>, category: int)

  function OwnerOf(rowIndex: nat, numNodes: nat): nat
    requires numNodes > 0
  {
    rowIndex % numNodes
  }

  /** The rows that LoadShard keeps for this node, in dataset order. */
  function Shard(rows: seq<Row>, n: nat, node: nat): seq<Row>
    requires n > 0
  {
    if rows == [] then []
    else
      var last := |rows| - 1;
      Shard(rows[..last], n, node) + if OwnerOf(last, n) == node then [rows[last]] else []
  }

  /** WholeCSVLoader.LoadShard after the file is read. */
  method LoadShard(all: seq<Row>, numNodes: nat, nodeID: nat) returns (shard: seq<Row>)
    requires numNodes > 0
    ensures shard == Shard(all, numNodes, nodeID)
  {
    shard := [];
    var i := 0;
    while i < |all|
      invariant i <= |all|
      invariant shard == Shard(all[..i], numNodes, nodeID)
    {
      if OwnerOf(i, numNodes) == nodeID {
        shard := shard + [all[i]];
      }
      i := i + 1;
      assert all[..i][..i - 1] == all[..i - 1];
    }
    assert all[..|all|] == all;
  }

  function ShardOf(rows: seq<Row>, n: nat): nat -> seq<Row>
    requires n > 0
  {
    (i: nat) => Shard(rows, n, i)
  }

  /** Every row is in exactly one shard: the shards together are the dataset, in
      whatever order they are taken. */
  lemma ShardsCover(rows: seq<Row>, n: nat, order: seq<nat>)
    requires n > 0 && multiset(order) == multiset(Range(n))
    ensures multiset(Gather(order, ShardOf(rows, n))) == multiset(rows)
  {
    GatherOrderFree(order, Range(n), ShardOf(rows, n));
    ShardsCoverInOrder(rows, n);
  }

  lemma {:induction false} ShardsCoverInOrder(rows: seq<Row>, n: nat)
    requires n > 0
    ensures multiset(Gather(Range(n), ShardOf(rows, n))) == multiset(rows)
  {
    if rows == [] {
      EmptyShards(n, n);
    } else {
      var last := |rows| - 1;
      var front := rows[..last];
      ShardsCoverInOrder(front, n);
      GatherBump(n, ShardOf(front, n), ShardOf(rows, n), OwnerOf(last, n), rows[last]);
      assert rows == front + [rows[last]];
    }
  }

  lemma {:induction false} EmptyShards(n: nat, k: nat)
    requires n > 0
    ensures Gather(Range(k), ShardOf([], n)) == []
  {
    if k > 0 {
      GatherLast(k, ShardOf([], n));
      EmptyShards(n, k - 1);
    }
  }

  /** How many of the first m rows a node holds, and of the first m + 1. */
  lemma SizeStep(m: nat, n: nat, node: nat)
    requires node < n
    ensures m / n + (if node < m % n then 1 else 0) + (if OwnerOf(m, n) == node then 1 else 0)
         == (m + 1) / n + if node < (m + 1) % n then 1 else 0
  {
    NextDivMod(m, n);
  }

  /** Shard sizes differ by at most one: the first |rows| mod n nodes have the
      extra row. */
  lemma {:induction false} ShardSize(rows: seq<Row>, n: nat, node: nat)
    requires node < n
    ensures |Shard(rows, n, node)| == |rows| / n + if node < |rows| % n then 1 else 0
  {
    if rows != [] {
      var last := |rows| - 1;
      ShardSize(rows[..last], n, node);
      SizeStep(last, n, node);
      hide OwnerOf;
    }
  }

  lemma ShardNotEmpty(rows: seq<Row>, n: nat, node: nat)
    requires node < n <= |rows|
    ensures Shard(rows, n, node) != []
  {
    ShardSize(rows, n, node);
    QuotientPositive(|rows|, n);
  }

  lemma DealtTo(m: nat, n: nat)
    requires n > 0
    ensures m / n * n + OwnerOf(m, n) == m && OwnerOf(m, n) < n
  {
  }

  lemma DealtBelow(q: nat, k: nat, n: nat, r: nat, m: nat, s: nat)
    requires r < n && s < n && m == q * n + s && k < q + (if r < s then 1 else 0)
    ensures k * n + r < m
  {
    if k < q {
      MulMono(k + 1, q, n);
    }
  }

  /** Who gets what, row by row: the k-th row that a node holds is row k n + node of the
      dataset. */
  lemma {:induction false} ShardAt(rows: seq<Row>, n: nat, node: nat, k: nat)
    requires node < n && k < |Shard(rows, n, node)|
    ensures k * n + node < |rows| && Shard(rows, n, node)[k] == rows[k * n + node]
  {
    ShardSize(rows, n, node);
    DealtTo(|rows|, n);
    DealtBelow(|rows| / n, k, n, node, |rows|, |rows| % n);
    var last := |rows| - 1;
    ShardSize(rows[..last], n, node);
    if k < |Shard(rows[..last], n, node)| {
      ShardAt(rows[..last], n, node, k);
    } else {
      LastIsAt(rows, n, node);
    }
  }

  lemma LastIsAt(rows: seq<Row>, n: nat, node: nat)
    requires node < n && rows != []
    requires |Shard(rows, n, node)| == |Shard(rows[..|rows| - 1], n, node)| + 1
    ensures |Shard(rows[..|rows| - 1], n, node)| * n + node == |rows| - 1
  {
    var last := |rows| - 1;
    ShardSize(rows[..last], n, node);
    DealtTo(last, n);
  }

  lemma SameRound(k: int, q: int, n: nat)
    requires n > 0 && k * n == q * n
    ensures k == q
  {
    assert (k - q) * n == 0;
  }

  /** And the other way: row i of the dataset is row number i / n at node i mod n. */
  lemma {:induction false} RowIsAt(rows: seq<Row>, n: nat, i: nat)
    requires n > 0 && i < |rows|
    ensures i / n < |Shard(rows, n, OwnerOf(i, n))| && Shard(rows, n, OwnerOf(i, n))[i / n] == rows[i]
  {
    var last := |rows| - 1;
    if i < last {
      RowIsAt(rows[..last], n, i);
    } else {
      DealtTo(i, n);
      LastIsAt(rows, n, OwnerOf(i, n));
      SameRound(|Shard(rows[..last], n, OwnerOf(i, n))|, i / n, n);
    }
  }
}
