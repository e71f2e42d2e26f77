/** The mutable Paxos object. Each method is one stretch of code run under `mu`,
    proved against the function of the same name in PaxosNode. */
module PaxosServer {
  import opened PaxosNode

  /** Ranging over a map visits its keys in no particular order. */
  method AnyOf<T>(s: set<T>) returns (x: T)
    requires s != {}
    ensures x in s
  {
    x :| x in s;
  }

  /** Delete, entry by entry, everything that is not to be kept. */
  method DeleteUnless<K, V>(m: map<K, V>, p: K -> bool) returns (kept: map<K, V>)
    ensures kept == Keep(m, p)
  {
    kept := m;
    var keys := m.Keys;
    while keys != {}
      invariant keys <= kept.Keys
      invariant forall k :: k in kept ==> k in m && kept[k] == m[k]
      invariant forall k :: k in m && p(k) ==> k in kept
      invariant forall k :: k in kept && k !in keys ==> p(k)
      decreases keys
    {
      var k := AnyOf(keys);
      if !p(k) {
        kept := kept - {k};
      }
      keys := keys - {k};
    }
  }

  class Paxos {
    const me: nat
    const peers: nat
    var instances: map<int, Instance>
    var doneValues: map<nat, int>
    var propCounter: nat
    var dead: bool

    ghost function View(): Node
      reads this
    {
      Node(me, peers, instances, doneValues, propCounter, dead)
    }

    ghost predicate Valid()
      reads this
    {
      View().Valid()
    }

    constructor (peers: nat, me: nat)
      requires me < peers
      ensures Valid() && View() == InitNode(me, peers)
    {
      this.me := me;
      this.peers := peers;
      instances := map[];
      propCounter := 0;
      dead := false;
      doneValues := map[];
      new;
      var i := 0;
      while i < peers
        invariant i <= peers
        invariant instances == map[] && propCounter == 0 && !dead
        invariant doneValues == NoneDone(i)
      {
        doneValues := doneValues[i := -1];
        i := i + 1;
      }
    }

    method GetInstance(slot: int) returns (ins: Instance)
      requires Valid()
      modifies this`instances
      ensures ins == Lookup(old(View()), slot)
      ensures View() == Store(old(View()), slot, ins)
    {
      if slot !in instances {
        instances := instances[slot := Instance(0, 0, Nil, Pending, Nil)];
      }
      ins := instances[slot];
    }

    method Prepare(args: PrepareArgs) returns (reply: PrepareReply)
      requires Valid() && args.sender < peers
      modifies this`instances, this`doneValues
      ensures Valid()
      ensures (View(), reply) == PaxosNode.Prepare(old(View()), args)
    {
      reply := NO_PROMISE;
      doneValues := doneValues[args.sender := args.done];
      var ins := GetInstance(args.slot);
      if args.ballot > ins.np {
        instances := instances[args.slot := ins.(np := args.ballot)];
        reply := reply.(reply := OK, na := ins.na, va := ins.va);
      } else {
        reply := reply.(reply := Reject, np := ins.np);
      }
      reply := reply.(sender := me, done := doneValues[me]);
      assert instances == PaxosNode.Prepare(old(View()), args).0.instances;
    }

    method Accept(args: AcceptArgs) returns (reply: AcceptReply)
      requires Valid() && args.sender < peers
      modifies this`instances, this`doneValues
      ensures Valid()
      ensures (View(), reply) == PaxosNode.Accept(old(View()), args)
    {
      reply := NO_VOTE;
      doneValues := doneValues[args.sender := args.done];
      var ins := GetInstance(args.slot);
      if args.ballot >= ins.np {
        instances := instances[args.slot := ins.(np := args.ballot, na := args.ballot, va := args.value)];
        reply := reply.(reply := OK);
      } else {
        reply := reply.(reply := Reject, np := ins.np);
      }
      reply := reply.(sender := me, done := doneValues[me]);
      assert instances == PaxosNode.Accept(old(View()), args).0.instances;
    }

    method Inform(args: InformArgs) returns (reply: InformReply)
      requires Valid() && args.sender < peers
      modifies this`instances, this`doneValues
      ensures Valid()
      ensures (View(), reply) == PaxosNode.Inform(old(View()), args)
    {
      doneValues := doneValues[args.sender := args.done];
      var ins := GetInstance(args.slot);
      instances := instances[args.slot := ins.(decided := args.value, fate := Decided)];
      reply := InformReply(OK, me, doneValues[me]);
      assert instances == PaxosNode.Inform(old(View()), args).0.instances;
    }

    /** Visits the watermarks in any order, then frees what is forgotten. */
    method MinLocked() returns (m: int)
      requires Valid()
      modifies this`instances
      ensures Valid()
      ensures View() == Collect(old(View()))
      ensures m == Watermark(old(View())) + 1
    {
      var min := MAX_INT32;
      var todo := doneValues.Keys;
      while todo != {}
        invariant View() == old(View())
        invariant todo <= doneValues.Keys
        invariant min <= MAX_INT32
        invariant forall p :: p in doneValues && p !in todo ==> min <= doneValues[p]
        invariant min == MAX_INT32 || exists p :: p in doneValues && doneValues[p] == min
        decreases todo
      {
        var p := AnyOf(todo);
        if doneValues[p] < min {
          min := doneValues[p];
        }
        todo := todo - {p};
      }
      MinDoneIsMinimum(doneValues, peers);
      assert min == Watermark(View());

      instances := DeleteUnless(instances, Above(min));
      return min + 1;
    }

    method Status(slot: int) returns (fate: Fate, value: Any)
      requires Valid()
      modifies this`instances
      ensures Valid()
      ensures (View(), fate, value) == PaxosNode.Status(old(View()), slot)
    {
      var min := MinLocked();
      if slot < min {
        return Forgotten, Nil;
      }
      var ins := GetInstance(slot);
      return ins.fate, ins.decided;
    }

    method Done(slot: int)
      requires Valid()
      modifies this`doneValues
      ensures Valid() && View() == PaxosNode.Done(old(View()), slot)
    {
      if slot > doneValues[me] {
        doneValues := doneValues[me := slot];
      }
    }

    method Kill()
      requires Valid()
      modifies this`dead
      ensures Valid() && View() == old(View()).(dead := true)
    {
      dead := true;
    }

    /** The critical section that opens a pass. */
    method OpenPass(slot: int) returns (args: PrepareArgs)
      requires Valid()
      modifies this`propCounter
      ensures Valid() && View() == DrawBallot(old(View()))
      ensures args == PrepareArgs(slot, NextBallot(old(View())), me, doneValues[me])
    {
      var n := propCounter * peers + me;
      propCounter := propCounter + 1;
      args := PrepareArgs(slot, n, me, doneValues[me]);
    }

    method SetPropCounter(maxNpSeen: nat)
      requires Valid()
      modifies this`propCounter
      ensures Valid() && View() == PaxosNode.SetPropCounter(old(View()), maxNpSeen)
    {
      var hint := maxNpSeen / peers + 1;
      if propCounter < hint {
        propCounter := hint;
      }
    }
  }
}
