/** One Paxos node as a value: its memory and what each critical section of
    paxos.go does to it. Every function here is one stretch of code run under
    `mu`; PaxosServer.dfy proves the mutable class against these functions and
    PaxosProtocol.dfy builds the cluster out of them.

    A `slot` is the source's Seq, a `ballot` its N, a `sender` its PeerID. */
module PaxosNode {
  import opened Numbers

  const MAX_INT32 := 0x7FFF_FFFF

  /** Go's `any` as the callers use it: nil, an int (the coordinator) or a string. */
  datatype Any = Nil | Int(n: int) | Str(s: string)

  /** `Unset` is the zero string that a failed call leaves in the reply. */
  datatype Response = Unset | OK | Reject

  datatype Fate = Decided | Pending | Forgotten

  datatype PrepareArgs = PrepareArgs(slot: int, ballot: int, sender: nat, done: int)
  datatype PrepareReply = PrepareReply(reply: Response, np: int, na: int, va: Any, sender: nat, done: int)
  datatype AcceptArgs = AcceptArgs(slot: int, ballot: int, value: Any, sender: nat, done: int)
  datatype AcceptReply = AcceptReply(reply: Response, np: int, sender: nat, done: int)
  datatype InformArgs = InformArgs(slot: int, value: Any, sender: nat, done: int)
  datatype InformReply = InformReply(reply: Response, sender: nat, done: int)

  const NO_PROMISE := PrepareReply(Unset, 0, 0, Nil, 0, 0)
  const NO_VOTE := AcceptReply(Unset, 0, 0, 0)

  datatype Instance = Instance(np: int, na: int, va: Any, fate: Fate, decided: Any)

  const FRESH := Instance(0, 0, Nil, Pending, Nil)

  datatype Node = Node(me: nat, peers: nat, instances: map<int, Instance>,
                       done: map<nat, int>, propCounter: nat, dead: bool)
  {
    ghost predicate Valid() {
      && me < peers
      && (forall p: nat :: p in done <==> p < peers)
    }
  }

  /** Make's loop over the peers: every watermark starts at -1. */
  function NoneDone(n: nat): (done: map<nat, int>)
    ensures forall p: nat :: p in done <==> p < n
    ensures forall p: nat :: p < n ==> done[p] == -1
  {
    if n == 0 then map[] else NoneDone(n - 1)[n - 1 := -1]
  }

  function InitNode(me: nat, peers: nat): Node {
    Node(me, peers, map[], NoneDone(peers), 0, false)
  }

  /** getInstance creates a missing instance with zero fields, so a missing
      instance reads like a fresh one. */
  function Lookup(nd: Node, slot: int): Instance {
    if slot in nd.instances then nd.instances[slot] else FRESH
  }

  function Store(nd: Node, slot: int, ins: Instance): Node {
    nd.(instances := nd.instances[slot := ins])
  }

  function Heed(nd: Node, sender: nat, done: int): Node {
    nd.(done := nd.done[sender := done])
  }

  // --- Acceptor ---

  function Prepare(nd: Node, args: PrepareArgs): (Node, PrepareReply)
    requires nd.Valid()
  {
    var nd1 := Heed(nd, args.sender, args.done);
    var ins := Lookup(nd1, args.slot);
    if args.ballot > ins.np then
      (Store(nd1, args.slot, ins.(np := args.ballot)),
       PrepareReply(OK, 0, ins.na, ins.va, nd.me, nd1.done[nd.me]))
    else
      (Store(nd1, args.slot, ins), PrepareReply(Reject, ins.np, 0, Nil, nd.me, nd1.done[nd.me]))
  }

  function Accept(nd: Node, args: AcceptArgs): (Node, AcceptReply)
    requires nd.Valid()
  {
    var nd1 := Heed(nd, args.sender, args.done);
    var ins := Lookup(nd1, args.slot);
    if args.ballot >= ins.np then
      (Store(nd1, args.slot, ins.(np := args.ballot, na := args.ballot, va := args.value)),
       AcceptReply(OK, 0, nd.me, nd1.done[nd.me]))
    else
      (Store(nd1, args.slot, ins), AcceptReply(Reject, ins.np, nd.me, nd1.done[nd.me]))
  }

  function Inform(nd: Node, args: InformArgs): (Node, InformReply)
    requires nd.Valid()
  {
    var nd1 := Heed(nd, args.sender, args.done);
    var ins := Lookup(nd1, args.slot);
    (Store(nd1, args.slot, ins.(decided := args.value, fate := Decided)),
     InformReply(OK, nd.me, nd1.done[nd.me]))
  }

  // --- Watermarks and forgetting ---

  function Min(a: int, b: int): int { if a < b then a else b }

  function MinDone(done: map<nat, int>, n: nat): int
    requires forall p: nat :: p < n ==> p in done
  {
    if n == 0 then MAX_INT32 else Min(done[n - 1], MinDone(done, n - 1))
  }

  /** minLocked's capped minimum is the greatest lower bound of all watermarks
      and math.MaxInt32. */
  lemma {:induction false} MinDoneIsMinimum(done: map<nat, int>, n: nat)
    requires forall p: nat :: p < n ==> p in done
    ensures MinDone(done, n) <= MAX_INT32
    ensures forall p: nat :: p < n ==> MinDone(done, n) <= done[p]
    ensures MinDone(done, n) == MAX_INT32 || exists p: nat :: p < n && done[p] == MinDone(done, n)
  {
    if n > 0 {
      MinDoneIsMinimum(done, n - 1);
    }
  }

  function Watermark(nd: Node): int
    requires nd.Valid()
  {
    MinDone(nd.done, nd.peers)
  }

  function Keep<K, V>(m: map<K, V>, p: K -> bool): map<K, V> {
    map k | k in m && p(k) :: m[k]
  }

  function Above(w: int): int -> bool { s => s > w }

  /** minLocked: forget every instance at or below the minimum watermark. */
  function Collect(nd: Node): Node
    requires nd.Valid()
  {
    nd.(instances := Keep(nd.instances, Above(Watermark(nd))))
  }

  function Status(nd: Node, slot: int): (Node, Fate, Any)
    requires nd.Valid()
  {
    var nd1 := Collect(nd);
    if slot < Watermark(nd) + 1 then (nd1, Forgotten, Nil)
    else
      var ins := Lookup(nd1, slot);
      (Store(nd1, slot, ins), ins.fate, ins.decided)
  }

  function Done(nd: Node, slot: int): Node
    requires nd.Valid()
  {
    if slot > nd.done[nd.me] then nd.(done := nd.done[nd.me := slot]) else nd
  }

  // --- Ballots ---

  function NextBallot(nd: Node): int { nd.propCounter * nd.peers + nd.me }

  function DrawBallot(nd: Node): Node { nd.(propCounter := nd.propCounter + 1) }

  function SetPropCounter(nd: Node, maxNpSeen: nat): Node
    requires nd.Valid()
  {
    var hint := maxNpSeen / nd.peers + 1;
    if nd.propCounter < hint then nd.(propCounter := hint) else nd
  }

  /** After setPropCounter the next ballot is above the reported one, and it
      never moves down. */
  lemma JumpExceeds(nd: Node, maxNpSeen: nat)
    requires nd.Valid()
    ensures NextBallot(SetPropCounter(nd, maxNpSeen)) > maxNpSeen
    ensures NextBallot(SetPropCounter(nd, maxNpSeen)) >= NextBallot(nd)
  {
    var hint := maxNpSeen / nd.peers + 1;
    DivSlack(maxNpSeen, nd.peers);
    if nd.propCounter < hint {
      MulMono(nd.propCounter, hint, nd.peers);
    } else {
      MulMono(hint, nd.propCounter, nd.peers);
    }
  }

  lemma DrawAdvances(nd: Node)
    requires nd.Valid()
    ensures NextBallot(DrawBallot(nd)) == NextBallot(nd) + nd.peers
  {
    assert (nd.propCounter + 1) * nd.peers == nd.propCounter * nd.peers + nd.peers;
  }

  /** A node's ballots are congruent to its index, so nodes never share one. */
  lemma BallotOwner(nd: Node)
    requires nd.Valid()
    ensures NextBallot(nd) >= 0
    ensures NextBallot(nd) % nd.peers == nd.me
  {
    MulMono(0, nd.propCounter, nd.peers);
    DivModOf(nd.propCounter, nd.peers, nd.me);
  }

  // --- What a handler leaves alone ---

  lemma PrepareFrame(nd: Node, args: PrepareArgs)
    requires nd.Valid() && args.sender < nd.peers
    ensures var nd' := Prepare(nd, args).0;
            && nd'.Valid() && nd'.me == nd.me && nd'.peers == nd.peers && nd'.propCounter == nd.propCounter
            && forall s :: s != args.slot ==> Lookup(nd', s) == Lookup(nd, s)
  {
  }

  lemma AcceptFrame(nd: Node, args: AcceptArgs)
    requires nd.Valid() && args.sender < nd.peers
    ensures var nd' := Accept(nd, args).0;
            && nd'.Valid() && nd'.me == nd.me && nd'.peers == nd.peers && nd'.propCounter == nd.propCounter
            && forall s :: s != args.slot ==> Lookup(nd', s) == Lookup(nd, s)
  {
  }

  lemma StatusFrame(nd: Node, slot: int)
    requires nd.Valid()
    ensures var nd' := Status(nd, slot).0;
            && nd'.Valid() && nd'.me == nd.me && nd'.peers == nd.peers && nd'.propCounter == nd.propCounter
            && nd'.done == nd.done
            && (forall s :: s > Watermark(nd) ==> Lookup(nd', s) == Lookup(nd, s))
            && (forall s :: s <= Watermark(nd) ==> s !in nd'.instances)
  {
  }
}
