/** The flat-vector protocol of sidecar_torch.py: the model's tensors cross the
    wire as one vector, and the coordinator's SGD never sees their shapes. */
module FlatVectors {
  import opened Gradients

  /** A tensor's elements in row-major order, as `flatten` and `view_as` see them. */
  datatype Tensor = Tensor(shape: seq<nat>, data: Vec)

  function Numel(shape: seq<nat>): nat {
    if shape == [] then 1 else shape[0] * Numel(shape[1..])
  }

  /** The number of elements is the product of the dimensions: 1 for a scalar, a for
      [a], a b for [a, b], and so on. */
  lemma NumelSmall(a: nat, b: nat)
    ensures Numel([]) == 1 && Numel([a]) == a && Numel([a, b]) == a * b
  {
    assert [a][1..] == [] && [a, b][1..] == [b] && [b][1..] == [];
  }

  lemma {:induction false} NumelProduct(s: seq<nat>, u: seq<nat>)
    ensures Numel(s + u) == Numel(s) * Numel(u)
  {
    if s == [] {
      assert s + u == u;
    } else {
      assert (s + u)[1..] == s[1..] + u;
      NumelProduct(s[1..], u);
      assert s[0] * (Numel(s[1..]) * Numel(u)) == s[0] * Numel(s[1..]) * Numel(u);
    }
  }

  ghost predicate Shaped(t: Tensor) { |t.data| == Numel(t.shape) }

  ghost predicate AllShaped(ts: seq<Tensor>) { forall i :: 0 <= i < |ts| ==> Shaped(ts[i]) }

  ghost predicate SameShapes(ts: seq<Tensor>, us: seq<Tensor>) {
    |ts| == |us| && forall i :: 0 <= i < |ts| ==> ts[i].shape == us[i].shape
  }

  function Size(ts: seq<Tensor>): nat {
    if ts == [] then 0 else Numel(ts[0].shape) + Size(ts[1..])
  }

  function Flatten(ts: seq<Tensor>): Vec {
    if ts == [] then [] else ts[0].data + Flatten(ts[1..])
  }

  /** `load_flat_params`: whether every slice fitted its tensor, and the tensors
      afterwards. The first slice that is too short raises, with the earlier
      tensors already overwritten. */
  function Load(ts: seq<Tensor>, vec: Vec): (bool, seq<Tensor>) {
    if ts == [] then (true, [])
    else
      var n := Numel(ts[0].shape);
      if |vec| < n then (false, ts)
      else
        var (ok, rest) := Load(ts[1..], vec[n..]);
        (ok, [ts[0].(data := vec[..n])] + rest)
  }

  /** The first k tensors hold the first i elements, and the rest are as before. */
  ghost predicate LoadedUpTo(ts: seq<Tensor>, vec: Vec, now: seq<Tensor>, k: nat, i: nat) {
    && k <= |ts| == |now| && i <= |vec|
    && now[k..] == ts[k..]
    && Load(ts, vec) == (Load(ts[k..], vec[i..]).0, now[..k] + Load(ts[k..], vec[i..]).1)
  }

  lemma LoadStarts(ts: seq<Tensor>, vec: Vec)
    ensures LoadedUpTo(ts, vec, ts, 0, 0)
  {
    assert ts[0..] == ts && vec[0..] == vec;
    assert ts[..0] + Load(ts, vec).1 == Load(ts, vec).1;
  }

  lemma LoadEnds(ts: seq<Tensor>, vec: Vec, now: seq<Tensor>, k: nat, i: nat)
    requires LoadedUpTo(ts, vec, now, k, i) && k == |ts|
    ensures Load(ts, vec) == (true, now)
  {
    assert now[..k] + [] == now;
  }

  lemma LoadHead(ts: seq<Tensor>, vec: Vec, k: nat, i: nat)
    requires k < |ts| && i <= |vec|
    ensures var n := Numel(ts[k].shape);
            if i + n > |vec| then Load(ts[k..], vec[i..]) == (false, ts[k..])
            else
              var (ok, rest) := Load(ts[k + 1..], vec[i + n..]);
              Load(ts[k..], vec[i..]) == (ok, [ts[k].(data := vec[i..i + n])] + rest)
  {
    var n := Numel(ts[k].shape);
    assert ts[k..][1..] == ts[k + 1..];
    if i + n <= |vec| {
      assert vec[i..][..n] == vec[i..i + n] && vec[i..][n..] == vec[i + n..];
    }
  }

  /** Storing tensor k, seen from the tensors before it and after it. */
  lemma StoreAt(ts: seq<Tensor>, now: seq<Tensor>, k: nat, t: Tensor)
    requires k < |ts| == |now| && now[k..] == ts[k..]
    ensures now[k] == ts[k]
    ensures now[k := t][..k + 1] == now[..k] + [t]
    ensures now[k := t][k + 1..] == ts[k + 1..]
  {
    assert now[k..][0] == ts[k..][0];
    assert now[k := t][k + 1..] == now[k..][1..] && ts[k..][1..] == ts[k + 1..];
  }

  lemma Regroup(before: seq<Tensor>, t: Tensor, rest: seq<Tensor>)
    ensures before + ([t] + rest) == (before + [t]) + rest
  {
  }

  /** One turn of the loop: tensor k takes the slice at i, or the load fails. */
  lemma LoadOne(ts: seq<Tensor>, vec: Vec, now: seq<Tensor>, k: nat, i: nat)
    requires LoadedUpTo(ts, vec, now, k, i) && k < |ts|
    ensures now[k] == ts[k]
    ensures var n := Numel(ts[k].shape);
            if i + n > |vec| then Load(ts, vec) == (false, now)
            else LoadedUpTo(ts, vec, now[k := now[k].(data := vec[i..i + n])], k + 1, i + n)
  {
    var n := Numel(ts[k].shape);
    LoadHead(ts, vec, k, i);
    StoreAt(ts, now, k, ts[k]);
    if i + n > |vec| {
      assert now[..k] + now[k..] == now;
    } else {
      var loaded := ts[k].(data := vec[i..i + n]);
      StoreAt(ts, now, k, loaded);
      Regroup(now[..k], loaded, Load(ts[k + 1..], vec[i + n..]).1);
    }
  }

  class Model {
    var parameters: seq<Tensor>

    constructor (ts: seq<Tensor>)
      requires AllShaped(ts)
      ensures parameters == ts
    {
      parameters := ts;
    }

    method FlattenParams() returns (flat: Vec)
      ensures flat == Flatten(parameters)
    {
      flat := [];
      var k := 0;
      while k < |parameters|
        invariant k <= |parameters|
        invariant flat + Flatten(parameters[k..]) == Flatten(parameters)
      {
        assert parameters[k..][1..] == parameters[k + 1..];
        flat := flat + parameters[k].data;
        k := k + 1;
      }
    }

    method LoadFlatParams(flat: Vec) returns (ok: bool)
      modifies this
      ensures (ok, parameters) == Load(old(parameters), flat)
    {
      ghost var before := parameters;
      var i: nat, k: nat := 0, 0;
      LoadStarts(before, flat);
      while k < |parameters|
        invariant LoadedUpTo(before, flat, parameters, k, i)
      {
        var n := Numel(parameters[k].shape);
        LoadOne(before, flat, parameters, k, i);
        if i + n > |flat| {
          return false;
        }
        parameters := parameters[k := parameters[k].(data := flat[i..i + n])];
        i := i + n;
        k := k + 1;
      }
      LoadEnds(before, flat, parameters, k, i);
      return true;
    }
  }

  lemma {:induction false} FlattenSize(ts: seq<Tensor>)
    requires AllShaped(ts)
    ensures |Flatten(ts)| == Size(ts)
  {
    if ts != [] {
      FlattenSize(ts[1..]);
    }
  }

  lemma {:induction false} LoadKeepsShapes(ts: seq<Tensor>, vec: Vec)
    requires AllShaped(ts)
    ensures SameShapes(Load(ts, vec).1, ts) && AllShaped(Load(ts, vec).1)
    ensures Size(Load(ts, vec).1) == Size(ts)
  {
    if ts != [] && |vec| >= Numel(ts[0].shape) {
      LoadKeepsShapes(ts[1..], vec[Numel(ts[0].shape)..]);
      assert Load(ts, vec).1[1..] == Load(ts[1..], vec[Numel(ts[0].shape)..]).1;
    }
  }

  /** Loading what was flattened gives the same tensors back, whatever the model
      held before. */
  lemma {:induction false} LoadUndoesFlatten(ts: seq<Tensor>, held: seq<Tensor>)
    requires AllShaped(ts) && AllShaped(held) && SameShapes(held, ts)
    ensures Load(held, Flatten(ts)) == (true, ts)
  {
    if ts != [] {
      var n := Numel(ts[0].shape);
      LoadUndoesFlatten(ts[1..], held[1..]);
      assert Flatten(ts)[..n] == ts[0].data && Flatten(ts)[n..] == Flatten(ts[1..]);
      assert held[0].(data := ts[0].data) == ts[0];
      assert [ts[0]] + ts[1..] == ts;
    }
  }

  lemma SizeHead(ts: seq<Tensor>, k: nat)
    requires 0 < k <= |ts|
    ensures Size(ts[..k]) == Numel(ts[0].shape) + Size(ts[1..][..k - 1])
  {
    assert ts[..k][1..] == ts[1..][..k - 1];
  }

  lemma {:induction false} SizeNext(ts: seq<Tensor>, k: nat)
    requires k < |ts|
    ensures Size(ts[..k + 1]) == Size(ts[..k]) + Numel(ts[k].shape)
    ensures Size(ts[..k + 1]) <= Size(ts)
    decreases k
  {
    SizeHead(ts, k + 1);
    if k > 0 {
      SizeHead(ts, k);
      SizeNext(ts[1..], k - 1);
    } else {
      assert ts[..0] == [] && ts[1..][..0] == [];
    }
  }

  /** Where everything is: element i of tensor k comes after all elements of the
      tensors before it. */
  lemma {:induction false} FlattenAt(ts: seq<Tensor>, k: nat, i: nat)
    requires AllShaped(ts) && k < |ts| && i < |ts[k].data|
    ensures Size(ts[..k]) + i < |Flatten(ts)|
    ensures Flatten(ts)[Size(ts[..k]) + i] == ts[k].data[i]
    decreases k
  {
    FlattenSize(ts);
    SizeNext(ts, k);
    if k > 0 {
      SizeHead(ts, k);
      FlattenAt(ts[1..], k - 1, i);
    } else {
      assert ts[..0] == [];
    }
  }

  lemma LoadTail(ts: seq<Tensor>, vec: Vec, k: nat)
    requires k < |ts|
    ensures var n := Numel(ts[0].shape);
            && |Load(ts, vec).1| == |ts|
            && (n <= |vec| ==> |Load(ts[1..], vec[n..]).1| == |ts| - 1)
            && Load(ts, vec).1[k] ==
               if n > |vec| then ts[k]
               else if k == 0 then ts[0].(data := vec[..n])
               else Load(ts[1..], vec[n..]).1[k - 1]
  {
    LoadLength(ts, vec);
    if Numel(ts[0].shape) <= |vec| {
      LoadLength(ts[1..], vec[Numel(ts[0].shape)..]);
    }
  }

  lemma SliceShift(vec: Vec, n: nat, a: nat, b: nat)
    requires a <= b && n + b <= |vec|
    ensures vec[n..][a..b] == vec[n + a..n + b]
  {
  }

  /** What every tensor holds after a load, successful or not: tensor k has its slice if
      the vector reaches that far, and is as before otherwise. */
  lemma {:induction false} LoadAt(ts: seq<Tensor>, vec: Vec, k: nat)
    requires k < |ts|
    ensures |Load(ts, vec).1| == |ts|
    ensures Size(ts[..k]) <= Size(ts[..k + 1])
    ensures Load(ts, vec).1[k] ==
            if Size(ts[..k + 1]) <= |vec| then ts[k].(data := vec[Size(ts[..k])..Size(ts[..k + 1])]) else ts[k]
    decreases k
  {
    var n := Numel(ts[0].shape);
    LoadTail(ts, vec, k);
    SizeNext(ts, k);
    SizeHead(ts, k + 1);
    if k == 0 {
      assert ts[..0] == [] && ts[1..][..0] == [];
    } else {
      hide Size, Load;
      SizeHead(ts, k);
      if n <= |vec| {
        LoadAt(ts[1..], vec[n..], k - 1);
        if Size(ts[..k + 1]) <= |vec| {
          SliceShift(vec, n, Size(ts[1..][..k - 1]), Size(ts[1..][..k]));
        }
      }
    }
  }

  lemma {:induction false} LoadLength(ts: seq<Tensor>, vec: Vec)
    ensures |Load(ts, vec).1| == |ts|
  {
    if ts != [] && |vec| >= Numel(ts[0].shape) {
      LoadLength(ts[1..], vec[Numel(ts[0].shape)..]);
    }
  }

  lemma FlattenCons(t: Tensor, rest: seq<Tensor>)
    ensures Flatten([t] + rest) == t.data + Flatten(rest)
  {
    assert ([t] + rest)[1..] == rest;
  }

  lemma SliceOn(vec: Vec, n: nat, m: nat)
    requires n + m <= |vec|
    ensures vec[..n] + vec[n..][..m] == vec[..n + m]
  {
  }

  lemma {:induction false} LoadReads(ts: seq<Tensor>, vec: Vec)
    ensures Load(ts, vec).0 <==> |vec| >= Size(ts)
    ensures |vec| >= Size(ts) ==> Flatten(Load(ts, vec).1) == vec[..Size(ts)]
  {
    if ts != [] {
      var n := Numel(ts[0].shape);
      if |vec| >= n {
        LoadReads(ts[1..], vec[n..]);
        FlattenCons(ts[0].(data := vec[..n]), Load(ts[1..], vec[n..]).1);
        if |vec| >= Size(ts) {
          SliceOn(vec, n, Size(ts[1..]));
        }
      }
    }
  }

  /** Flattening what was loaded gives the vector back exactly when it has the
      model's size: a longer one is cut short without complaint, a shorter one
      raises. */
  lemma {:induction false} FlattenUndoesLoad(ts: seq<Tensor>, vec: Vec)
    requires AllShaped(ts)
    ensures Flatten(Load(ts, vec).1) == vec <==> |vec| == Size(ts)
    ensures Load(ts, vec).0 <==> |vec| >= Size(ts)
  {
    LoadReads(ts, vec);
    LoadKeepsShapes(ts, vec);
    FlattenSize(Load(ts, vec).1);
    assert |vec| == Size(ts) ==> vec[..Size(ts)] == vec;
  }

  /** SGD tensor by tensor. */
  function SgdTensors(ts: seq<Tensor>, grads: seq<Tensor>): seq<Tensor>
    requires AllShaped(ts) && AllShaped(grads) && SameShapes(ts, grads)
  {
    if ts == [] then []
    else [ts[0].(data := Sgd(ts[0].data, grads[0].data))] + SgdTensors(ts[1..], grads[1..])
  }

  lemma SgdAppend(w: Vec, g: Vec, w': Vec, g': Vec)
    requires |w| == |g| && |w'| == |g'|
    ensures Sgd(w + w', g + g') == Sgd(w, g) + Sgd(w', g')
  {
  }

  /** The coordinator's element-wise SGD on the flat vector is SGD on every tensor. */
  lemma {:induction false} FlatSgdIsTensorSgd(ts: seq<Tensor>, grads: seq<Tensor>)
    requires AllShaped(ts) && AllShaped(grads) && SameShapes(ts, grads)
    ensures |Flatten(ts)| == |Flatten(grads)|
    ensures Sgd(Flatten(ts), Flatten(grads)) == Flatten(SgdTensors(ts, grads))
  {
    if ts != [] {
      FlatSgdIsTensorSgd(ts[1..], grads[1..]);
      SgdAppend(ts[0].data, grads[0].data, Flatten(ts[1..]), Flatten(grads[1..]));
      var first := ts[0].(data := Sgd(ts[0].data, grads[0].data));
      assert ([first] + SgdTensors(ts[1..], grads[1..]))[1..] == SgdTensors(ts[1..], grads[1..]);
    }
  }
}
