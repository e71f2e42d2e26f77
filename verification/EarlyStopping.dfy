/** What epochLoop decides at the end of an epoch: patience on the loss plateau,
    and the cap. Coordinator.dfy proves the loop against it. */
module EarlyStopping {

  const MAX_EPOCHS := 2000
  const PATIENCE := 50
  const MIN_LOSS_DELTA := 0.005

  /** `bestLoss` starts at math.MaxFloat64, which every loss improves on; here
      that start is the missing best of `Fresh`. */
  datatype Watch = Fresh | Watching(best: real, patience: nat)

  function Patience(w: Watch): nat { if w.Fresh? then 0 else w.patience }

  function Improves(w: Watch, loss: real): bool { w.Fresh? || loss < w.best - MIN_LOSS_DELTA }

  function Observe(w: Watch, loss: real): Watch {
    if Improves(w, loss) then Watching(loss, 0) else Watching(w.best, w.patience + 1)
  }

  /** State after these epochs have completed. */
  function Track(losses: seq<real>): Watch {
    if losses == [] then Fresh else Observe(Track(losses[..|losses| - 1]), losses[|losses| - 1])
  }

  /** The loop returns after the last of these epochs. */
  function Stops(losses: seq<real>): bool {
    losses != [] && (Patience(Track(losses)) >= PATIENCE || |losses| >= MAX_EPOCHS)
  }

  /** The loop really gets to complete all these epochs: it did not return
      after any earlier one. */
  ghost predicate Completes(losses: seq<real>) {
    losses != [] ==> Completes(losses[..|losses| - 1]) && !Stops(losses[..|losses| - 1])
  }

  /** Epochs after the first that improved on the best loss by more than the delta. */
  function Improvements(losses: seq<real>): nat {
    if |losses| <= 1 then 0
    else
      var front := losses[..|losses| - 1];
      Improvements(front) + if Improves(Track(front), losses[|losses| - 1]) then 1 else 0
  }

  /** bestLoss is a loss that was seen, and no loss seen is lower than it by more
      than the delta. */
  lemma {:induction false} BestIsSeen(losses: seq<real>)
    requires losses != []
    ensures Track(losses).Watching?
    ensures Track(losses).best in losses
    ensures forall i :: 0 <= i < |losses| ==> losses[i] >= Track(losses).best - MIN_LOSS_DELTA
  {
    if |losses| > 1 {
      var front := losses[..|losses| - 1];
      BestIsSeen(front);
      assert forall i :: 0 <= i < |front| ==> front[i] == losses[i];
      assert losses[|losses| - 1] in losses;
      assert forall l :: l in front ==> l in losses;
    } else {
      assert losses[..0] == [];
    }
  }

  lemma {:induction false} ImprovementsAreSteep(losses: seq<real>)
    requires losses != []
    ensures Track(losses).Watching?
    ensures Improvements(losses) as real * MIN_LOSS_DELTA <= losses[0] - Track(losses).best
  {
    if |losses| > 1 {
      ImprovementsAreSteep(losses[..|losses| - 1]);
    } else {
      assert losses[..0] == [];
    }
  }

  lemma {:induction false} EpochsPerImprovement(losses: seq<real>)
    requires losses != [] && Completes(losses)
    ensures Track(losses).Watching?
    ensures |losses| <= 1 + PATIENCE * Improvements(losses) + Patience(Track(losses))
    ensures Patience(Track(losses)) <= PATIENCE
    ensures |losses| <= MAX_EPOCHS
  {
    if |losses| > 1 {
      var front := losses[..|losses| - 1];
      EpochsPerImprovement(front);
    } else {
      assert losses[..0] == [];
    }
  }

  /** Training ends: with all losses at least lowest, the loop completes at most
      MAX_EPOCHS epochs, and at most PATIENCE (K + 1) + 1 of them for some number
      of improvements K with K delta <= first loss - lowest. */
  lemma StoppingBound(losses: seq<real>, lowest: real) returns (improvements: nat)
    requires losses != [] && Completes(losses)
    requires forall i :: 0 <= i < |losses| ==> losses[i] >= lowest
    ensures improvements as real * MIN_LOSS_DELTA <= losses[0] - lowest
    ensures |losses| <= PATIENCE * (improvements + 1) + 1
    ensures |losses| <= MAX_EPOCHS
  {
    improvements := Improvements(losses);
    BestIsSeen(losses);
    ImprovementsAreSteep(losses);
    EpochsPerImprovement(losses);
  }

  // --- The counter from the history alone ---

  /** Epoch i set a record: its loss is below every earlier record by more than the
      delta. The first epoch always does. */
  ghost predicate Record(losses: seq<real>, i: nat)
    requires i < |losses|
    decreases i
  {
    forall k: nat :: k < i && Record(losses, k) ==> losses[i] < losses[k] - MIN_LOSS_DELTA
  }

  lemma {:induction false} RecordStays(losses: seq<real>, more: seq<real>, i: nat)
    requires i < |losses| && losses <= more
    ensures Record(more, i) <==> Record(losses, i)
    decreases i
  {
    forall k: nat | k < i
      ensures Record(more, k) <==> Record(losses, k)
    {
      RecordStays(losses, more, k);
    }
  }

  /** Epoch r set the last record so far, and it is the lowest of all records. */
  ghost predicate LastRecord(losses: seq<real>, r: nat) {
    && r < |losses| && Record(losses, r)
    && (forall k: nat :: r < k < |losses| ==> !Record(losses, k))
    && (forall k: nat :: k < |losses| && Record(losses, k) ==> losses[r] <= losses[k])
  }

  lemma RecordNext(front: seq<real>, losses: seq<real>, r: nat)
    requires |losses| == |front| + 1 && front <= losses && LastRecord(front, r)
    ensures Record(losses, |front|) <==> losses[|front|] < front[r] - MIN_LOSS_DELTA
    ensures LastRecord(losses, if losses[|front|] < front[r] - MIN_LOSS_DELTA then |front| else r)
  {
    forall k: nat | k < |front|
      ensures Record(losses, k) <==> Record(front, k)
    {
      RecordStays(front, losses, k);
    }
  }

  /** bestLoss is the loss of the last epoch that set a record, and patienceCounter is
      the number of epochs since. */
  lemma {:induction false} PatienceIsSinceRecord(losses: seq<real>) returns (r: nat)
    requires losses != []
    ensures LastRecord(losses, r)
    ensures Track(losses) == Watching(losses[r], |losses| - 1 - r)
  {
    if |losses| == 1 {
      r := 0;
      assert losses[..0] == [];
    } else {
      var front := losses[..|losses| - 1];
      var r' := PatienceIsSinceRecord(front);
      RecordNext(front, losses, r');
      r := if losses[|front|] < front[r'] - MIN_LOSS_DELTA then |front| else r';
    }
  }

  /** None of the last PATIENCE epochs set a record. */
  ghost predicate Plateau(losses: seq<real>) {
    |losses| >= PATIENCE && forall i: nat :: |losses| - PATIENCE <= i < |losses| ==> !Record(losses, i)
  }

  /** Training stops exactly at the cap or on a plateau. */
  lemma StopsExactly(losses: seq<real>)
    ensures Stops(losses) <==> |losses| >= MAX_EPOCHS || Plateau(losses)
  {
    if losses != [] {
      var r := PatienceIsSinceRecord(losses);
      assert Record(losses, r);
    }
  }

  /** And it completes exactly the epochs before which it had neither. */
  lemma {:induction false} CompletesExactly(losses: seq<real>)
    ensures Completes(losses) <==>
            forall k: nat :: k < |losses| ==> k < MAX_EPOCHS && !Plateau(losses[..k])
  {
    if losses != [] {
      var front := losses[..|losses| - 1];
      CompletesExactly(front);
      StopsExactly(front);
      forall k: nat | k < |front|
        ensures front[..k] == losses[..k]
      {
      }
    }
  }
}
