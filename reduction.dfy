/**
 * The reduction that `timerElapsed` dispatches once the dwell ends: it walks the
 * ranged batches (one batch per ranging callback, each batch the RSSI values of the
 * beacons seen in that callback), collects the readings of batches that saw at most
 * one beacon, flags batches that saw several, sorts the collected readings, keeps a
 * window that trims roughly 10% from each end, and averages that window.
 */
module Reduction {
  import opened Wrappers
  import opened Sorting

  /** NSError codes of the calibration error domain. */
  const MultipleBeacons := 1
  const Cancelled := 2
  const NoBeacon := 3
  const AlreadyInProgress := 4

  /** The arguments one call of the completion handler receives. */
  datatype Completion = Completion(measuredPower: int, errorCode: Option<int>)

  /** `NSMakeRange(location, length)`. */
  datatype Range = Range(location: nat, length: nat)

  // ----- Flattening the batches -----

  /**
   * What one batch adds to the collected readings: the whole batch exactly when it saw
   * at most one beacon, so never more than one reading.
   */
  function Usable(batch: seq<int>): (r: seq<int>)
    ensures |r| <= 1
    ensures r == batch <==> |batch| <= 1
  {
    if |batch| > 1 then [] else batch
  }

  /** The readings the enumeration collects, in arrival order: at most one per batch. */
  function Collected(batches: seq<seq<int>>): (r: seq<int>)
    ensures |r| <= |batches|
  {
    if batches == [] then []
    else Collected(batches[..|batches| - 1]) + Usable(batches[|batches| - 1])
  }

  /**
   * Some batch saw two or more beacons; equivalently, some batch that saw a beacon
   * contributes nothing to the collected readings.
   */
  function HasMulti(batches: seq<seq<int>>): (b: bool)
    ensures b <==> exists j :: 0 <= j < |batches| && batches[j] != [] && Usable(batches[j]) == []
  {
    exists j :: 0 <= j < |batches| && |batches[j]| > 1
  }

  lemma {:induction false} CollectedAppend(a: seq<seq<int>>, b: seq<seq<int>>)
    ensures Collected(a + b) == Collected(a) + Collected(b)
    decreases |b|
  {
    if b == [] {
      assert a + b == a;
    } else {
      var b', last := b[..|b| - 1], b[|b| - 1];
      assert b == b' + [last];
      assert a + b == (a + b') + [last];
      CollectedAppend(a, b');
      calc {
        Collected(a + b);
        Collected((a + b') + [last]);
        { assert ((a + b') + [last])[..|a + b'|] == a + b'; }
        Collected(a + b') + Usable(last);
        Collected(a) + Collected(b') + Usable(last);
        { assert b[..|b| - 1] == b'; }
        Collected(a) + Collected(b);
      }
    }
  }

  lemma CollectedOne(batch: seq<int>)
    ensures Collected([batch]) == Usable(batch)
  {
    assert [batch][..0] == [];
  }

  /** The batches before and after one batch are collected around what it contributes. */
  lemma CollectedAround(pre: seq<seq<int>>, batch: seq<int>, post: seq<seq<int>>)
    ensures Collected(pre + [batch] + post) == Collected(pre) + Usable(batch) + Collected(post)
  {
    CollectedAppend(pre + [batch], post);
    CollectedAppend(pre, [batch]);
    CollectedOne(batch);
  }

  /**
   * A batch that saw several beacons contributes nothing and does not stop the scan:
   * the batches before and after it are collected as if it were absent.
   */
  lemma MultiBatchSkipped(pre: seq<seq<int>>, batch: seq<int>, post: seq<seq<int>>)
    requires |batch| > 1
    ensures Collected(pre + [batch] + post) == Collected(pre) + Collected(post)
    ensures HasMulti(pre + [batch] + post)
  {
    CollectedAround(pre, batch, post);
    assert (pre + [batch] + post)[|pre|] == batch;
  }

  /** A batch with one reading contributes exactly that reading, in place. */
  lemma SingleBatchCollected(pre: seq<seq<int>>, v: int, post: seq<seq<int>>)
    ensures Collected(pre + [[v]] + post) == Collected(pre) + [v] + Collected(post)
  {
    CollectedAround(pre, [v], post);
  }

  /** A batch with no reading contributes nothing. */
  lemma EmptyBatchSkipped(pre: seq<seq<int>>, post: seq<seq<int>>)
    ensures Collected(pre + [[]] + post) == Collected(pre) + Collected(post)
  {
    CollectedAround(pre, [], post);
  }

  /** A reading is collected exactly when some batch saw only that one beacon. */
  lemma {:induction false} CollectedMembers(batches: seq<seq<int>>, v: int)
    ensures v in Collected(batches) <==>
            exists j :: 0 <= j < |batches| && batches[j] == [v]
  {
    if batches != [] {
      var n := |batches| - 1;
      var init := batches[..n];
      CollectedMembers(init, v);
      var last := batches[n];
      assert Collected(batches) == Collected(init) + Usable(last);
      if v in Collected(batches) {
        if v in Collected(init) {
          var j :| 0 <= j < |init| && init[j] == [v];
          assert batches[j] == [v];
        } else {
          assert v in Usable(last);
          assert last == [v];
        }
      }
      if exists j :: 0 <= j < |batches| && batches[j] == [v] {
        var j :| 0 <= j < |batches| && batches[j] == [v];
        if j < n {
          assert init[j] == [v];
        } else {
          assert Usable(last) == [v];
        }
      }
    }
  }

  /** Collection and the multi-beacon flag see only which batches arrived, not their order. */
  lemma {:induction false} CollectedPermutation(a: seq<seq<int>>, b: seq<seq<int>>)
    requires multiset(a) == multiset(b)
    ensures multiset(Collected(a)) == multiset(Collected(b))
    decreases |a|
  {
    if a == [] {
      assert |b| == |multiset(b)| == 0;
    } else {
      var n := |a| - 1;
      var x := a[n];
      assert a == a[..n] + [x];
      assert x in multiset(b);
      var k :| 0 <= k < |b| && b[k] == x;
      var rest := b[..k] + b[k + 1..];
      assert b == b[..k] + [x] + b[k + 1..];
      assert multiset(rest) == multiset(b) - multiset{x};
      assert multiset(a[..n]) == multiset(a) - multiset{x};
      CollectedPermutation(a[..n], rest);
      CollectedAround(b[..k], x, b[k + 1..]);
      CollectedAppend(b[..k], b[k + 1..]);
      CollectedAppend(a[..n], [x]);
    }
  }

  /** One more batch: its readings join the end of the collection, its size joins the flag. */
  lemma CollectedSnoc(batches: seq<seq<int>>, batch: seq<int>)
    ensures Collected(batches + [batch]) == Collected(batches) + Usable(batch)
    ensures HasMulti(batches + [batch]) <==> HasMulti(batches) || |batch| > 1
  {
    var b := batches + [batch];
    assert b[..|b| - 1] == batches;
    if HasMulti(b) && !HasMulti(batches) {
      var j :| 0 <= j < |b| && |b[j]| > 1;
      assert j == |batches|;
    }
    if |batch| > 1 {
      assert b[|batches|] == batch;
    }
    if HasMulti(batches) {
      var j :| 0 <= j < |batches| && |batches[j]| > 1;
      assert b[j] == batches[j];
    }
  }

  lemma HasMultiPermutation(a: seq<seq<int>>, b: seq<seq<int>>)
    requires multiset(a) == multiset(b)
    ensures HasMulti(a) <==> HasMulti(b)
  {
    if HasMulti(a) {
      var j :| 0 <= j < |a| && |a[j]| > 1;
      assert a[j] in multiset(b);
    }
    if HasMulti(b) {
      var j :| 0 <= j < |b| && |b[j]| > 1;
      assert b[j] in multiset(a);
    }
  }

  // ----- The kept window and its average -----

  /**
   * The range kept out of `c` sorted readings: it starts at `Int(c * 0.1)` and is
   * `Int(c - 2 * c * 0.1)` long, i.e. `c / 10` and `8c / 10` in whole numbers.  It lies
   * inside the readings, is non-empty from two readings on, and drops as many or up to
   * two more readings at the top than at the bottom.
   */
  function Window(c: nat): (w: Range)
    ensures w.location + w.length <= c
    ensures c >= 2 ==> w.length >= 1
    ensures 10 * w.location <= c < 10 * (w.location + 1)
    ensures w.location <= c - w.location - w.length <= w.location + 2
  {
    Range(c / 10, (8 * c) / 10)
  }

  function Sum(s: seq<int>): int {
    if s == [] then 0 else Sum(s[..|s| - 1]) + s[|s| - 1]
  }

  /** `a / n` rounded toward zero, as `integerValue` truncates the decimal average. */
  function TruncDiv(a: int, n: int): int
    requires n > 0
  {
    if a >= 0 then a / n else -((-a) / n)
  }

  /**
   * The truncated quotient: the floor of `a / n` for a non-negative `a`, the ceiling
   * for a negative one, so never further from zero than the exact quotient.
   */
  lemma TruncDivBounds(a: int, n: int)
    requires n > 0
    ensures a >= 0 ==> 0 <= TruncDiv(a, n) * n <= a < TruncDiv(a, n) * n + n
    ensures a < 0 ==> TruncDiv(a, n) * n - n < a <= TruncDiv(a, n) * n <= 0
  {
    if a >= 0 {
      DivFloor(a, n);
    } else {
      DivFloor(-a, n);
    }
  }

  lemma DivFloor(a: nat, n: int)
    requires n > 0
    ensures 0 <= (a / n) * n <= a < (a / n) * n + n
  {
    var q, r := a / n, a % n;
    assert a == q * n + r && 0 <= r < n;
    assert q >= 0;
  }

  /**
   * `@avg` followed by `integerValue`: the mean truncated toward zero.  It lies between
   * the least and the greatest of the values averaged.
   */
  function Mean(s: seq<int>): (r: int)
    requires |s| > 0
    ensures exists i :: 0 <= i < |s| && s[i] <= r
    ensures exists j :: 0 <= j < |s| && r <= s[j]
  {
    var lo, hi := IndexOfMin(s), IndexOfMax(s);
    MeanBounds(s, s[lo], s[hi]);
    TruncDiv(Sum(s), |s|)
  }

  function IndexOfMin(s: seq<int>): (k: nat)
    requires |s| > 0
    ensures k < |s| && forall i :: 0 <= i < |s| ==> s[k] <= s[i]
  {
    if |s| == 1 then 0
    else
      var k := IndexOfMin(s[..|s| - 1]);
      if s[|s| - 1] < s[k] then |s| - 1 else k
  }

  function IndexOfMax(s: seq<int>): (k: nat)
    requires |s| > 0
    ensures k < |s| && forall i :: 0 <= i < |s| ==> s[i] <= s[k]
  {
    if |s| == 1 then 0
    else
      var k := IndexOfMax(s[..|s| - 1]);
      if s[k] < s[|s| - 1] then |s| - 1 else k
  }

  lemma {:induction false} SumBounds(s: seq<int>, lo: int, hi: int)
    requires forall i :: 0 <= i < |s| ==> lo <= s[i] <= hi
    ensures |s| * lo <= Sum(s) <= |s| * hi
  {
    if s != [] {
      SumBounds(s[..|s| - 1], lo, hi);
    }
  }

  lemma MulCancel(a: int, b: int, n: int)
    requires n > 0 && a * n < b * n
    ensures a < b
  {
  }

  lemma MulCancelLe(a: int, b: int, n: int)
    requires n > 0 && a * n <= b * n
    ensures a <= b
  {
  }

  /**
   * The truncated mean (the body of `Mean`) lies between any lower and upper bound of
   * the values averaged.
   */
  lemma MeanBounds(s: seq<int>, lo: int, hi: int)
    requires |s| > 0
    requires forall i :: 0 <= i < |s| ==> lo <= s[i] <= hi
    ensures lo <= TruncDiv(Sum(s), |s|) <= hi
  {
    SumBounds(s, lo, hi);
    QuotientBounds(Sum(s), |s|, lo, hi);
  }

  /** A total between `n * lo` and `n * hi` has its truncated quotient by `n` in `[lo, hi]`. */
  lemma QuotientBounds(total: int, n: int, lo: int, hi: int)
    requires n > 0 && n * lo <= total <= n * hi
    ensures lo <= TruncDiv(total, n) <= hi
  {
    var q := TruncDiv(total, n);
    TruncDivBounds(total, n);
    assert lo * n <= total <= hi * n;
    if total >= 0 {
      MulCancelLe(q, hi, n);
      assert (q + 1) * n == q * n + n;
      MulCancel(lo, q + 1, n);
    } else {
      assert (q - 1) * n == q * n - n;
      MulCancel(q - 1, hi, n);
      MulCancelLe(lo, q, n);
    }
  }

  /**
   * measuredPower for the collected readings: sort, keep `Window`, average.  With a
   * single reading the window is empty; the model yields 0 there and states nothing.
   */
  function TrimmedPower(readings: seq<int>): (r: int)
    requires |readings| > 0
    ensures |readings| >= 2 ==> exists i :: 0 <= i < |readings| && readings[i] <= r
    ensures |readings| >= 2 ==> exists j :: 0 <= j < |readings| && r <= readings[j]
  {
    var sorted := Sort(readings);
    SortSorted(readings);
    if |readings| >= 2 then
      KeptMeanWithinReadings(readings, sorted);
      KeptMean(sorted)
    else
      KeptMean(sorted)
  }

  /** The mean of the kept window of readings that are already sorted. */
  function KeptMean(sorted: seq<int>): int {
    var w := Window(|sorted|);
    if w.length == 0 then 0 else Mean(sorted[w.location .. w.location + w.length])
  }

  /** The mean of a slice of an ascending sequence lies between the slice's ends. */
  lemma SortedSliceMean(s: seq<int>, from: nat, len: nat)
    requires Sorted(s) && 1 <= len && from + len <= |s|
    ensures s[from] <= Mean(s[from .. from + len]) <= s[from + len - 1]
  {
    var sample := s[from .. from + len];
    forall i | 0 <= i < |sample|
      ensures s[from] <= sample[i] <= s[from + len - 1]
    {
      assert sample[i] == s[from + i];
    }
    MeanBounds(sample, s[from], s[from + len - 1]);
  }

  /** The kept window of ascending readings lies between its first and last element. */
  lemma KeptMeanBounds(sorted: seq<int>)
    requires Sorted(sorted) && |sorted| >= 2
    ensures var w := Window(|sorted|);
            sorted[w.location] <= KeptMean(sorted) <= sorted[w.location + w.length - 1]
  {
    var w := Window(|sorted|);
    SortedSliceMean(sorted, w.location, w.length);
  }

  /**
   * The kept window of an ascending arrangement of `readings` lies between its own first
   * and last element, and so between some two of the readings themselves.
   */
  lemma KeptMeanWithinReadings(readings: seq<int>, sorted: seq<int>)
    requires |readings| >= 2 && Sorted(sorted) && multiset(sorted) == multiset(readings)
    ensures exists i :: 0 <= i < |readings| && readings[i] <= KeptMean(sorted)
    ensures exists j :: 0 <= j < |readings| && KeptMean(sorted) <= readings[j]
  {
    assert |sorted| == |multiset(sorted)| == |readings|;
    KeptMeanBounds(sorted);
    var w := Window(|sorted|);
    var lo, hi := sorted[w.location], sorted[w.location + w.length - 1];
    assert lo in readings by {
      assert lo in multiset(sorted);
    }
    assert hi in readings by {
      assert hi in multiset(sorted);
    }
    var i :| 0 <= i < |readings| && readings[i] == lo;
    var j :| 0 <= j < |readings| && readings[j] == hi;
  }

  /**
   * From two readings on, measuredPower lies between the first and the last kept
   * sorted reading.
   */
  lemma TrimmedPowerBounds(readings: seq<int>)
    requires |readings| >= 2
    ensures var sorted, w := Sort(readings), Window(|readings|);
            sorted[w.location] <= TrimmedPower(readings) <= sorted[w.location + w.length - 1]
  {
    var sorted := Sort(readings);
    SortSorted(readings);
    assert |sorted| == |multiset(sorted)| == |readings|;
    assert TrimmedPower(readings) == KeptMean(sorted);
    KeptMeanBounds(sorted);
  }

  /** measuredPower does not depend on the order in which the readings arrived. */
  lemma TrimmedPowerOrderIndependent(r1: seq<int>, r2: seq<int>)
    requires |r1| > 0
    requires multiset(r1) == multiset(r2)
    ensures |r2| > 0 && TrimmedPower(r1) == TrimmedPower(r2)
  {
    assert |r1| == |multiset(r1)| == |r2|;
    SortOrderIndependent(r1, r2);
  }

  // ----- The finishing block as a whole -----

  /**
   * The completion a finish delivers.  A cancelled session (`calibrating` false) gives
   * code 2 without looking at the batches; otherwise a multi-beacon batch sets code 1
   * but the readings are still averaged, and no usable reading gives code 3 with
   * measuredPower 0, overriding code 1.
   */
  function FinishOutcome(calibrating: bool, batches: seq<seq<int>>): (r: Completion)
    ensures r.errorCode == Some(Cancelled) <==> !calibrating
    ensures r.errorCode == Some(NoBeacon) <==> calibrating && Collected(batches) == []
    ensures r.errorCode == Some(MultipleBeacons) <==>
            calibrating && HasMulti(batches) && Collected(batches) != []
    ensures r.errorCode == None <==>
            calibrating && !HasMulti(batches) && Collected(batches) != []
    ensures r.errorCode in {Some(Cancelled), Some(NoBeacon)} ==> r.measuredPower == 0
    ensures r.errorCode in {None, Some(MultipleBeacons)} ==>
            Collected(batches) != [] && r.measuredPower == TrimmedPower(Collected(batches))
  {
    if !calibrating then
      Completion(0, Some(Cancelled))
    else
      var readings := Collected(batches);
      var flag := if HasMulti(batches) then Some(MultipleBeacons) else None;
      if |readings| <= 0 then Completion(0, Some(NoBeacon))
      else Completion(TrimmedPower(readings), flag)
  }

  /** Reordering the batches does not change the completion. */
  lemma FinishOutcomeOrderIndependent(calibrating: bool, a: seq<seq<int>>, b: seq<seq<int>>)
    requires multiset(a) == multiset(b)
    ensures FinishOutcome(calibrating, a) == FinishOutcome(calibrating, b)
  {
    CollectedPermutation(a, b);
    HasMultiPermutation(a, b);
    var ra, rb := Collected(a), Collected(b);
    assert |ra| == |multiset(ra)| == |rb|;
    if |ra| > 0 {
      TrimmedPowerOrderIndependent(ra, rb);
    }
  }

  /**
   * The body of the block `timerElapsed` dispatches, with its local variables: the
   * enumeration of the batches (which never breaks), then the count check, then the
   * sort, the window and the truncated average.
   */
  method ReduceBatches(calibrating: bool, batches: seq<seq<int>>)
    returns (measuredPower: int, errorCode: Option<int>)
    ensures Completion(measuredPower, errorCode) == FinishOutcome(calibrating, batches)
  {
    errorCode := None;
    var allBeacons: seq<int> := [];
    measuredPower := 0;
    if !calibrating {
      errorCode := Some(Cancelled);
    } else {
      var i := 0;
      while i < |batches|
        invariant 0 <= i <= |batches|
        invariant allBeacons == Collected(batches[..i])
        invariant errorCode == if HasMulti(batches[..i]) then Some(MultipleBeacons) else None
      {
        var batch := batches[i];
        assert batches[..i + 1] == batches[..i] + [batch];
        CollectedSnoc(batches[..i], batch);
        if |batch| > 1 {
          errorCode := Some(MultipleBeacons);
        } else {
          allBeacons := allBeacons + batch;
        }
        i := i + 1;
      }
      assert batches[..i] == batches;
      if |allBeacons| <= 0 {
        errorCode := Some(NoBeacon);
      } else {
        measuredPower := TrimmedPower(allBeacons);
      }
    }
  }
}
