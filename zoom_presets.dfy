/**
 * The fixed table of preset zoom factors (gZoomingList) and the two scans
 * that scaleUp and scaleDown run over it.
 */
module ZoomPresets {
  import opened Wrappers

  /** The preset zoom factors, in the order the table lists them. */
  const ZOOMING_LIST: seq<real> :=
    [0.01, 0.02, 0.04, 0.06, 0.08, 0.12, 0.16, 0.25, 0.33, 0.5, 0.75,
     1.0, 1.5, 2.0, 3.0, 4.0, 5.0, 6.0, 8.0, 16.0, 32.0, 48.0, 64.0, 96.0]

  /** Factor scaleUp multiplies by when no preset lies above the current scale. */
  const ZOOM_IN_FACTOR: real := 2.0

  /** Factor scaleDown multiplies by when no preset it considers lies below the current scale. */
  const ZOOM_OUT_FACTOR: real := 0.8333

  predicate StrictlyAscending(s: seq<real>)
  {
    forall i, j :: 0 <= i < j < |s| ==> s[i] < s[j]
  }

  lemma {:induction false} AdjacentAscendingIsStrict(s: seq<real>)
    requires forall i :: 0 <= i < |s| - 1 ==> s[i] < s[i + 1]
    ensures StrictlyAscending(s)
  {
    if |s| > 1 {
      var t := s[1..];
      assert forall i :: 0 <= i < |t| - 1 ==> t[i] < t[i + 1] by {
        forall i | 0 <= i < |t| - 1 ensures t[i] < t[i + 1] {
          assert t[i] == s[i + 1] && t[i + 1] == s[i + 2];
        }
      }
      AdjacentAscendingIsStrict(t);
      forall i, j | 0 <= i < j < |s| ensures s[i] < s[j] {
        if i == 0 {
          if j > 1 {
            assert t[0] < t[j - 1];
          }
        } else {
          assert t[i - 1] < t[j - 1];
        }
      }
    }
  }

  /** The table holds 24 presets in strictly ascending order. */
  lemma ZoomingListStrictlyAscending()
    ensures |ZOOMING_LIST| == 24
    ensures StrictlyAscending(ZOOMING_LIST)
  {
    AdjacentAscendingIsStrict(ZOOMING_LIST);
  }

  /**
   * The scan of scaleUp over a table `zs`, from index `from` upwards: the
   * first index whose entry is strictly above `s`, or None when every
   * remaining entry is at most `s`.
   */
  function FirstAbove(zs: seq<real>, s: real, from: nat): (r: Option<nat>)
    requires from <= |zs|
    decreases |zs| - from
    ensures r.Some? ==> from <= r.value < |zs| && s < zs[r.value]
    ensures r.Some? ==> forall j :: from <= j < r.value ==> zs[j] <= s
    ensures r.None? <==> forall j :: from <= j < |zs| ==> zs[j] <= s
  {
    if from == |zs| then None
    else if s < zs[from] then Some(from)
    else FirstAbove(zs, s, from + 1)
  }

  /**
   * The scan of scaleDown over a table `zs`, from index `from` downwards and
   * stopping before index 0: the first index met whose entry is strictly
   * below `s`, or None.
   */
  function LastBelow(zs: seq<real>, s: real, from: nat): (r: Option<nat>)
    requires from < |zs|
    ensures r.Some? ==> 1 <= r.value <= from && zs[r.value] < s
    ensures r.Some? ==> forall j :: r.value < j <= from ==> s <= zs[j]
    ensures r.None? <==> forall j :: 1 <= j <= from ==> s <= zs[j]
  {
    if from == 0 then None
    else if s > zs[from] then Some(from)
    else LastBelow(zs, s, from - 1)
  }

  /** In an ascending table, the upward scan finds the least entry strictly above `s`. */
  lemma FirstAboveIsLeastAbove(zs: seq<real>, s: real)
    requires StrictlyAscending(zs)
    ensures FirstAbove(zs, s, 0).Some? ==>
      forall j :: 0 <= j < |zs| && s < zs[j] ==> zs[FirstAbove(zs, s, 0).value] <= zs[j]
  {
    var r := FirstAbove(zs, s, 0);
    if r.Some? {
      var k := r.value;
      forall j | 0 <= j < |zs| && s < zs[j] ensures zs[k] <= zs[j] {
        if k < j {
          assert zs[k] < zs[j];
        }
      }
    }
  }

  /**
   * In an ascending table, the downward scan from the last index finds the
   * greatest entry strictly below `s` among indices 1 to the end.
   */
  lemma LastBelowIsGreatestBelow(zs: seq<real>, s: real)
    requires StrictlyAscending(zs) && |zs| > 0
    ensures LastBelow(zs, s, |zs| - 1).Some? ==>
      forall j :: 1 <= j < |zs| && zs[j] < s ==> zs[j] <= zs[LastBelow(zs, s, |zs| - 1).value]
  {
    var r := LastBelow(zs, s, |zs| - 1);
    if r.Some? {
      var k := r.value;
      forall j | 1 <= j < |zs| && zs[j] < s ensures zs[j] <= zs[k] {
        if j < k {
          assert zs[j] < zs[k];
        }
      }
    }
  }

  /** The value scaleUp passes to scale. */
  function ScaleUpTarget(s: real): real
  {
    match FirstAbove(ZOOMING_LIST, s, 0)
    case Some(i) => ZOOMING_LIST[i]
    case None => s * ZOOM_IN_FACTOR
  }

  /** The value scaleDown passes to scale. */
  function ScaleDownTarget(s: real): real
  {
    match LastBelow(ZOOMING_LIST, s, |ZOOMING_LIST| - 1)
    case Some(i) => ZOOMING_LIST[i]
    case None => s * ZOOM_OUT_FACTOR
  }

  /**
   * scaleUp asks for the smallest preset strictly above the current scale,
   * and for twice the current scale when there is none.
   */
  lemma ScaleUpTargetIsNextPreset(s: real)
    ensures (exists j :: 0 <= j < |ZOOMING_LIST| && s < ZOOMING_LIST[j]) ==>
      var t := ScaleUpTarget(s);
      t in ZOOMING_LIST && s < t &&
      forall j :: 0 <= j < |ZOOMING_LIST| && s < ZOOMING_LIST[j] ==> t <= ZOOMING_LIST[j]
    ensures (forall j :: 0 <= j < |ZOOMING_LIST| ==> ZOOMING_LIST[j] <= s) ==>
      ScaleUpTarget(s) == s * ZOOM_IN_FACTOR
  {
    ZoomingListStrictlyAscending();
    FirstAboveIsLeastAbove(ZOOMING_LIST, s);
  }

  /**
   * scaleDown asks for the largest preset strictly below the current scale
   * among indices 1 to 23, and for 0.8333 times the current scale when there
   * is none; the first preset, 0.01, is never asked for by the table scan.
   */
  lemma ScaleDownTargetIsPreviousPreset(s: real)
    ensures (exists j :: 1 <= j < |ZOOMING_LIST| && ZOOMING_LIST[j] < s) ==>
      var t := ScaleDownTarget(s);
      t in ZOOMING_LIST[1..] && t < s &&
      forall j :: 1 <= j < |ZOOMING_LIST| && ZOOMING_LIST[j] < s ==> ZOOMING_LIST[j] <= t
    ensures (forall j :: 1 <= j < |ZOOMING_LIST| ==> s <= ZOOMING_LIST[j]) ==>
      ScaleDownTarget(s) == s * ZOOM_OUT_FACTOR
  {
    ZoomingListStrictlyAscending();
    LastBelowIsGreatestBelow(ZOOMING_LIST, s);
    var r := LastBelow(ZOOMING_LIST, s, |ZOOMING_LIST| - 1);
    if r.Some? {
      assert ZOOMING_LIST[r.value] == ZOOMING_LIST[1..][r.value - 1];
    }
  }

  /** From 1.0, scaleUp asks for the next preset, 1.5. */
  lemma ScaleUpFromOneTargets()
    ensures ScaleUpTarget(1.0) == 1.5
  {
    var r := FirstAbove(ZOOMING_LIST, 1.0, 0);
    assert ZOOMING_LIST[12] == 1.5;
    assert r.Some? && r.value == 12 by {
      assert forall j :: 0 <= j < 12 ==> ZOOMING_LIST[j] <= 1.0;
    }
  }

  /** From 64, scaleUp asks for the last preset, 96. */
  lemma ScaleUpFromSixtyFourTargets()
    ensures ScaleUpTarget(64.0) == 96.0
  {
    var r := FirstAbove(ZOOMING_LIST, 64.0, 0);
    assert ZOOMING_LIST[23] == 96.0;
    assert r.Some? && r.value == 23 by {
      assert forall j :: 0 <= j < 23 ==> ZOOMING_LIST[j] <= 64.0;
    }
  }

  /** From 1.0, scaleDown asks for the previous preset, 0.75. */
  lemma ScaleDownFromOneTargets()
    ensures ScaleDownTarget(1.0) == 0.75
  {
    var r := LastBelow(ZOOMING_LIST, 1.0, |ZOOMING_LIST| - 1);
    assert ZOOMING_LIST[10] == 0.75;
    assert r.Some? && r.value == 10 by {
      assert forall j :: 11 <= j < 24 ==> 1.0 <= ZOOMING_LIST[j];
    }
  }

  /**
   * Because the scan of scaleDown stops before index 0, a scale between the
   * first two presets does not step down to 0.01: from 0.015 it asks for
   * 0.015 * 0.8333 instead.
   */
  lemma ScaleDownSkipsFirstPreset()
    ensures ScaleDownTarget(0.015) == 0.0124995
    ensures ScaleDownTarget(0.015) != ZOOMING_LIST[0]
  {
    var r := LastBelow(ZOOMING_LIST, 0.015, |ZOOMING_LIST| - 1);
    assert r.None? by {
      assert forall j :: 1 <= j < 24 ==> 0.015 <= ZOOMING_LIST[j];
    }
  }
}
