/** The evaluation drop detector of
    src/ml/helper_functions.py/evaluation_drop_detector.py: evaluation
    strings are normalised to numbers, and every adjacent pair whose value
    falls by at least the threshold is reported. */
module DropDetector {
  import opened Common
  import opened Text

  /** The detector's one setting, the minimum drop that is reported.  It
      is compared with the raw normalised values, without any scaling. */
  datatype Detector = Detector(thresholdCp: int)

  const DefaultThreshold: int := 100

  function NewDetector(thresholdCp: Option<int>): (d: Detector)
    ensures thresholdCp.None? ==> d.thresholdCp == DefaultThreshold
    ensures thresholdCp.Some? ==> d.thresholdCp == thresholdCp.value
  {
    Detector(thresholdCp.GetOr(DefaultThreshold))
  }

  /** A mate marker: a text that starts with "M", "+M" or "-M". */
  predicate IsMateMarker(s: string)
  {
    StartsWith(s, "M") || StartsWith(s, "+M") || StartsWith(s, "-M")
  }

  /** `_normalize_eval`: a mate marker is +1000 when it starts with '+'
      and -1000 otherwise; any other text is its `float` value, or None
      when it does not parse. */
  function NormalizeEval(s: string): (v: Option<real>)
    ensures IsMateMarker(s) ==> v == Some(if s[0] == '+' then 1000.0 else -1000.0)
    ensures !IsMateMarker(s) ==> v == ParseDecimal(s)
  {
    if IsMateMarker(s) then Some(if StartsWith(s, "+") then 1000.0 else -1000.0)
    else ParseDecimal(s)
  }

  /** A bare "M" marker counts as a mate against, whatever follows it. */
  lemma BareMateIsNegative(rest: string)
    ensures NormalizeEval("M" + rest) == Some(-1000.0)
    ensures NormalizeEval("+M" + rest) == Some(1000.0)
    ensures NormalizeEval("-M" + rest) == Some(-1000.0)
  {
    assert StartsWith("M" + rest, "M");
    assert StartsWith("+M" + rest, "+M");
    assert StartsWith("-M" + rest, "-M");
  }

  /** Centipawns are not rescaled: "+2.50" is 2.5, not 250. */
  lemma NoCentipawnScaling()
    ensures NormalizeEval("+2.50") == Some(2.5)
  {
    TwoFiftyWithPlus("+2.50");
  }

  lemma TwoFiftyWithPlus(s: string)
    requires s == "+" + "2.50"
    ensures NormalizeEval(s) == Some(2.5)
  {
    NotAMarker(s);
    TwoFifty();
    assert s[1..] == "2.50";
    PlusSigned(s, 2.5);
  }

  lemma NotAMarker(s: string)
    requires s != [] && s[0] != 'M' && (|s| >= 2 ==> s[1] != 'M')
    ensures !IsMateMarker(s)
  {
    assert s[..1][0] == s[0];
    assert |s| >= 2 ==> s[..2][1] == s[1];
  }

  lemma PlusSigned(s: string, v: real)
    requires |s| >= 2 && s[0] == '+' && !IsSpace(s[|s| - 1]) && ParseUnsignedDecimal(s[1..]) == Some(v)
    ensures ParseDecimal(s) == Some(v)
  {
    StripOfTrimmed(s);
    ParseDecimalOfPlus(s, v);
  }

  lemma TwoFifty()
    ensures ParseUnsignedDecimal("2.50") == Some(2.5)
  {
    var t := "2.50";
    FirstPoint("2", "50");
    assert "2" + "." + "50" == t;
    assert t[..1] == "2" && t[2..] == "50";
    assert DigitsValue("2") == 2;
    assert DigitsValue("50") == 50;
    assert Pow10(2) == 100;
  }

  /** The text an integer prints as normalises to that integer. */
  lemma NormalizeIntText(n: int)
    ensures NormalizeEval(IntToString(n)) == Some(n as real)
  {
    var s := IntToString(n);
    NotAMarker(s);
    ParseDecimalOfString(n);
  }

  /** The values of a pair that is reported: at index i, the normalised
      evaluations before and after and the position at i. */
  datatype Drop = Drop(index: nat, before: real, after: real, position: string)

  /** Every evaluation normalised, in order. */
  function Normalized(evaluations: seq<string>): (vs: seq<Option<real>>)
    ensures |vs| == |evaluations|
  {
    if evaluations == [] then [] else [NormalizeEval(evaluations[0])] + Normalized(evaluations[1..])
  }

  lemma {:induction false} NormalizedAt(evaluations: seq<string>, i: nat)
    requires i < |evaluations|
    ensures Normalized(evaluations)[i] == NormalizeEval(evaluations[i])
  {
    if i > 0 {
      NormalizedAt(evaluations[1..], i - 1);
    }
  }

  /** Replacing one evaluation changes only its own normalised value. */
  lemma {:induction false} NormalizedUpdate(evaluations: seq<string>, j: nat, other: string)
    requires j < |evaluations|
    ensures Normalized(evaluations[j := other]) == Normalized(evaluations)[j := NormalizeEval(other)]
  {
    if j > 0 {
      assert evaluations[j := other][1..] == evaluations[1..][j - 1 := other];
      NormalizedUpdate(evaluations[1..], j - 1, other);
    } else {
      assert evaluations[j := other][1..] == evaluations[1..];
    }
  }

  /** The pair ending at index i is reported: both sides normalise and
      the value falls by at least the threshold. */
  predicate Fires(vs: seq<Option<real>>, threshold: int, i: nat)
    requires 1 <= i < |vs|
  {
    vs[i - 1].Some? && vs[i].Some? && vs[i - 1].value - vs[i].value >= threshold as real
  }

  /** The tuple reported for the pair ending at index i. */
  function DropAt(vs: seq<Option<real>>, positions: seq<string>, i: nat): (d: Drop)
    requires 1 <= i < |vs| == |positions|
    requires vs[i - 1].Some? && vs[i].Some?
    ensures d.index == i && d.position == positions[i]
    ensures Some(d.before) == vs[i - 1] && Some(d.after) == vs[i]
  {
    Drop(i, vs[i - 1].value, vs[i].value, positions[i])
  }

  /** The drops among the pairs ending before index n, in index order. */
  function DropsBefore(vs: seq<Option<real>>, positions: seq<string>, threshold: int, n: nat): seq<Drop>
    requires n <= |vs| == |positions|
  {
    if n <= 1 then []
    else
      DropsBefore(vs, positions, threshold, n - 1)
        + (if Fires(vs, threshold, n - 1) then [DropAt(vs, positions, n - 1)] else [])
  }

  /** `find_drops`: columns of different lengths fail the assertion. */
  function Drops(d: Detector, evaluations: seq<string>, positions: seq<string>): (r: Result<seq<Drop>>)
    ensures r.Err? <==> |evaluations| != |positions|
    ensures r.Err? ==> r.error == LengthMismatch
  {
    if |evaluations| != |positions| then Err(LengthMismatch)
    else Ok(DropsBefore(Normalized(evaluations), positions, d.thresholdCp, |evaluations|))
  }

  /** Every reported tuple is a firing pair with its own values, indices
      lie in [1, n) and strictly increase, and every firing pair below n is
      reported. */
  lemma {:induction false} DropsBeforeMeaning(vs: seq<Option<real>>, positions: seq<string>, threshold: int, n: nat)
    requires n <= |vs| == |positions|
    ensures var ds := DropsBefore(vs, positions, threshold, n);
      && (forall k :: 0 <= k < |ds| ==>
            && 1 <= ds[k].index < n
            && Fires(vs, threshold, ds[k].index)
            && ds[k] == DropAt(vs, positions, ds[k].index))
      && (forall k, l :: 0 <= k < l < |ds| ==> ds[k].index < ds[l].index)
      && (forall i :: 1 <= i < n && Fires(vs, threshold, i) ==>
            exists k :: 0 <= k < |ds| && ds[k].index == i)
  {
    if n > 1 {
      DropsBeforeMeaning(vs, positions, threshold, n - 1);
      var prefix := DropsBefore(vs, positions, threshold, n - 1);
      var ds := DropsBefore(vs, positions, threshold, n);
      forall i | 1 <= i < n && Fires(vs, threshold, i)
        ensures exists k :: 0 <= k < |ds| && ds[k].index == i
      {
        if i < n - 1 {
          var k :| 0 <= k < |prefix| && prefix[k].index == i;
          assert ds[k] == prefix[k];
        } else {
          assert ds[|ds| - 1].index == i;
        }
      }
    }
  }

  /** The drops over a whole list of normalised values: each a firing
      pair with its own values and position, in strictly increasing index
      order, and every firing pair reported. */
  lemma DropsOver(vs: seq<Option<real>>, positions: seq<string>, threshold: int)
    requires |vs| == |positions|
    ensures var ds := DropsBefore(vs, positions, threshold, |vs|);
      && (forall k :: 0 <= k < |ds| ==>
            && 1 <= ds[k].index < |vs|
            && vs[ds[k].index - 1] == Some(ds[k].before)
            && vs[ds[k].index] == Some(ds[k].after)
            && ds[k].before - ds[k].after >= threshold as real
            && ds[k].position == positions[ds[k].index])
      && (forall k, l :: 0 <= k < l < |ds| ==> ds[k].index < ds[l].index)
      && (forall i :: 1 <= i < |vs| && Fires(vs, threshold, i) ==>
            exists k :: 0 <= k < |ds| && ds[k].index == i)
  {
    DropsBeforeMeaning(vs, positions, threshold, |vs|);
    var ds := DropsBefore(vs, positions, threshold, |vs|);
    forall k | 0 <= k < |ds|
      ensures 1 <= ds[k].index < |vs|
      ensures vs[ds[k].index - 1] == Some(ds[k].before) && vs[ds[k].index] == Some(ds[k].after)
      ensures ds[k].before - ds[k].after >= threshold as real
      ensures ds[k].position == positions[ds[k].index]
    {
      var i := ds[k].index;
      assert Fires(vs, threshold, i) && ds[k] == DropAt(vs, positions, i);
    }
  }

  /** What `find_drops` reports: a tuple (i, before, after, positions[i])
      for exactly the indices i in [1, len) whose two evaluations
      normalise to before and after with a fall of at least the threshold,
      in increasing index order. */
  lemma DropsMeaning(d: Detector, evaluations: seq<string>, positions: seq<string>)
    requires |evaluations| == |positions|
    ensures var ds := Drops(d, evaluations, positions).value;
      && (forall k :: 0 <= k < |ds| ==>
            && 1 <= ds[k].index < |evaluations|
            && Normalized(evaluations)[ds[k].index - 1] == Some(ds[k].before)
            && Normalized(evaluations)[ds[k].index] == Some(ds[k].after)
            && ds[k].before - ds[k].after >= d.thresholdCp as real
            && ds[k].position == positions[ds[k].index])
      && (forall k, l :: 0 <= k < l < |ds| ==> ds[k].index < ds[l].index)
      && (forall i :: 1 <= i < |evaluations| && Fires(Normalized(evaluations), d.thresholdCp, i) ==>
            exists k :: 0 <= k < |ds| && ds[k].index == i)
  {
    DropsOver(Normalized(evaluations), positions, d.thresholdCp);
    assert Drops(d, evaluations, positions).value
        == DropsBefore(Normalized(evaluations), positions, d.thresholdCp, |Normalized(evaluations)|);
  }

  /** Inputs with fewer than two evaluations report nothing. */
  lemma ShortInputsReportNothing(d: Detector, evaluations: seq<string>, positions: seq<string>)
    requires |evaluations| == |positions| < 2
    ensures Drops(d, evaluations, positions) == Ok([])
  {
  }

  /** An evaluation that does not normalise suppresses the two pairs it is
      part of and no other: replacing it changes no other pair. */
  lemma UnparseableSuppressesOnlyItsPairs(evaluations: seq<string>, threshold: int, j: nat, other: string)
    requires j < |evaluations| && NormalizeEval(evaluations[j]).None?
    ensures var vs := Normalized(evaluations);
      && (1 <= j ==> !Fires(vs, threshold, j))
      && (j + 1 < |evaluations| ==> !Fires(vs, threshold, j + 1))
      && forall i :: 1 <= i < |evaluations| && i != j && i != j + 1 ==>
           Fires(Normalized(evaluations[j := other]), threshold, i) == Fires(vs, threshold, i)
  {
    NormalizedAt(evaluations, j);
    NormalizedUpdate(evaluations, j, other);
    MissingValueSuppresses(Normalized(evaluations), threshold, j, NormalizeEval(other));
  }

  lemma MissingValueSuppresses(vs: seq<Option<real>>, threshold: int, j: nat, x: Option<real>)
    requires j < |vs| && vs[j].None?
    ensures 1 <= j ==> !Fires(vs, threshold, j)
    ensures j + 1 < |vs| ==> !Fires(vs, threshold, j + 1)
    ensures forall i :: 1 <= i < |vs| && i != j && i != j + 1 ==>
      Fires(vs[j := x], threshold, i) == Fires(vs, threshold, i)
  {
  }

  /** The body of the scan for the pair ending at index i. */
  method CheckPair(d: Detector, evaluations: seq<string>, positions: seq<string>, i: nat) returns (drop: Option<Drop>)
    requires 1 <= i < |evaluations| == |positions|
    ensures var vs := Normalized(evaluations);
      && (drop.Some? <==> Fires(vs, d.thresholdCp, i))
      && (drop.Some? ==> drop.value == DropAt(vs, positions, i))
  {
    NormalizedAt(evaluations, i - 1);
    NormalizedAt(evaluations, i);
    var prevEval := NormalizeEval(evaluations[i - 1]);
    var currEval := NormalizeEval(evaluations[i]);
    if prevEval.None? || currEval.None? {
      return None;
    }
    var fall := prevEval.value - currEval.value;
    if fall >= d.thresholdCp as real {
      return Some(Drop(i, prevEval.value, currEval.value, positions[i]));
    }
    drop := None;
  }

  /** `find_drops` as the scan over adjacent pairs. */
  method FindDrops(d: Detector, evaluations: seq<string>, positions: seq<string>) returns (r: Result<seq<Drop>>)
    ensures r == Drops(d, evaluations, positions)
  {
    if |evaluations| != |positions| {
      return Err(LengthMismatch);
    }
    ghost var vs := Normalized(evaluations);
    var drops: seq<Drop> := [];
    if |evaluations| > 1 {
      for i := 1 to |evaluations|
        invariant drops == DropsBefore(vs, positions, d.thresholdCp, i)
      {
        var drop := CheckPair(d, evaluations, positions, i);
        if drop.Some? {
          drops := drops + [drop.value];
        }
      }
    }
    assert drops == DropsBefore(vs, positions, d.thresholdCp, |evaluations|);
    r := Ok(drops);
  }
}
