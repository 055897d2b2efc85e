/** How the components fit together: the evaluation texts a Lichess game
    carries are read by the drop detector of
    src/ml/helper_functions.py/evaluation_drop_detector.py. */
module Pipeline {
  import opened Common
  import opened Text
  import opened GameModel
  import Lichess
  import DropDetector

  /** A Lichess centipawn evaluation normalises back to its value. */
  lemma CentipawnTextNormalizes(st: Lichess.AnalysisStep)
    requires st.eval.Some?
    ensures Lichess.StepText(st).Some?
    ensures DropDetector.NormalizeEval(Lichess.StepText(st).value) == Some(st.eval.value as real)
  {
    DropDetector.NormalizeIntText(st.eval.value);
  }

  /** A Lichess mate evaluation ("mate in 3", "mated in 2") is no mate
      marker for the drop detector, which looks for a capital M, and does
      not parse as a number: it normalises to nothing. */
  lemma MateTextIgnored(st: Lichess.AnalysisStep)
    requires st.eval.None? && st.mate.Some?
    ensures Lichess.StepText(st).Some?
    ensures DropDetector.NormalizeEval(Lichess.StepText(st).value) == None
  {
    var t := Lichess.StepText(st).value;
    assert t[0] == 'm';
    assert !DropDetector.IsMateMarker(t);
    ParseDecimalOfLetter(t);
  }

  /** With a centipawn evaluation at every step, the evaluation texts are
      those numbers written out, one per step. */
  lemma {:induction false} EvalTextsOfCentipawns(steps: seq<Lichess.AnalysisStep>)
    requires forall i :: 0 <= i < |steps| ==> steps[i].eval.Some?
    ensures |Lichess.EvalTexts(steps)| == |steps|
    ensures forall i :: 0 <= i < |steps| ==> Lichess.EvalTexts(steps)[i] == IntToString(steps[i].eval.value)
    decreases |steps|
  {
    if steps != [] {
      var init := steps[..|steps| - 1];
      var last := steps[|steps| - 1];
      assert forall i :: 0 <= i < |init| ==> init[i] == steps[i];
      EvalTextsOfCentipawns(init);
      var t := Lichess.StepText(last);
      assert t == Some(IntToString(last.eval.value));
      var ts := Lichess.EvalTexts(steps);
      assert ts == Lichess.EvalTexts(init) + [t.value];
      forall i | 0 <= i < |steps|
        ensures ts[i] == IntToString(steps[i].eval.value)
      {
        if i < |init| {
          assert ts[i] == Lichess.EvalTexts(init)[i];
        }
      }
    }
  }

  /** A Lichess game analysed in centipawns throughout hands the drop
      detector the engine's numbers: the i-th evaluation it normalises is
      the i-th step's centipawn value. */
  lemma LichessEvaluationsNormalize(rec: Lichess.Record, username: string, platform: string)
    requires Lichess.MapRecord(rec, username, platform).Ok?
    requires forall i :: 0 <= i < |rec.analysis| ==> rec.analysis[i].eval.Some?
    ensures var g := Lichess.MapRecord(rec, username, platform).value;
      && |g.evaluations| <= |rec.analysis|
      && forall i :: 0 <= i < |g.evaluations| ==>
           DropDetector.Normalized(g.evaluations)[i] == Some(rec.analysis[i].eval.value as real)
  {
    var g := Lichess.MapRecord(rec, username, platform).value;
    EvalTextsOfCentipawns(rec.analysis);
    var all := Lichess.EvalTexts(rec.analysis);
    assert g.evaluations == Lichess.Take(all, |g.moves|);
    forall i | 0 <= i < |g.evaluations|
      ensures DropDetector.Normalized(g.evaluations)[i] == Some(rec.analysis[i].eval.value as real)
    {
      DropDetector.NormalizedAt(g.evaluations, i);
      assert g.evaluations[i] == all[i];
      DropDetector.NormalizeIntText(rec.analysis[i].eval.value);
    }
  }
}
