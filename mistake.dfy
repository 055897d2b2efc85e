/** The mistake classifier of ml/mistake_identifier/mistake_identifier.py:
    the ordered rule chain that labels a move from its evaluation loss
    and the time spent on it, the conversion of engine scores to
    centipawns, and the record assembled for one position.  The engine
    itself is not modelled: its best move and scores are inputs. */
module MistakeIdentifier {

  /** The five labels `classify_mistake` returns. */
  datatype Label = TimeTrouble | Blunder | Mistake | Inaccuracy | Minor

  function LabelText(l: Label): (t: string)
  {
    match l
    case TimeTrouble => "Time trouble"
    case Blunder => "Blunder"
    case Mistake => "Mistake"
    case Inaccuracy => "Inaccuracy"
    case Minor => "Minor inaccuracy or stylistic"
  }

  function Abs(x: real): (r: real)
    ensures r >= 0.0 && (r == x || r == -x)
  {
    if x < 0.0 then -x else x
  }

  /** `classify_mistake(actual_eval, best_eval, time_used)`: the loss is
      taken in absolute value, and too little time with a loss over 150
      is reported before the size of the loss is looked at. */
  function Classify(actualEval: real, bestEval: real, timeUsed: real): (l: Label)
    ensures var loss := Abs(bestEval - actualEval);
      && (l == TimeTrouble <==> timeUsed < 2.0 && loss > 150.0)
      && (l == Blunder <==> timeUsed >= 2.0 && loss > 300.0)
      && (l == Mistake <==> timeUsed >= 2.0 && 150.0 < loss <= 300.0)
      && (l == Inaccuracy <==> 50.0 < loss <= 150.0)
      && (l == Minor <==> loss <= 50.0)
  {
    var cpLoss := bestEval - actualEval;
    var absLoss := Abs(cpLoss);
    if timeUsed < 2.0 && absLoss > 150.0 then TimeTrouble
    else if absLoss > 300.0 then Blunder
    else if absLoss > 150.0 then Mistake
    else if absLoss > 50.0 then Inaccuracy
    else Minor
  }

  /** The label depends only on the size of the loss: exchanging the two
      evaluations gives the same label. */
  lemma ClassifySymmetric(a: real, b: real, t: real)
    ensures Classify(a, b, t) == Classify(b, a, t)
  {
    assert Abs(b - a) == Abs(a - b);
  }

  /** Too little time outranks the size of the loss: a loss that would be
      a blunder is time trouble when under two seconds were used. */
  lemma TimeTroubleBeforeBlunder(actualEval: real, bestEval: real, timeUsed: real)
    requires timeUsed < 2.0 && Abs(bestEval - actualEval) > 300.0
    ensures Classify(actualEval, bestEval, timeUsed) == TimeTrouble
  {
  }

  /** The thresholds are strict: a loss of exactly 300, 150 or 50 falls
      into the milder label. */
  lemma StrictThresholds(e: real)
    ensures Classify(e, e + 300.0, 2.0) == Mistake
    ensures Classify(e, e + 150.0, 2.0) == Inaccuracy
    ensures Classify(e, e + 150.0, 0.0) == Inaccuracy
    ensures Classify(e, e + 50.0, 0.0) == Minor
    ensures Classify(e + 300.0, e, 2.0) == Mistake
  {
  }

  /** How severe a label is; time trouble ranks with a mistake. */
  function Severity(l: Label): (n: nat)
    ensures n <= 3
  {
    match l
    case Minor => 0
    case Inaccuracy => 1
    case Mistake => 2
    case TimeTrouble => 2
    case Blunder => 3
  }

  /** With the time fixed, a larger loss never gets a milder label. */
  lemma SeverityMonotone(a1: real, b1: real, a2: real, b2: real, t: real)
    requires Abs(b1 - a1) <= Abs(b2 - a2)
    ensures Severity(Classify(a1, b1, t)) <= Severity(Classify(a2, b2, t))
  {
  }

  /** The text is one of the five the source returns, and different
      labels have different texts. */
  lemma LabelTexts(l: Label, m: Label)
    ensures LabelText(l) in {"Time trouble", "Blunder", "Mistake", "Inaccuracy", "Minor inaccuracy or stylistic"}
    ensures l != m ==> LabelText(l) != LabelText(m)
  {
    if l != m {
      var t, u := LabelText(l), LabelText(m);
      assert t[0] != u[0] || |t| != |u|;
    }
  }

  // ---------------------------------------------------------------------
  // Engine scores

  /** A score as the engine reports it: centipawns, or mate in n moves
      (n <= 0 when the side to move is mated). */
  datatype Score = Cp(cp: int) | Mate(moves: int)

  /** A mate score saturates to 3000 centipawns for the side that mates,
      -3000 otherwise. */
  const MateCp: int := 3000

  /** `_score_to_cp`. */
  function ScoreToCp(s: Score): (r: real)
    ensures s.Mate? ==> r == if s.moves > 0 then MateCp as real else -(MateCp as real)
    ensures s.Cp? ==> r == s.cp as real
  {
    match s
    case Mate(n) => if n > 0 then MateCp as real else -(MateCp as real)
    case Cp(c) => c as real
  }

  /** Between two mate scores of the same side no loss is seen, and
      between opposite mates the loss is 6000: always a blunder with
      enough time. */
  lemma MateScores(n: int, m: int)
    ensures (n > 0) == (m > 0) ==> Classify(ScoreToCp(Mate(n)), ScoreToCp(Mate(m)), 2.0) == Minor
    ensures (n > 0) != (m > 0) ==> Classify(ScoreToCp(Mate(n)), ScoreToCp(Mate(m)), 2.0) == Blunder
  {
  }

  // ---------------------------------------------------------------------
  // The record of one position

  /** The dict `analyze_position` returns. */
  datatype PositionRecord = PositionRecord(
    fen: string,
    bestMove: string,
    actualMove: string,
    bestEvalCp: real,
    actualEvalCp: real,
    cpLoss: real,
    mistakeType: string,
    timeUsed: real)

  /** `analyze_position` once the engine has answered: its best move and
      score before the move, and its score after the actual move. */
  function AnalyzePosition(fen: string, actualMove: string, timeUsed: real,
                           bestMove: string, bestScore: Score, actualScore: Score): (r: PositionRecord)
    ensures r.fen == fen && r.bestMove == bestMove && r.actualMove == actualMove && r.timeUsed == timeUsed
    ensures r.bestEvalCp == ScoreToCp(bestScore) && r.actualEvalCp == ScoreToCp(actualScore)
    ensures r.cpLoss + r.actualEvalCp == r.bestEvalCp
    ensures r.mistakeType == LabelText(Classify(r.actualEvalCp, r.bestEvalCp, timeUsed))
  {
    var bestEval := ScoreToCp(bestScore);
    var actualEval := ScoreToCp(actualScore);
    PositionRecord(fen, bestMove, actualMove, bestEval, actualEval, bestEval - actualEval,
                   LabelText(Classify(actualEval, bestEval, timeUsed)), timeUsed)
  }

  /** The recorded loss is signed, while the label looks at its size: a
      move that improves on the engine's line by more than 300 is still
      recorded as a blunder. */
  lemma SignedLossSevereLabel(fen: string, move: string, bestMove: string)
    ensures var r := AnalyzePosition(fen, move, 5.0, bestMove, Cp(0), Cp(400));
      r.cpLoss == -400.0 && r.mistakeType == "Blunder"
  {
  }

  /** The label of a record is fixed by the size of its recorded loss and
      its time. */
  lemma RecordLabelFromLoss(fen: string, actualMove: string, timeUsed: real,
                            bestMove: string, bestScore: Score, actualScore: Score)
    ensures var r := AnalyzePosition(fen, actualMove, timeUsed, bestMove, bestScore, actualScore);
      r.mistakeType == LabelText(Classify(0.0, Abs(r.cpLoss), timeUsed))
  {
  }
}
