/** The archive-by-month adapter of src/platforms/chesscom.py: the walk
    over calendar months, the per-month filter, and the mapping of one
    provider record to a game, including the clock annotations in the
    move text. */
module ChessCom {
  import opened Common
  import opened Text
  import opened GameModel
  import opened PlayerModel
  import opened PlatformRules

  // ---------------------------------------------------------------------
  // Calendar months

  datatype YearMonth = YearMonth(year: int, month: int)

  /** The first instant of a calendar month; months are 1..12. */
  type Month = m: YearMonth | 1 <= m.month <= 12 witness YearMonth(2000, 1)

  /** Months counted from year 0, so that consecutive months differ by one. */
  function Index(m: Month): int
  {
    m.year * 12 + m.month - 1
  }

  /** `current_month -= relativedelta(months=1)`. */
  function PreviousMonth(m: Month): (r: Month)
    ensures Index(r) == Index(m) - 1
  {
    if m.month == 1 then YearMonth(m.year - 1, 12) else YearMonth(m.year, m.month - 1)
  }

  lemma IndexInjective(a: Month, b: Month)
    requires Index(a) == Index(b)
    ensures a == b
  {
    assert (a.year - b.year) * 12 == b.month - a.month;
    SmallMultipleOfTwelve(a.year - b.year);
  }

  lemma SmallMultipleOfTwelve(d: int)
    requires -12 < d * 12 < 12
    ensures d == 0
  {
  }

  /** The months from `end` down to `start`, both included. */
  function MonthsDown(end: Month, start: Month): (ms: seq<Month>)
    ensures |ms| == if Index(end) < Index(start) then 0 else Index(end) - Index(start) + 1
    decreases Index(end) - Index(start)
  {
    if Index(end) < Index(start) then [] else [end] + MonthsDown(PreviousMonth(end), start)
  }

  /** The k-th month of the walk is k months before its end, so every month
      from `end` down to `start` is visited exactly once, newest first. */
  lemma {:induction false} MonthsDownAt(end: Month, start: Month, k: nat)
    requires k < |MonthsDown(end, start)|
    ensures Index(MonthsDown(end, start)[k]) == Index(end) - k
    decreases Index(end) - Index(start)
  {
    if k > 0 {
      MonthsDownAt(PreviousMonth(end), start, k - 1);
    }
  }

  lemma MonthsDownStrictlyDecreasing(end: Month, start: Month)
    ensures forall i, j :: 0 <= i < j < |MonthsDown(end, start)| ==>
      Index(MonthsDown(end, start)[i]) > Index(MonthsDown(end, start)[j])
    ensures forall k :: 0 <= k < |MonthsDown(end, start)| ==>
      Index(start) <= Index(MonthsDown(end, start)[k]) <= Index(end)
  {
    forall k | 0 <= k < |MonthsDown(end, start)| {
      MonthsDownAt(end, start, k);
    }
  }

  /** Every month between the two bounds is on the walk. */
  lemma MonthsDownComplete(end: Month, start: Month, m: Month)
    requires Index(start) <= Index(m) <= Index(end)
    ensures m in MonthsDown(end, start)
  {
    var k := Index(end) - Index(m);
    MonthsDownAt(end, start, k);
    IndexInjective(MonthsDown(end, start)[k], m);
  }

  // ---------------------------------------------------------------------
  // Provider records

  /** `game_data["white"]` or `game_data["black"]`; a missing side decodes
      as a side with neither key, as `.get(side, {})` gives. */
  datatype Side = Side(username: Option<string>, result: Option<string>)

  /** One match of the move pattern over the moves section: whether the
      move number was followed by "..", the move text, and the text of
      its clock annotation if it had one. */
  datatype MoveMatch = MoveMatch(isBlack: bool, move: string, clock: Option<string>)

  /** A decoded record of the monthly archive; each Option is a key that
      may be missing.  `moveMatches` are the matches the tokeniser finds in
      the record's moves section. */
  datatype Record = Record(
    rules: Option<string>,
    pgn: Option<string>,
    moveMatches: seq<MoveMatch>,
    endTime: Option<int>,
    white: Side,
    black: Side,
    result: Option<string>,
    eco: Option<string>,
    opening: Option<string>,
    url: Option<string>,
    timeClass: Option<string>)

  // ---------------------------------------------------------------------
  // PGN and clocks

  /** `pgn.split("\n\n", 1)[1].replace("\n", " ")`, or None where the
      index raises because the PGN has no blank line after its headers. */
  function MovesSection(pgn: string): (r: Option<string>)
    ensures r.None? <==> forall j: nat :: !OccursAt(pgn, "\n\n", j)
    ensures r.Some? ==> '\n' !in r.value
  {
    match Find(pgn, "\n\n")
    case None => None
    case Some(k) => Some(ReplaceChar(pgn[k + 2..], '\n', ' '))
  }

  /** `parse_clock`: "h:m:s" or "m:s" to seconds; None for an absent or
      empty annotation or any other number of parts; an error where
      `int()` or `float()` rejects a part. */
  function ParseClock(clk: Option<string>): Result<Option<real>>
  {
    if clk.None? || clk.value == "" then Ok(None)
    else ClockOfParts(Split(clk.value, ':'))
  }

  /** An annotation that is absent or empty, or that has neither one nor
      two colons, carries no clock. */
  lemma ParseClockNoClock(clk: Option<string>)
    requires clk.None? || clk == Some("")
          || (Occurrences(clk.value, ':') != 1 && Occurrences(clk.value, ':') != 2)
    ensures ParseClock(clk) == Ok(None)
  {
    if clk.Some? {
      JoinSplit(clk.value, ':');
    }
  }

  /** `parse_clock` once the annotation is split at ':': hours and
      minutes read with `int()`, seconds with `float()`, so that the
      seconds may carry a fraction. */
  function ClockOfParts(parts: seq<string>): (r: Result<Option<real>>)
    ensures |parts| != 2 && |parts| != 3 ==> r == Ok(None)
  {
    if |parts| == 3 then
      match ParseInt(parts[0])
      case None => Err(NotANumber(parts[0]))
      case Some(h) =>
        match ParseInt(parts[1])
        case None => Err(NotANumber(parts[1]))
        case Some(m) =>
          match ParseDecimal(parts[2])
          case None => Err(NotANumber(parts[2]))
          case Some(s) => Ok(Some(h as real * 3600.0 + m as real * 60.0 + s))
    else if |parts| == 2 then
      match ParseInt(parts[0])
      case None => Err(NotANumber(parts[0]))
      case Some(m) =>
        match ParseDecimal(parts[1])
        case None => Err(NotANumber(parts[1]))
        case Some(s) => Ok(Some(m as real * 60.0 + s))
    else Ok(None)
  }

  /** The part that `int()` or `float()` rejects first, from the left, is
      the error. */
  lemma ClockOfPartsErrors(parts: seq<string>)
    ensures |parts| == 3 && ParseInt(parts[0]).None? ==> ClockOfParts(parts) == Err(NotANumber(parts[0]))
    ensures |parts| == 3 && ParseInt(parts[0]).Some? && ParseInt(parts[1]).None? ==>
      ClockOfParts(parts) == Err(NotANumber(parts[1]))
    ensures |parts| == 3 && ParseInt(parts[0]).Some? && ParseInt(parts[1]).Some? && ParseDecimal(parts[2]).None? ==>
      ClockOfParts(parts) == Err(NotANumber(parts[2]))
    ensures |parts| == 2 && ParseInt(parts[0]).None? ==> ClockOfParts(parts) == Err(NotANumber(parts[0]))
    ensures |parts| == 2 && ParseInt(parts[0]).Some? && ParseDecimal(parts[1]).None? ==>
      ClockOfParts(parts) == Err(NotANumber(parts[1]))
    ensures ClockOfParts(parts).Err? ==> ClockOfParts(parts).error.NotANumber? && ClockOfParts(parts).error.text in parts
  {
  }

  /** "h:m:s" reads as h*3600 + m*60 + s seconds, the seconds possibly
      fractional ("0:09:59.9"). */
  lemma ClockOfThreeParts(hs: string, ms: string, ss: string, h: int, m: int, s: real)
    requires ParseInt(hs) == Some(h) && ParseInt(ms) == Some(m) && ParseDecimal(ss) == Some(s)
    ensures ClockOfParts([hs, ms, ss]) == Ok(Some(h as real * 3600.0 + m as real * 60.0 + s))
  {
    var parts := [hs, ms, ss];
    assert parts[0] == hs && parts[1] == ms && parts[2] == ss;
  }

  /** "m:s" reads as m*60 + s seconds, the seconds possibly fractional. */
  lemma ClockOfTwoParts(ms: string, ss: string, m: int, s: real)
    requires ParseInt(ms) == Some(m) && ParseDecimal(ss) == Some(s)
    ensures ClockOfParts([ms, ss]) == Ok(Some(m as real * 60.0 + s))
  {
    var parts := [ms, ss];
    assert parts[0] == ms && parts[1] == ss;
  }

  lemma ParseClockOfParts(text: string, parts: seq<string>)
    requires Split(text, ':') == parts && text != []
    ensures ParseClock(Some(text)) == ClockOfParts(parts)
  {
  }

  /** A clock text "h:m:s" whose parts parse reads as h*3600 + m*60 + s
      seconds, fractional seconds included. */
  lemma ParseClockThree(hs: string, ms: string, ss: string, h: int, m: int, s: real)
    requires ':' !in hs && ':' !in ms && ':' !in ss
    requires ParseInt(hs) == Some(h) && ParseInt(ms) == Some(m) && ParseDecimal(ss) == Some(s)
    ensures ParseClock(Some(hs + ":" + ms + ":" + ss)) == Ok(Some(h as real * 3600.0 + m as real * 60.0 + s))
  {
    var text := hs + ":" + ms + ":" + ss;
    assert text == hs + [':'] + ms + [':'] + ss;
    SplitThree(hs, ms, ss, ':');
    ParseClockOfParts(text, [hs, ms, ss]);
    ClockOfThreeParts(hs, ms, ss, h, m, s);
  }

  /** A clock text "m:s" whose parts parse reads as m*60 + s seconds. */
  lemma ParseClockTwo(ms: string, ss: string, m: int, s: real)
    requires ':' !in ms && ':' !in ss
    requires ParseInt(ms) == Some(m) && ParseDecimal(ss) == Some(s)
    ensures ParseClock(Some(ms + ":" + ss)) == Ok(Some(m as real * 60.0 + s))
  {
    var text := ms + ":" + ss;
    assert text == ms + [':'] + ss;
    SplitTwo(ms, ss, ':');
    ParseClockOfParts(text, [ms, ss]);
    ClockOfTwoParts(ms, ss, m, s);
  }

  /** An integer written out has no colon and reads back with both
      `int()` and `float()`. */
  lemma WrittenPart(n: int)
    ensures ':' !in IntToString(n)
    ensures ParseInt(IntToString(n)) == Some(n) && ParseDecimal(IntToString(n)) == Some(n as real)
  {
    IntToStringChars(n, ':');
    ParseIntOfString(n);
    ParseDecimalOfString(n);
  }

  /** "h:m:s" with whole numbers written out reads as h*3600 + m*60 + s. */
  lemma ParseClockHms(h: int, m: int, s: int)
    ensures ParseClock(Some(IntToString(h) + ":" + IntToString(m) + ":" + IntToString(s)))
         == Ok(Some(h as real * 3600.0 + m as real * 60.0 + s as real))
  {
    WrittenPart(h);
    WrittenPart(m);
    WrittenPart(s);
    ParseClockThree(IntToString(h), IntToString(m), IntToString(s), h, m, s as real);
  }

  /** "m:s" with whole numbers written out reads as m*60 + s. */
  lemma ParseClockMs(m: int, s: int)
    ensures ParseClock(Some(IntToString(m) + ":" + IntToString(s))) == Ok(Some(m as real * 60.0 + s as real))
  {
    WrittenPart(m);
    WrittenPart(s);
    ParseClockTwo(IntToString(m), IntToString(s), m, s as real);
  }

  /** The clocks of a sequence of matches, parsed in order; the first
      annotation that fails to parse is the error. */
  function ParsedClocks(ms: seq<MoveMatch>): (r: Result<seq<Option<real>>>)
    ensures r.Ok? ==> |r.value| == |ms|
    ensures r.Ok? ==> forall i :: 0 <= i < |ms| ==> ParseClock(ms[i].clock) == Ok(r.value[i])
    ensures r.Ok? <==> forall i :: 0 <= i < |ms| ==> ParseClock(ms[i].clock).Ok?
  {
    if ms == [] then Ok([])
    else
      match ParseClock(ms[0].clock)
      case Err(e) => Err(e)
      case Ok(c) =>
        match ParsedClocks(ms[1..])
        case Err(e) => Err(e)
        case Ok(cs) => Ok([c] + cs)
  }

  /** The error is the one of the first unparseable annotation. */
  lemma {:induction false} ParsedClocksFirstError(ms: seq<MoveMatch>, i: nat)
    requires i < |ms| && ParseClock(ms[i].clock).Err?
    requires forall j :: 0 <= j < i ==> ParseClock(ms[j].clock).Ok?
    ensures ParsedClocks(ms) == Err(ParseClock(ms[i].clock).error)
  {
    if i > 0 {
      var rest := ms[1..];
      assert rest[i - 1] == ms[i];
      forall j | 0 <= j < i - 1
        ensures ParseClock(rest[j].clock).Ok?
      {
        assert rest[j] == ms[j + 1];
      }
      ParsedClocksFirstError(rest, i - 1);
      assert ParseClock(ms[0].clock).Ok?;
    }
  }

  /** The clock of the last move before position i played by the colour
      `black` that carried a clock. */
  function LastClock(ms: seq<MoveMatch>, clocks: seq<Option<real>>, black: bool, i: nat): (r: Option<real>)
    requires |clocks| == |ms| && i <= |ms|
    ensures r.Some? ==> exists j :: 0 <= j < i && ms[j].isBlack == black && clocks[j] == r
  {
    if i == 0 then None
    else if ms[i - 1].isBlack == black && clocks[i - 1].Some? then clocks[i - 1]
    else LastClock(ms, clocks, black, i - 1)
  }

  /** LastClock is what `prev_white_clock` / `prev_black_clock` hold before
      move i: None exactly when no earlier move of that colour carried a
      clock, otherwise the clock of the latest one that did. */
  lemma {:induction false} LastClockLatest(ms: seq<MoveMatch>, clocks: seq<Option<real>>, black: bool, i: nat)
    requires |clocks| == |ms| && i <= |ms|
    ensures var r := LastClock(ms, clocks, black, i);
      && (r.None? <==> forall j :: 0 <= j < i ==> !(ms[j].isBlack == black && clocks[j].Some?))
      && (r.Some? ==> exists j :: 0 <= j < i && ms[j].isBlack == black && clocks[j] == r
                        && forall k :: j < k < i ==> !(ms[k].isBlack == black && clocks[k].Some?))
  {
    if i > 0 {
      LastClockLatest(ms, clocks, black, i - 1);
    }
  }

  /** The time spent on move i: the mover's previous clock minus its clock
      now, or None when either is missing. */
  function Delta(ms: seq<MoveMatch>, clocks: seq<Option<real>>, i: nat): Option<real>
    requires |clocks| == |ms| && i < |ms|
  {
    var prev := LastClock(ms, clocks, ms[i].isBlack, i);
    if clocks[i].Some? && prev.Some? then Some(prev.value - clocks[i].value) else None
  }

  function TimeSpentOf(ms: seq<MoveMatch>, clocks: seq<Option<real>>): (ts: seq<Option<real>>)
    requires |clocks| == |ms|
    ensures |ts| == |ms|
  {
    seq(|ms|, i requires 0 <= i < |ms| => Delta(ms, clocks, i))
  }

  function MoveTexts(ms: seq<MoveMatch>): (r: seq<string>)
    ensures |r| == |ms|
  {
    seq(|ms|, i requires 0 <= i < |ms| => ms[i].move)
  }

  /** The move list and the time-spent list of a record, or the error of
      its first unparseable clock. */
  function MovesAndTimes(ms: seq<MoveMatch>): Result<(seq<string>, seq<Option<real>>)>
  {
    match ParsedClocks(ms)
    case Err(e) => Err(e)
    case Ok(cs) => Ok((MoveTexts(ms), TimeSpentOf(ms, cs)))
  }

  /** What the loop over the move matches carries: the moves and the
      time spent so far, and each colour's latest clock. */
  datatype Reading = Reading(moves: seq<string>, timeSpent: seq<Option<real>>,
                             prevWhite: Option<real>, prevBlack: Option<real>)

  const NoReading := Reading([], [], None, None)

  /** One pass of the loop body for a match whose clock parsed as `clock`. */
  function ReadMove(st: Reading, m: MoveMatch, clock: Option<real>): Reading
  {
    var prev := if m.isBlack then st.prevBlack else st.prevWhite;
    var spent := if clock.Some? && prev.Some? then Some(prev.value - clock.value) else None;
    var next := st.(moves := st.moves + [m.move], timeSpent := st.timeSpent + [spent]);
    if clock.None? then next
    else if m.isBlack then next.(prevBlack := clock)
    else next.(prevWhite := clock)
  }

  /** The loop run over the remaining matches; it stops at the first
      annotation that fails to parse. */
  function ReadAll(st: Reading, ms: seq<MoveMatch>): Result<Reading>
    decreases |ms|
  {
    if ms == [] then Ok(st)
    else
      match ParseClock(ms[0].clock)
      case Err(e) => Err(e)
      case Ok(c) => ReadAll(ReadMove(st, ms[0], c), ms[1..])
  }

  lemma ReadAllStep(st: Reading, ms: seq<MoveMatch>, i: nat)
    requires i < |ms|
    ensures ParseClock(ms[i].clock).Err? ==> ReadAll(st, ms[i..]) == Err(ParseClock(ms[i].clock).error)
    ensures ParseClock(ms[i].clock).Ok? ==>
      ReadAll(st, ms[i..]) == ReadAll(ReadMove(st, ms[i], ParseClock(ms[i].clock).value), ms[i + 1..])
  {
    assert ms[i..][0] == ms[i] && ms[i..][1..] == ms[i + 1..];
  }

  /** The loop state after the first i matches, read off the declarative
      definitions. */
  function ReadingAt(ms: seq<MoveMatch>, cs: seq<Option<real>>, i: nat): Reading
    requires |cs| == |ms| && i <= |ms|
  {
    Reading(MoveTexts(ms)[..i], TimeSpentOf(ms, cs)[..i], LastClock(ms, cs, false, i), LastClock(ms, cs, true, i))
  }

  lemma ReadMoveStep(ms: seq<MoveMatch>, cs: seq<Option<real>>, i: nat)
    requires |cs| == |ms| && i < |ms|
    ensures ReadMove(ReadingAt(ms, cs, i), ms[i], cs[i]) == ReadingAt(ms, cs, i + 1)
  {
    assert MoveTexts(ms)[..i + 1] == MoveTexts(ms)[..i] + [ms[i].move];
    assert TimeSpentOf(ms, cs)[..i + 1] == TimeSpentOf(ms, cs)[..i] + [Delta(ms, cs, i)];
  }

  /** An unparseable annotation anywhere makes the loop fail with the
      error of the first one, whatever it carried before. */
  lemma {:induction false} ReadAllFails(st: Reading, ms: seq<MoveMatch>)
    requires ParsedClocks(ms).Err?
    ensures ReadAll(st, ms) == Err(ParsedClocks(ms).error)
    decreases |ms|
  {
    var c := ParseClock(ms[0].clock);
    if c.Ok? {
      ReadAllFails(ReadMove(st, ms[0], c.value), ms[1..]);
    }
  }

  lemma {:induction false} ReadAllFrom(ms: seq<MoveMatch>, cs: seq<Option<real>>, i: nat)
    requires ParsedClocks(ms) == Ok(cs) && i <= |ms|
    ensures ReadAll(ReadingAt(ms, cs, i), ms[i..]) == Ok(ReadingAt(ms, cs, |ms|))
    decreases |ms| - i
  {
    if i < |ms| {
      assert ms[i..][0] == ms[i] && ms[i..][1..] == ms[i + 1..];
      assert ParseClock(ms[i].clock) == Ok(cs[i]);
      ReadMoveStep(ms, cs, i);
      ReadAllFrom(ms, cs, i + 1);
    } else {
      assert ms[i..] == [];
    }
  }

  /** The loop computes the declarative lists: the move texts, and per
      move the mover's previous clock minus its clock now. */
  lemma ReadAllMeaning(ms: seq<MoveMatch>)
    ensures ReadAll(NoReading, ms).Err? <==> MovesAndTimes(ms).Err?
    ensures ReadAll(NoReading, ms).Err? ==> ReadAll(NoReading, ms).error == MovesAndTimes(ms).error
    ensures ReadAll(NoReading, ms).Ok? ==>
      MovesAndTimes(ms).value == (ReadAll(NoReading, ms).value.moves, ReadAll(NoReading, ms).value.timeSpent)
  {
    match ParsedClocks(ms)
    case Err(e) => ReadAllFails(NoReading, ms);
    case Ok(cs) =>
      assert ReadingAt(ms, cs, 0) == NoReading;
      assert ms[0..] == ms;
      ReadAllFrom(ms, cs, 0);
      assert MoveTexts(ms)[..|ms|] == MoveTexts(ms);
      assert TimeSpentOf(ms, cs)[..|ms|] == TimeSpentOf(ms, cs);
  }

  /** The body of that loop for one match whose clock parsed as `clock`. */
  method Advance(moves: seq<string>, timeSpent: seq<Option<real>>, prevWhite: Option<real>, prevBlack: Option<real>,
                 m: MoveMatch, clock: Option<real>)
    returns (moves': seq<string>, timeSpent': seq<Option<real>>, prevWhite': Option<real>, prevBlack': Option<real>)
    ensures Reading(moves', timeSpent', prevWhite', prevBlack')
         == ReadMove(Reading(moves, timeSpent, prevWhite, prevBlack), m, clock)
  {
    moves', timeSpent', prevWhite', prevBlack' := moves + [m.move], timeSpent, prevWhite, prevBlack;
    if m.isBlack {
      if clock.Some? && prevBlack.Some? {
        timeSpent' := timeSpent + [Some(prevBlack.value - clock.value)];
      } else {
        timeSpent' := timeSpent + [None];
      }
      if clock.Some? {
        prevBlack' := clock;
      }
    } else {
      if clock.Some? && prevWhite.Some? {
        timeSpent' := timeSpent + [Some(prevWhite.value - clock.value)];
      } else {
        timeSpent' := timeSpent + [None];
      }
      if clock.Some? {
        prevWhite' := clock;
      }
    }
  }

  /** The loop of `_create_game_from_data` over the move matches: append
      the move, append the time spent, and move the mover's previous
      clock on only when this move carries a clock. */
  method ReadMoves(ms: seq<MoveMatch>) returns (r: Result<(seq<string>, seq<Option<real>>)>)
    ensures r == MovesAndTimes(ms)
  {
    var moves: seq<string> := [];
    var timeSpent: seq<Option<real>> := [];
    var prevWhite: Option<real> := None;
    var prevBlack: Option<real> := None;
    assert ms[0..] == ms;
    for i := 0 to |ms|
      invariant ReadAll(NoReading, ms) == ReadAll(Reading(moves, timeSpent, prevWhite, prevBlack), ms[i..])
    {
      ghost var before := Reading(moves, timeSpent, prevWhite, prevBlack);
      var parsed := ParseClock(ms[i].clock);
      ReadAllStep(before, ms, i);
      if parsed.Err? {
        ReadAllMeaning(ms);
        return Err(parsed.error);
      }
      moves, timeSpent, prevWhite, prevBlack := Advance(moves, timeSpent, prevWhite, prevBlack, ms[i], parsed.value);
    }
    assert ms[|ms|..] == [];
    ReadAllMeaning(ms);
    r := Ok((moves, timeSpent));
  }

  // Sum of the time a colour spent over its clocked moves before position i.
  function SpentBy(ms: seq<MoveMatch>, clocks: seq<Option<real>>, black: bool, i: nat): real
    requires |clocks| == |ms| && i <= |ms|
  {
    if i == 0 then 0.0
    else
      var d := Delta(ms, clocks, i - 1);
      SpentBy(ms, clocks, black, i - 1) + (if ms[i - 1].isBlack == black && d.Some? then d.value else 0.0)
  }

  /** The clock of the first move before position i by colour `black`
      that carried a clock. */
  function FirstClock(ms: seq<MoveMatch>, clocks: seq<Option<real>>, black: bool, i: nat): Option<real>
    requires |clocks| == |ms| && i <= |ms|
  {
    if i == 0 then None
    else if FirstClock(ms, clocks, black, i - 1).Some? then FirstClock(ms, clocks, black, i - 1)
    else if ms[i - 1].isBlack == black then clocks[i - 1]
    else None
  }

  /** The time spent telescopes: over any prefix, the deltas of one colour
      add up to its first clock reading minus its latest one. */
  lemma {:induction false} TimeSpentTelescopes(ms: seq<MoveMatch>, clocks: seq<Option<real>>, black: bool, i: nat)
    requires |clocks| == |ms| && i <= |ms|
    ensures LastClock(ms, clocks, black, i).None? <==> FirstClock(ms, clocks, black, i).None?
    ensures LastClock(ms, clocks, black, i).Some? ==>
      SpentBy(ms, clocks, black, i) == FirstClock(ms, clocks, black, i).value - LastClock(ms, clocks, black, i).value
    ensures LastClock(ms, clocks, black, i).None? ==> SpentBy(ms, clocks, black, i) == 0.0
  {
    if i > 0 {
      TimeSpentTelescopes(ms, clocks, black, i - 1);
    }
  }

  // ---------------------------------------------------------------------
  // Metadata rules

  /** The winner: a white "win", then a black "win", then a stalemate on
      either side or a "1/2-1/2" result as a draw, otherwise "unknown". */
  function ResolveWinner(white: Side, black: Side, result: Option<string>): (r: string)
    ensures r in {"white", "black", "draw", "unknown"}
    ensures r == "white" <==> white.result == Some("win")
    ensures r == "black" <==> white.result != Some("win") && black.result == Some("win")
    ensures r == "draw" <==>
      && white.result != Some("win") && black.result != Some("win")
      && (white.result == Some("stalemate") || black.result == Some("stalemate") || result == Some("1/2-1/2"))
  {
    if white.result == Some("win") then "white"
    else if black.result == Some("win") then "black"
    else if white.result == Some("stalemate") || black.result == Some("stalemate") then "draw"
    else if result == Some("1/2-1/2") then "draw"
    else "unknown"
  }

  /** `(eco + " " + opening).strip() or "Unknown"`. */
  function OpeningName(eco: Option<string>, opening: Option<string>): (r: string)
    ensures r != []
    ensures !IsSpace(r[0]) && !IsSpace(r[|r| - 1])
    ensures Strip(eco.GetOr("") + " " + opening.GetOr("")) == "" ==> r == "Unknown"
    ensures Strip(eco.GetOr("") + " " + opening.GetOr("")) != "" ==> r == Strip(eco.GetOr("") + " " + opening.GetOr(""))
  {
    var joined := Strip(eco.GetOr("") + " " + opening.GetOr(""));
    if joined == "" then "Unknown" else joined
  }

  lemma OpeningNameWithoutFields()
    ensures OpeningName(None, None) == "Unknown"
  {
    assert Strip("" + " " + "") == "";
  }

  // ---------------------------------------------------------------------
  // One record to one game

  /** `_create_game_from_data`: the game a record maps to, or the error
      that makes the caller skip it.  The evaluation list is always empty. */
  function MapRecord(rec: Record, username: string, platform: string): (r: Result<Game>)
    ensures r.Ok? ==> r.value.evaluations == [] && |r.value.timeSpent| == |r.value.moves| == |rec.moveMatches|
    ensures r.Ok? ==> r.value.platform == platform && r.value.status.None?
    ensures MovesSection(rec.pgn.GetOr("")).None? ==> r == Err(InvalidPgn)
  {
    if MovesSection(rec.pgn.GetOr("")).None? then Err(InvalidPgn)
    else
      match MovesAndTimes(rec.moveMatches)
      case Err(e) => Err(e)
      case Ok(mt) =>
        var winner := ResolveWinner(rec.white, rec.black, rec.result);
        match ResolveColour(rec.white.username.GetOr(""), rec.black.username.GetOr(""), username)
        case Err(e) => Err(e)
        case Ok(colour) =>
          Ok(Game(rec.url.GetOr(""), rec.endTime.GetOr(0) * 1000, platform,
                  rec.timeClass.GetOr("unknown"), OpeningName(rec.eco, rec.opening), None,
                  winner, mt.0, [], mt.1, Some(colour)))
  }

  method CreateGameFromData(rec: Record, username: string, platform: string) returns (r: Result<Game>)
    ensures r == MapRecord(rec, username, platform)
  {
    if MovesSection(rec.pgn.GetOr("")).None? {
      return Err(InvalidPgn);
    }
    var mt := ReadMoves(rec.moveMatches);
    if mt.Err? {
      return Err(mt.error);
    }
    var winner := ResolveWinner(rec.white, rec.black, rec.result);
    var colour := ResolveColour(rec.white.username.GetOr(""), rec.black.username.GetOr(""), username);
    if colour.Err? {
      return Err(colour.error);
    }
    r := Ok(Game(rec.url.GetOr(""), rec.endTime.GetOr(0) * 1000, platform,
                 rec.timeClass.GetOr("unknown"), OpeningName(rec.eco, rec.opening), None,
                 winner, mt.value.0, [], mt.value.1, Some(colour.value)));
  }

  /** The error a mapping raises, by precedence: a PGN without a header
      separator, then the first clock annotation that does not parse,
      then a user who plays neither colour. */
  lemma MapRecordErrors(rec: Record, username: string, platform: string)
    ensures var r := MapRecord(rec, username, platform);
      var section := MovesSection(rec.pgn.GetOr(""));
      var clocks := ParsedClocks(rec.moveMatches);
      var colour := ResolveColour(rec.white.username.GetOr(""), rec.black.username.GetOr(""), username);
      && (section.None? ==> r == Err(InvalidPgn))
      && (section.Some? && clocks.Err? ==> r == Err(clocks.error))
      && (section.Some? && clocks.Ok? && colour.Err? ==> r == Err(UsernameNotFound))
      && (section.Some? && clocks.Ok? && colour.Ok? <==> r.Ok?)
  {
  }

  /** The fields of a mapped game: the record's keys with their defaults,
      the winner and colour by their rules, and the moves and time spent
      read from the move matches. */
  lemma MapRecordFields(rec: Record, username: string, platform: string)
    requires MapRecord(rec, username, platform).Ok?
    ensures var g := MapRecord(rec, username, platform).value;
      var clocks := ParsedClocks(rec.moveMatches);
      && clocks.Ok?
      && g.id == rec.url.GetOr("") && g.startMs == rec.endTime.GetOr(0) * 1000
      && g.speed == rec.timeClass.GetOr("unknown") && g.opening == OpeningName(rec.eco, rec.opening)
      && g.winner == ResolveWinner(rec.white, rec.black, rec.result)
      && g.playerColour == Some(ResolveColour(rec.white.username.GetOr(""), rec.black.username.GetOr(""), username).value)
      && (g.playerColour == Some(White) <==> EqualsIgnoreCase(rec.white.username.GetOr(""), username))
      && g.moves == MoveTexts(rec.moveMatches)
      && g.timeSpent == TimeSpentOf(rec.moveMatches, clocks.value)
  {
  }

  // ---------------------------------------------------------------------
  // One month of records

  /** The game `_parse_games` tries to file for a record, or None when it
      skips the record before filing: its rules are not "chess", or its
      mapping raises. */
  function Candidate(rec: Record, username: string, platform: string): Option<Game>
  {
    if rec.rules != Some("chess") then None
    else
      match MapRecord(rec, username, platform)
      case Err(_) => None
      case Ok(g) => Some(g)
  }

  function Candidates(recs: seq<Record>, username: string, platform: string): (cs: seq<Option<Game>>)
    ensures |cs| == |recs|
  {
    seq(|recs|, i requires 0 <= i < |recs| => Candidate(recs[i], username, platform))
  }

  /** The filing part of `_parse_games`: file each candidate, skip those
      that are absent or whose filing raises, count the filed ones, and
      stop once a truthy cap is reached.  The count starts from the value
      passed in. */
  function FileGames(s: Categories, cands: seq<Option<Game>>, maxGames: Option<int>, collected: int): Categories
    decreases |cands|
  {
    if cands == [] then s
    else if cands[0].None? then FileGames(s, cands[1..], maxGames, collected)
    else
      match s.AddGame(cands[0].value)
      case Err(_) => FileGames(s, cands[1..], maxGames, collected)
      case Ok(s') =>
        if TruthyInt(maxGames) && collected + 1 >= maxGames.value then s'
        else FileGames(s', cands[1..], maxGames, collected + 1)
  }

  /** `_parse_games` over the records of one month. */
  function ParseMonth(s: Categories, recs: seq<Record>, maxGames: Option<int>, collected: int,
                      username: string, platform: string): Categories
  {
    FileGames(s, Candidates(recs, username, platform), maxGames, collected)
  }

  /** The number of games filed over all categories. */
  function Size(s: Categories): nat
  {
    |s.ultraBullet| + |s.bullet| + |s.blitz| + |s.rapid| + |s.classical| + |s.correspondence|
  }

  /** Filing a game adds at most one entry: none when its id is already
      in its category. */
  lemma AddGameGrowsByAtMostOne(s: Categories, g: Game)
    requires s.AddGame(g).Ok?
    ensures Size(s) <= Size(s.AddGame(g).value) <= Size(s) + 1
  {
    var k := CategoryIndex(g.speed).value;
    var t := s.AddGame(g).value;
    assert t.At(k) == Put(s.At(k), g);
    assert forall j :: 0 <= j < 6 && j != k ==> t.At(j) == s.At(j);
    assert Size(t) == |t.At(0)| + |t.At(1)| + |t.At(2)| + |t.At(3)| + |t.At(4)| + |t.At(5)|;
    assert Size(s) == |s.At(0)| + |s.At(1)| + |s.At(2)| + |s.At(3)| + |s.At(4)| + |s.At(5)|;
  }

  /** With a positive cap k and a count c below it, one month files at most
      k - c further games. */
  lemma {:induction false} FileGamesCapped(s: Categories, cands: seq<Option<Game>>, k: int, c: int)
    requires 0 < k && c < k
    ensures Size(FileGames(s, cands, Some(k), c)) <= Size(s) + (k - c)
    decreases |cands|
  {
    if cands != [] {
      if cands[0].None? {
        FileGamesCapped(s, cands[1..], k, c);
      } else {
        var g := cands[0].value;
        match s.AddGame(g)
        case Err(_) => FileGamesCapped(s, cands[1..], k, c);
        case Ok(s') =>
          AddGameGrowsByAtMostOne(s, g);
          if c + 1 < k {
            FileGamesCapped(s', cands[1..], k, c + 1);
          }
      }
    }
  }

  /** Filing never removes a game, and files at most one per candidate. */
  lemma {:induction false} FileGamesGrowth(s: Categories, cands: seq<Option<Game>>, maxGames: Option<int>, c: int)
    ensures Size(s) <= Size(FileGames(s, cands, maxGames, c)) <= Size(s) + |cands|
    decreases |cands|
  {
    if cands != [] {
      if cands[0].None? {
        FileGamesGrowth(s, cands[1..], maxGames, c);
      } else {
        var g := cands[0].value;
        match s.AddGame(g)
        case Err(_) => FileGamesGrowth(s, cands[1..], maxGames, c);
        case Ok(s') =>
          AddGameGrowsByAtMostOne(s, g);
          FileGamesGrowth(s', cands[1..], maxGames, c + 1);
      }
    }
  }

  /** Candidates that are absent, or whose filing raises, change nothing. */
  lemma {:induction false} FileGamesSkips(s: Categories, cands: seq<Option<Game>>, maxGames: Option<int>, c: int)
    requires forall i :: 0 <= i < |cands| ==> cands[i].None? || s.AddGame(cands[i].value).Err?
    ensures FileGames(s, cands, maxGames, c) == s
    decreases |cands|
  {
    if cands != [] {
      FileGamesSkips(s, cands[1..], maxGames, c);
    }
  }

  /** A record that is not standard chess is never a candidate. */
  lemma NonChessSkipped(recs: seq<Record>, username: string, platform: string, i: nat)
    requires i < |recs| && recs[i].rules != Some("chess")
    ensures Candidates(recs, username, platform)[i].None?
  {
  }

  lemma FileGamesAt(s: Categories, cands: seq<Option<Game>>, i: nat, maxGames: Option<int>, c: int)
    requires i < |cands|
    ensures cands[i].None? ==> FileGames(s, cands[i..], maxGames, c) == FileGames(s, cands[i + 1..], maxGames, c)
    ensures cands[i].Some? && s.AddGame(cands[i].value).Err? ==>
      FileGames(s, cands[i..], maxGames, c) == FileGames(s, cands[i + 1..], maxGames, c)
    ensures cands[i].Some? && s.AddGame(cands[i].value).Ok? ==>
      FileGames(s, cands[i..], maxGames, c) ==
        if TruthyInt(maxGames) && c + 1 >= maxGames.value then s.AddGame(cands[i].value).value
        else FileGames(s.AddGame(cands[i].value).value, cands[i + 1..], maxGames, c + 1)
  {
    assert cands[i..][0] == cands[i];
    assert cands[i..][1..] == cands[i + 1..];
  }

  /** The part of the loop body of `_parse_games` before filing: the rules
      check, then the mapping, whose error is caught. */
  method TryRecord(rec: Record, username: string, platform: string) returns (g: Option<Game>)
    ensures g == Candidate(rec, username, platform)
  {
    if rec.rules != Some("chess") {
      return None;
    }
    var game := CreateGameFromData(rec, username, platform);
    if game.Err? {
      return None;
    }
    g := Some(game.value);
  }

  /** `_parse_games` as it runs against the player object. */
  method ParseGames(games: seq<Record>, player: Player, maxGames: Option<int>, collected: int, platform: string)
    modifies player
    ensures player.State() == ParseMonth(old(player.State()), games, maxGames, collected, player.username, platform)
  {
    ghost var cands := Candidates(games, player.username, platform);
    var count := collected;
    var i := 0;
    while i < |games|
      invariant 0 <= i <= |games|
      invariant FileGames(old(player.State()), cands, maxGames, collected)
             == FileGames(player.State(), cands[i..], maxGames, count)
    {
      FileGamesAt(player.State(), cands, i, maxGames, count);
      var game := TryRecord(games[i], player.username, platform);
      i := i + 1;
      if game.None? {
        continue;
      }
      var err := player.AddGame(game.value);
      if err.Some? {
        continue;
      }
      count := count + 1;
      if TruthyInt(maxGames) && count >= maxGames.value {
        break;
      }
    }
    assert cands[|games|..] == [];
  }

  // ---------------------------------------------------------------------
  // The month walk

  /** The months the walk visits.  The count the walk checks after each
      month is never increased (the per-month parser gets a copy), so with
      a positive cap the walk never stops early; a negative cap stops it
      after the first month. */
  function WalkMonths(start: Month, end: Month, numberOfGames: Option<int>): seq<Month>
  {
    if Index(end) < Index(start) then []
    else if TruthyInt(numberOfGames) && 0 >= numberOfGames.value then [end]
    else MonthsDown(end, start)
  }

  /** The categories after parsing the given months in order. */
  function ParseMonths(s: Categories, months: seq<Month>, fetch: Month -> seq<Record>,
                       numberOfGames: Option<int>, username: string, platform: string): Categories
  {
    if months == [] then s
    else
      var last := months[|months| - 1];
      ParseMonth(ParseMonths(s, months[..|months| - 1], fetch, numberOfGames, username, platform),
                 fetch(last), numberOfGames, 0, username, platform)
  }

  lemma ParseMonthsThen(s: Categories, months: seq<Month>, m: Month, fetch: Month -> seq<Record>,
                        numberOfGames: Option<int>, username: string, platform: string)
    ensures ParseMonths(s, months + [m], fetch, numberOfGames, username, platform)
         == ParseMonth(ParseMonths(s, months, fetch, numberOfGames, username, platform),
                       fetch(m), numberOfGames, 0, username, platform)
  {
    assert (months + [m])[..|months|] == months;
  }

  /** Without a cap (None or a falsy 0), or with a positive one, every
      month from the end's down to the start's is visited once, newest
      first. */
  lemma WalkVisitsEveryMonth(start: Month, end: Month, numberOfGames: Option<int>)
    requires !TruthyInt(numberOfGames) || numberOfGames.value > 0
    ensures WalkMonths(start, end, numberOfGames) == MonthsDown(end, start)
  {
  }

  /** With a positive cap k, the whole walk files at most k games per
      visited month. */
  lemma {:induction false} WalkCapped(s: Categories, months: seq<Month>, fetch: Month -> seq<Record>,
                                      k: int, username: string, platform: string)
    requires k > 0
    ensures Size(ParseMonths(s, months, fetch, Some(k), username, platform)) <= Size(s) + k * |months|
  {
    if months != [] {
      WalkCapped(s, months[..|months| - 1], fetch, k, username, platform);
      WalkCappedStep(s, months, fetch, k, username, platform);
    }
  }

  lemma WalkCappedStep(s: Categories, months: seq<Month>, fetch: Month -> seq<Record>,
                       k: int, username: string, platform: string)
    requires months != [] && k > 0
    requires Size(ParseMonths(s, months[..|months| - 1], fetch, Some(k), username, platform))
          <= Size(s) + k * (|months| - 1)
    ensures Size(ParseMonths(s, months, fetch, Some(k), username, platform)) <= Size(s) + k * |months|
  {
    var init, last := months[..|months| - 1], months[|months| - 1];
    var before := ParseMonths(s, init, fetch, Some(k), username, platform);
    assert ParseMonths(s, months, fetch, Some(k), username, platform)
        == ParseMonth(before, fetch(last), Some(k), 0, username, platform);
    FileGamesCapped(before, Candidates(fetch(last), username, platform), k, 0);
  }

  lemma WalkStep(visited: seq<Month>, current: Month, first: Month, last: Month)
    requires visited + MonthsDown(current, first) == MonthsDown(last, first)
    requires Index(current) >= Index(first)
    ensures (visited + [current]) + MonthsDown(PreviousMonth(current), first) == MonthsDown(last, first)
  {
    assert MonthsDown(current, first) == [current] + MonthsDown(PreviousMonth(current), first);
    assert (visited + [current]) + MonthsDown(PreviousMonth(current), first)
        == visited + ([current] + MonthsDown(PreviousMonth(current), first));
  }

  /** `get_games_by_username`: both bounds default to the current month;
      walk from the end's month down to the start's, parsing each month's
      records into one fresh player.  `fetch` stands for the archive
      request of one month; `visited` lists the months requested. */
  method GetGamesByUsername(username: string, start: Option<Month>, end: Option<Month>,
                            numberOfGames: Option<int>, now: Month,
                            fetch: Month -> seq<Record>, platform: string)
    returns (player: Player, ghost visited: seq<Month>)
    ensures fresh(player) && player.username == username
    ensures visited == WalkMonths(start.GetOr(now), end.GetOr(now), numberOfGames)
    ensures player.State() == ParseMonths(Empty(), visited, fetch, numberOfGames, username, platform)
  {
    var first := start.GetOr(now);
    var last := end.GetOr(now);
    player := new Player(username);
    var collected := 0;
    var current := last;
    visited := [];
    while Index(current) >= Index(first)
      invariant visited + MonthsDown(current, first) == MonthsDown(last, first)
      invariant visited == [] ==> current == last
      invariant TruthyInt(numberOfGames) && numberOfGames.value <= 0 ==> visited == []
      invariant player.username == username
      invariant player.State() == ParseMonths(Empty(), visited, fetch, numberOfGames, username, platform)
      decreases Index(current) - Index(first)
    {
      var games := fetch(current);
      ParseGames(games, player, numberOfGames, collected, platform);
      ParseMonthsThen(Empty(), visited, current, fetch, numberOfGames, username, platform);
      WalkStep(visited, current, first, last);
      visited := visited + [current];
      if TruthyInt(numberOfGames) && collected >= numberOfGames.value {
        assert visited == [last];
        break;
      }
      current := PreviousMonth(current);
    }
    assert Index(current) >= Index(first) ==> visited == [last] && TruthyInt(numberOfGames) && numberOfGames.value <= 0;
    assert Index(current) < Index(first) ==> visited == MonthsDown(last, first);
  }
}
