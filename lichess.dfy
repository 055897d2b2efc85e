/** The streaming adapter of src/platforms/lichess.py: the argument check
    and query shaping of a request, the mapping of one decoded stream
    record to a game, the evaluation strings of its analysis, and the
    filter over the lines of the stream. */
module Lichess {
  import opened Common
  import opened Text
  import opened GameModel
  import opened PlayerModel
  import opened PlatformRules

  // ---------------------------------------------------------------------
  // The request

  /** A query-parameter value: the fixed flags are texts, the count and
      the bounds are integers. */
  datatype ParamValue = Flag(text: string) | Number(n: int)

  /** The query parameters, as the dict `_fetch_games` fills. */
  type Params = map<string, ParamValue>

  datatype Request = Request(url: string, params: Params)

  /** The parameters every request carries. */
  const FixedParams: Params :=
    map["analysed" := Flag("true"), "pgnInJson" := Flag("false"), "clocks" := Flag("true"),
        "opening" := Flag("true"), "evals" := Flag("true")]

  /** The argument check of `get_games_by_username`: a game count may not
      be combined with either bound of a time range. */
  predicate Conflicting(start: Option<int>, end: Option<int>, numberOfGames: Option<int>)
  {
    numberOfGames.Some? && (start.Some? || end.Some?)
  }

  /** The parameters `_fetch_games` builds.  Bounds are instants in
      milliseconds; a given bound is a datetime and so always truthy. */
  function QueryParams(start: Option<int>, end: Option<int>, numberOfGames: Option<int>): Params
  {
    if numberOfGames.Some? then FixedParams["max" := Number(numberOfGames.value)]
    else
      var withSince := if start.Some? then FixedParams["since" := Number(start.value)] else FixedParams;
      if end.Some? then withSince["until" := Number(end.value)] else withSince
  }

  /** The request for a user's games, or the ValueError of the argument
      check, which is raised before anything is fetched. */
  function FetchRequest(username: string, start: Option<int>, end: Option<int>,
                        numberOfGames: Option<int>): (r: Result<Request>)
    ensures r.Err? <==> Conflicting(start, end, numberOfGames)
    ensures r.Err? ==> r.error == ConflictingSelector
    ensures r.Ok? ==> r.value.url == "https://lichess.org/api/games/user/" + username
    ensures r.Ok? ==> r.value.params == QueryParams(start, end, numberOfGames)
  {
    if Conflicting(start, end, numberOfGames) then Err(ConflictingSelector)
    else Ok(Request("https://lichess.org/api/games/user/" + username,
                    QueryParams(start, end, numberOfGames)))
  }

  /** The five fixed flags are always present with their values; with a
      count only `max` is added, holding it; otherwise `since` and `until`
      are present exactly when their bound is given, holding it. */
  lemma QueryParamsMeaning(start: Option<int>, end: Option<int>, numberOfGames: Option<int>)
    ensures var ps := QueryParams(start, end, numberOfGames);
      && (forall k :: k in FixedParams ==> k in ps && ps[k] == FixedParams[k])
      && ("max" in ps <==> numberOfGames.Some?)
      && ("since" in ps <==> numberOfGames.None? && start.Some?)
      && ("until" in ps <==> numberOfGames.None? && end.Some?)
      && ("max" in ps ==> ps["max"] == Number(numberOfGames.value))
      && ("since" in ps ==> ps["since"] == Number(start.value))
      && ("until" in ps ==> ps["until"] == Number(end.value))
      && (forall k :: k in ps ==> k in FixedParams || k == "max" || k == "since" || k == "until")
  {
  }

  // ---------------------------------------------------------------------
  // Decoded stream records

  /** One entry of the `analysis` array: its optional `eval` (centipawns)
      and `mate` keys. */
  datatype AnalysisStep = AnalysisStep(eval: Option<int>, mate: Option<int>)

  /** The fields of a decoded game record that the mapping reads; a None
      is a missing key, and a missing nested object counts as missing
      leaves.  Clock entries are kept as the numbers the stream holds. */
  datatype Record = Record(
    id: Option<string>,
    createdAt: Option<int>,
    variant: Option<string>,
    speed: Option<string>,
    moves: Option<string>,
    openingName: Option<string>,
    winner: Option<string>,
    analysis: seq<AnalysisStep>,
    clocks: seq<real>,
    whiteName: Option<string>,
    blackName: Option<string>)

  /** One line of the stream: empty, not a JSON object the model can
      decode (the error `json.loads` raises is caught), or a record. */
  datatype StreamLine = Blank | Undecodable | Decoded(rec: Record)

  // ---------------------------------------------------------------------
  // Evaluations

  /** The evaluation string of one analysis step; None for a step with
      neither key. */
  function StepText(st: AnalysisStep): (t: Option<string>)
    ensures t.None? <==> st.eval.None? && st.mate.None?
    ensures st.eval.Some? ==> t == Some(IntToString(st.eval.value))
    ensures st.eval.None? && st.mate.Some? && st.mate.value > 0 ==>
      t == Some("mate in " + IntToString(st.mate.value))
    ensures st.eval.None? && st.mate.Some? && st.mate.value <= 0 ==>
      t == Some("mated in " + IntToString(-st.mate.value))
  {
    if st.eval.Some? then Some(IntToString(st.eval.value))
    else if st.mate.Some? then
      (if st.mate.value > 0 then Some("mate in " + IntToString(st.mate.value))
       else Some("mated in " + IntToString(-st.mate.value)))
    else None
  }

  /** The strings of every step that has a key, in analysis order. */
  function EvalTexts(steps: seq<AnalysisStep>): seq<string>
  {
    if steps == [] then []
    else
      var t := StepText(steps[|steps| - 1]);
      EvalTexts(steps[..|steps| - 1]) + (if t.Some? then [t.value] else [])
  }

  /** The number of steps that have a key. */
  function Keyed(steps: seq<AnalysisStep>): nat
  {
    if steps == [] then 0
    else Keyed(steps[1..]) + (if StepText(steps[0]).Some? then 1 else 0)
  }

  /** `xs[:n]`. */
  function Take<T>(xs: seq<T>, n: nat): (r: seq<T>)
    ensures |r| <= n && |r| <= |xs|
    ensures |r| == if |xs| <= n then |xs| else n
    ensures r == xs[..|r|]
  {
    if |xs| <= n then xs else xs[..n]
  }

  lemma {:induction false} EvalTextsAppend(a: seq<AnalysisStep>, b: seq<AnalysisStep>)
    ensures EvalTexts(a + b) == EvalTexts(a) + EvalTexts(b)
    decreases |b|
  {
    if b == [] {
      assert a + b == a;
    } else {
      var init := b[..|b| - 1];
      assert (a + b)[..|a + b| - 1] == a + init;
      assert (a + b)[|a + b| - 1] == b[|b| - 1];
      EvalTextsAppend(a, init);
    }
  }

  /** A step with neither key contributes nothing: it is dropped, not
      padded. */
  lemma KeylessStepDropped(a: seq<AnalysisStep>, b: seq<AnalysisStep>)
    ensures EvalTexts(a + [AnalysisStep(None, None)] + b) == EvalTexts(a + b)
  {
    EvalTextsAppend(a + [AnalysisStep(None, None)], b);
    EvalTextsAppend(a, [AnalysisStep(None, None)]);
    EvalTextsAppend(a, b);
    assert EvalTexts([AnalysisStep(None, None)]) == EvalTexts([]) + [];
  }

  /** One string per keyed step. */
  lemma {:induction false} EvalTextsLength(steps: seq<AnalysisStep>)
    ensures |EvalTexts(steps)| == Keyed(steps)
    decreases |steps|
  {
    if steps != [] {
      EvalTextsAppend([steps[0]], steps[1..]);
      assert [steps[0]] + steps[1..] == steps;
      assert EvalTexts([steps[0]]) == EvalTexts([]) + (if StepText(steps[0]).Some? then [StepText(steps[0]).value] else []);
      EvalTextsLength(steps[1..]);
    }
  }

  /** When every step has a key, the k-th string is the k-th step's. */
  lemma {:induction false} EvalTextsAllKeyed(steps: seq<AnalysisStep>, k: nat)
    requires forall i :: 0 <= i < |steps| ==> StepText(steps[i]).Some?
    requires k < |steps|
    ensures |EvalTexts(steps)| == |steps|
    ensures EvalTexts(steps)[k] == StepText(steps[k]).value
    decreases |steps|
  {
    var init := steps[..|steps| - 1];
    if k < |steps| - 1 {
      EvalTextsAllKeyed(init, k);
    } else if init != [] {
      EvalTextsAllKeyed(init, 0);
    }
  }

  /** `_extract_evaluations`: append the string of each keyed step, then
      keep the first `moveCount`. */
  method ExtractEvaluations(analysis: seq<AnalysisStep>, moveCount: nat) returns (evals: seq<string>)
    ensures evals == Take(EvalTexts(analysis), moveCount)
  {
    var all: seq<string> := [];
    for i := 0 to |analysis|
      invariant all == EvalTexts(analysis[..i])
    {
      assert analysis[..i + 1][..i] == analysis[..i];
      var step := analysis[i];
      if step.eval.Some? {
        all := all + [IntToString(step.eval.value)];
      } else if step.mate.Some? {
        var mateScore := step.mate.value;
        if mateScore > 0 {
          all := all + ["mate in " + IntToString(mateScore)];
        } else {
          all := all + ["mated in " + IntToString(-mateScore)];
        }
      }
    }
    assert analysis[..|analysis|] == analysis;
    if |all| <= moveCount {
      evals := all;
    } else {
      evals := all[..moveCount];
    }
  }

  // ---------------------------------------------------------------------
  // One record to one game

  /** `winner` if it is a non-empty string, otherwise "draw". */
  function Winner(winner: Option<string>): (w: string)
    ensures w != ""
    ensures winner.Some? && winner.value != "" ==> w == winner.value
    ensures winner.None? || winner.value == "" ==> w == "draw"
  {
    if winner.Some? && winner.value != "" then winner.value else "draw"
  }

  /** `_create_game_from_data`: the colour is resolved first, then the
      required `id` and `createdAt` keys are read in that order. */
  function MapRecord(rec: Record, username: string, platform: string): (r: Result<Game>)
    ensures r.Ok? ==> r.value.moves == Words(rec.moves.GetOr(""))
    ensures r.Ok? ==> r.value.evaluations == Take(EvalTexts(rec.analysis), |r.value.moves|)
    ensures r.Ok? ==> r.value.timeSpent == Somes(rec.clocks)
    ensures r.Ok? ==> r.value.platform == platform && r.value.status.None?
  {
    var moves := Words(rec.moves.GetOr(""));
    var evals := Take(EvalTexts(rec.analysis), |moves|);
    match ResolveColour(rec.whiteName.GetOr(""), rec.blackName.GetOr(""), username)
    case Err(e) => Err(e)
    case Ok(colour) =>
      if rec.id.None? then Err(MissingKey("id"))
      else if rec.createdAt.None? then Err(MissingKey("createdAt"))
      else
        Ok(Game(rec.id.value, rec.createdAt.value, platform, rec.speed.GetOr("unknown"),
                rec.openingName.GetOr("Unknown"), None, Winner(rec.winner),
                moves, evals, Somes(rec.clocks), Some(colour)))
  }

  /** The error a mapping raises, by precedence: an unknown user before a
      missing id before a missing creation time. */
  lemma MapRecordErrors(rec: Record, username: string, platform: string)
    ensures var colour := ResolveColour(rec.whiteName.GetOr(""), rec.blackName.GetOr(""), username);
      && (colour.Err? ==> MapRecord(rec, username, platform) == Err(UsernameNotFound))
      && (colour.Ok? && rec.id.None? ==> MapRecord(rec, username, platform) == Err(MissingKey("id")))
      && (colour.Ok? && rec.id.Some? && rec.createdAt.None? ==>
            MapRecord(rec, username, platform) == Err(MissingKey("createdAt")))
      && (colour.Ok? && rec.id.Some? && rec.createdAt.Some? <==> MapRecord(rec, username, platform).Ok?)
  {
  }

  /** The fields copied from the record and their defaults. */
  lemma MapRecordFields(rec: Record, username: string, platform: string)
    requires MapRecord(rec, username, platform).Ok?
    ensures var g := MapRecord(rec, username, platform).value;
      && g.id == rec.id.value && g.startMs == rec.createdAt.value
      && g.speed == rec.speed.GetOr("unknown") && g.opening == rec.openingName.GetOr("Unknown")
      && g.winner == Winner(rec.winner)
      && g.playerColour == Some(ResolveColour(rec.whiteName.GetOr(""), rec.blackName.GetOr(""), username).value)
      && (g.playerColour == Some(White) <==> EqualsIgnoreCase(rec.whiteName.GetOr(""), username))
  {
  }

  /** The evaluations never outnumber the moves; with at least as many
      keyed steps as moves there is exactly one per move. */
  lemma MapRecordEvaluationCount(rec: Record, username: string, platform: string)
    requires MapRecord(rec, username, platform).Ok?
    ensures var g := MapRecord(rec, username, platform).value;
      && |g.evaluations| <= |g.moves|
      && (Keyed(rec.analysis) >= |g.moves| ==> |g.evaluations| == |g.moves|)
      && |g.timeSpent| == |rec.clocks|
  {
    EvalTextsLength(rec.analysis);
  }

  /** A move text written as single-space-separated moves is read back as
      exactly those moves. */
  lemma MapRecordMoves(rec: Record, username: string, platform: string, moves: seq<string>)
    requires forall i :: 0 <= i < |moves| ==> IsWord(moves[i])
    requires rec.moves == Some(Unwords(moves))
    requires MapRecord(rec, username, platform).Ok?
    ensures MapRecord(rec, username, platform).value.moves == moves
  {
    WordsUnwords(moves);
  }

  method CreateGameFromData(rec: Record, username: string, platform: string) returns (r: Result<Game>)
    ensures r == MapRecord(rec, username, platform)
  {
    var moveList := Words(rec.moves.GetOr(""));
    var evals := ExtractEvaluations(rec.analysis, |moveList|);
    var colour := ResolveColour(rec.whiteName.GetOr(""), rec.blackName.GetOr(""), username);
    if colour.Err? {
      return Err(colour.error);
    }
    if rec.id.None? {
      return Err(MissingKey("id"));
    }
    if rec.createdAt.None? {
      return Err(MissingKey("createdAt"));
    }
    r := Ok(Game(rec.id.value, rec.createdAt.value, platform, rec.speed.GetOr("unknown"),
                 rec.openingName.GetOr("Unknown"), None, Winner(rec.winner),
                 moveList, evals, Somes(rec.clocks), Some(colour.value)));
  }

  // ---------------------------------------------------------------------
  // The stream

  /** The game `_parse_games` tries to file for a line, or None when it
      skips the line before filing: it is empty, it does not decode, its
      variant is not "standard" (a missing variant is not), or its mapping
      raises. */
  function Candidate(line: StreamLine, username: string, platform: string): Option<Game>
  {
    match line
    case Blank => None
    case Undecodable => None
    case Decoded(rec) =>
      if rec.variant != Some("standard") then None
      else
        match MapRecord(rec, username, platform)
        case Err(_) => None
        case Ok(g) => Some(g)
  }

  /** File one candidate; a filing error is caught and changes nothing. */
  function File(s: Categories, cand: Option<Game>): Categories
  {
    if cand.None? then s
    else
      match s.AddGame(cand.value)
      case Err(_) => s
      case Ok(t) => t
  }

  /** The categories after `_parse_games` has read the given lines. */
  function ParseLines(s: Categories, lines: seq<StreamLine>, username: string, platform: string): Categories
  {
    if lines == [] then s
    else File(ParseLines(s, lines[..|lines| - 1], username, platform),
              Candidate(lines[|lines| - 1], username, platform))
  }

  lemma {:induction false} ParseLinesAppend(s: Categories, a: seq<StreamLine>, b: seq<StreamLine>,
                                           username: string, platform: string)
    ensures ParseLines(s, a + b, username, platform)
         == ParseLines(ParseLines(s, a, username, platform), b, username, platform)
    decreases |b|
  {
    if b == [] {
      assert a + b == a;
    } else {
      var init := b[..|b| - 1];
      assert (a + b)[..|a + b| - 1] == a + init;
      assert (a + b)[|a + b| - 1] == b[|b| - 1];
      ParseLinesAppend(s, a, init, username, platform);
    }
  }

  /** A line that is skipped leaves the stream going as if it were not
      there. */
  lemma SkippedLine(s: Categories, a: seq<StreamLine>, line: StreamLine, b: seq<StreamLine>,
                    username: string, platform: string)
    requires Candidate(line, username, platform).None?
    ensures ParseLines(s, a + [line] + b, username, platform) == ParseLines(s, a + b, username, platform)
  {
    ParseLinesAppend(s, a + [line], b, username, platform);
    ParseLinesAppend(s, a, [line], username, platform);
    ParseLinesAppend(s, a, b, username, platform);
    assert [line][..0] == [];
  }

  /** Empty lines, undecodable lines, records of any other or a missing
      variant, and records whose mapping raises are skipped. */
  lemma CandidateSkips(line: StreamLine, username: string, platform: string)
    ensures line.Blank? || line.Undecodable? ==> Candidate(line, username, platform).None?
    ensures line.Decoded? && line.rec.variant != Some("standard") ==> Candidate(line, username, platform).None?
    ensures line.Decoded? && MapRecord(line.rec, username, platform).Err? ==>
      Candidate(line, username, platform).None?
    ensures line.Decoded? && line.rec.variant == Some("standard") && MapRecord(line.rec, username, platform).Ok? ==>
      Candidate(line, username, platform) == Some(MapRecord(line.rec, username, platform).value)
  {
  }

  /** After a standard record that maps to a game with a filing speed,
      that game is retrievable by its id. */
  lemma LastGameRetrievable(s: Categories, lines: seq<StreamLine>, username: string, platform: string)
    requires lines != []
    requires Candidate(lines[|lines| - 1], username, platform).Some?
    requires Candidate(lines[|lines| - 1], username, platform).value.speed in FilingSpeeds
    ensures var g := Candidate(lines[|lines| - 1], username, platform).value;
      ParseLines(s, lines, username, platform).Lookup(g.id).Ok?
  {
    var g := Candidate(lines[|lines| - 1], username, platform).value;
    var before := ParseLines(s, lines[..|lines| - 1], username, platform);
    AddGameThenLookup(before, g);
  }

  /** Every stored game sits under its own speed, once per category. */
  lemma {:induction false} ParseLinesWellFiled(s: Categories, lines: seq<StreamLine>, username: string, platform: string)
    requires s.WellFiled()
    ensures ParseLines(s, lines, username, platform).WellFiled()
    decreases |lines|
  {
    if lines != [] {
      var before := ParseLines(s, lines[..|lines| - 1], username, platform);
      ParseLinesWellFiled(s, lines[..|lines| - 1], username, platform);
      var c := Candidate(lines[|lines| - 1], username, platform);
      if c.Some? && before.AddGame(c.value).Ok? {
        AddGameWellFiled(before, c.value);
      }
    }
  }

  /** The loop body of `_parse_games` before filing. */
  method TryLine(line: StreamLine, username: string, platform: string) returns (g: Option<Game>)
    ensures g == Candidate(line, username, platform)
  {
    if line.Blank? || line.Undecodable? {
      return None;
    }
    var rec := line.rec;
    if rec.variant.GetOr("unkown") != "standard" {
      return None;
    }
    var game := CreateGameFromData(rec, username, platform);
    if game.Err? {
      return None;
    }
    g := Some(game.value);
  }

  /** `_create_game_from_data` as written.  The `Game(...)` call passes
      `player_color`, a keyword the constructor of common_objects/game.py
      does not take, and omits its required `status`, so once the colour
      and the required keys have been read the call raises TypeError:
      no record maps to a game. */
  function MapRecordAsWritten(rec: Record, username: string, platform: string): (r: Result<Game>)
    ensures r.Err?
    ensures MapRecord(rec, username, platform).Err? ==> r == MapRecord(rec, username, platform)
    ensures MapRecord(rec, username, platform).Ok? ==> r == Err(UnexpectedArgument("player_color"))
  {
    match MapRecord(rec, username, platform)
    case Err(e) => Err(e)
    case Ok(_) => Err(UnexpectedArgument("player_color"))
  }

  /** The loop body of `_parse_games` with the mapping as written. */
  function CandidateAsWritten(line: StreamLine, username: string, platform: string): Option<Game>
  {
    match line
    case Blank => None
    case Undecodable => None
    case Decoded(rec) =>
      if rec.variant != Some("standard") then None
      else
        match MapRecordAsWritten(rec, username, platform)
        case Err(_) => None
        case Ok(g) => Some(g)
  }

  /** `_parse_games` with the mapping as written. */
  function ParseLinesAsWritten(s: Categories, lines: seq<StreamLine>, username: string, platform: string): Categories
  {
    if lines == [] then s
    else File(ParseLinesAsWritten(s, lines[..|lines| - 1], username, platform),
              CandidateAsWritten(lines[|lines| - 1], username, platform))
  }

  /** As written, the TypeError of every mapping is caught and logged, so
      no game of the stream is ever filed: the player comes back as
      empty as it started, whatever the lines hold. */
  lemma {:induction false} ParseLinesAsWrittenFilesNothing(s: Categories, lines: seq<StreamLine>,
                                                          username: string, platform: string)
    ensures ParseLinesAsWritten(s, lines, username, platform) == s
    decreases |lines|
  {
    if lines != [] {
      ParseLinesAsWrittenFilesNothing(s, lines[..|lines| - 1], username, platform);
      var line := lines[|lines| - 1];
      if line.Decoded? {
        var r := MapRecordAsWritten(line.rec, username, platform);
        assert r.Err?;
      }
    }
  }

  /** A standard record whose mapping succeeds: as written it is skipped,
      while the intended mapping hands its game to `add_game`. */
  lemma StandardRecordSkippedAsWritten(rec: Record, username: string, platform: string)
    requires rec.variant == Some("standard") && MapRecord(rec, username, platform).Ok?
    ensures CandidateAsWritten(Decoded(rec), username, platform).None?
    ensures Candidate(Decoded(rec), username, platform) == Some(MapRecord(rec, username, platform).value)
  {
  }

  /** `_parse_games`: a fresh player, then every line in stream order. */
  method ParseGames(lines: seq<StreamLine>, username: string, platform: string) returns (player: Player)
    ensures fresh(player) && player.username == username
    ensures player.State() == ParseLines(Empty(), lines, username, platform)
  {
    player := new Player(username);
    for i := 0 to |lines|
      invariant player.username == username
      invariant player.State() == ParseLines(Empty(), lines[..i], username, platform)
    {
      assert lines[..i + 1][..i] == lines[..i];
      var game := TryLine(lines[i], username, platform);
      if game.Some? {
        var err := player.AddGame(game.value);
      }
    }
    assert lines[..|lines|] == lines;
  }

  /** `get_games_by_username`: check the arguments, then fetch and parse
      the stream.  `fetch` stands for the HTTP request and the splitting
      of its body into lines; `requested` is the request sent, None when
      the check fails and nothing is fetched. */
  method GetGamesByUsername(username: string, start: Option<int>, end: Option<int>,
                            numberOfGames: Option<int>, fetch: Request -> seq<StreamLine>, platform: string)
    returns (r: Result<Player>, ghost requested: Option<Request>)
    ensures r.Err? <==> Conflicting(start, end, numberOfGames)
    ensures r.Err? ==> r.error == ConflictingSelector && requested.None?
    ensures r.Ok? ==> requested == Some(FetchRequest(username, start, end, numberOfGames).value)
    ensures r.Ok? ==> fresh(r.value) && r.value.username == username
    ensures r.Ok? ==> r.value.State() == ParseLines(Empty(), fetch(requested.value), username, platform)
  {
    var request := FetchRequest(username, start, end, numberOfGames);
    if request.Err? {
      return Err(request.error), None;
    }
    requested := Some(request.value);
    var player := ParseGames(fetch(request.value), username, platform);
    r := Ok(player);
  }
}
