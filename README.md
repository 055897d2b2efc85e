# chessmate core, modelled in Dafny

This project models the core of chessmate, a tool that fetches a player's
games from chess.com and Lichess and turns them into material for
analysing the player's mistakes. It covers six parts:

- **The platform adapters.**
  - chess.com: the walk over monthly archives, PGN move and clock reading,
    and the winner, colour and opening of a game.
  - Lichess: the request parameters, the NDJSON game stream, and the
    evaluation texts.
- **The game and player records.** A `Game` value and its per-move table.
  A `Player` object files games by speed into six insertion-ordered
  dictionaries keyed by game id.
- **The evaluation drop detector.** It normalises evaluation strings and
  reports adjacent pairs whose evaluation falls by at least a threshold.
- **The mistake classifier.** An ordered rule chain on the loss and the
  time used, the conversion of engine scores to centipawns, and the
  record kept for one position.
- **The hand-made position features.** Material balance and the pawn
  shield in front of each king.
- **The dispatcher.** It builds the platform wrappers from the
  configuration, finds a wrapper by name, and hands an analysis to it.

## Modules

| file | module | models |
|---|---|---|
| common.dfy | Common | options, results with one error per exception the code raises, colours |
| text.dfy | Text | string operations: `strip`, `lower`, `split`, `find`; `int()` and `float()` on decimal text; printing integers |
| game.dfy | GameModel | common_objects/game.py |
| player.dfy | PlayerModel | common_objects/player.py. `Player` is a class; `Categories` is its abstract state |
| platform_rules.dfy | PlatformRules | the case-insensitive colour rule both adapters share |
| chesscom.dfy | ChessCom | src/platforms/chesscom.py |
| lichess.dfy | Lichess | src/platforms/lichess.py |
| drop_detector.dfy | DropDetector | src/ml/helper_functions.py/evaluation_drop_detector.py |
| mistake.dfy | MistakeIdentifier | ml/mistake_identifier/mistake_identifier.py |
| features.dfy | Features | the feature extraction of src/ml/cluster_analysis/cluster_analysis.py |
| dispatcher.dfy | Dispatcher | ml/dispatcher_app.py |
| pipeline.dfy | Pipeline | how Lichess evaluation texts reach the drop detector |

## How the model is stated

- **Loops.** Code that loops and mutates is written as methods with loops.
  - `Player.AddGames`, `ChessCom.ReadMoves`, `ChessCom.ParseGames`,
    `ChessCom.GetGamesByUsername`, `Lichess.ExtractEvaluations`,
    `Lichess.ParseGames`, `DropDetector.FindDrops`, `Features.Material`
    and `Dispatcher.Start` each loop.
  - Each is proved equal to a specification function; the lemmas are
    proved about that function.
- **The `Player` class.** It keeps its six dictionaries as six `seq<Game>`
  fields, in insertion order, each with unique ids. Its methods are specified
  through `State()`, a `Categories` value.
- **Abstracted inputs.** Decoded JSON is given as values. The HTTP
  responses are function parameters: a month's games for chess.com, the
  stream lines for Lichess. Building a wrapper from its configuration is
  also a function parameter. The regular-expression tokenisation of a
  chess.com PGN is given as its sequence of matches (colour, move, clock
  text).
- **Numbers.** Python floats are modelled as `real`. Instants are integer
  milliseconds and months are (year, month) pairs. "Now" is a parameter.

## Where the code differs from its description

The model follows the code in each case below.

- The drop detector compares raw `float()` values against the threshold,
  with no scaling by 100. "+2.50" is 2.5, so a drop from "+2.50" to
  "-1.00" is 3.5 and is not reported at the default threshold of 100.
- The mistake classifier labels by the absolute value of the loss. A move
  better than the engine's by more than 300 is therefore a "Blunder".
  The recorded `cp_loss` stays signed.
- "Time trouble" (under 2 seconds with a loss over 150) outranks "Blunder".
- The player record does not keep game ids unique across speeds: the same
  id may sit under two speeds.
- The cap on the chess.com month walk does not stop the walk. The
  per-month parser counts on a copy of the counter, so the walk sees 0
  after every month and stops only for a negative cap (after the first
  month). The per-month parser does stop at the cap within a month.
- Lichess mate evaluations are written "mate in N" / "mated in N". The
  drop detector looks for a capital "M", so it sees no mate marker and
  does not parse them as numbers: they are ignored.
- The Lichess adapter calls `Game(...)` with a `player_color` keyword that
  common_objects/game.py does not take, so as written it files no game
  (see "## Findings"). The rest of the model maps records as the adapter
  evidently intends.

## Model

| member | source | states |
|---|---|---|
| GameModel.NewGame | common_objects/game.py:4-25 | the fields are the arguments; missing evaluations and time spent become empty lists |
| GameModel.ToRows | common_objects/game.py:27-41 | one row per move, numbered from 1, carrying the game's fields; an empty evaluation or time column becomes None on every row; columns of other lengths fail |
| GameModel.RowsRecoverGame | common_objects/game.py:27-41 | the move, evaluation and time columns of the table give back the game's lists |
| PlayerModel.Ids | common_objects/player.py:7-12 | the keys of a dictionary in insertion order |
| PlayerModel.IndexOf | common_objects/player.py:33-34 | the position of an id: the first entry with it, or none when absent |
| PlayerModel.Put | common_objects/player.py:22 | a dictionary store grows by at most one entry |
| PlayerModel.PutSemantics | common_objects/player.py:22 | after storing, the id maps to the new game, other ids are unchanged, a new key goes last, and keys stay unique |
| PlayerModel.IndexOfUpdate | common_objects/player.py:22 | overwriting an entry keeps every key's position |
| PlayerModel.IndexOfAppend | common_objects/player.py:22 | appending finds old keys where they were and the new key last |
| PlayerModel.CategoryIndex | common_objects/player.py:14-17 | a speed maps to its category; only the five filing speeds (not ultraBullet) are accepted |
| PlayerModel.Categories.With | common_objects/player.py:7-12 | replacing one category leaves the other five unchanged |
| PlayerModel.Categories.SpeedDict | common_objects/player.py:14-17 | an unknown speed fails with UnknownSpeed; a known one gives its dictionary |
| PlayerModel.Categories.AddGame | common_objects/player.py:19-22 | a game is stored under its id in its speed's category, other categories unchanged; an unknown speed fails |
| PlayerModel.Categories.FirstCategoryWith | common_objects/player.py:31-34 | the first category, in the search order, holding the id |
| PlayerModel.Empty | common_objects/player.py:5-12 | a new player has six empty categories |
| PlayerModel.EmptyWellFiled | common_objects/player.py:5-12 | a new player is well filed: each category holds only its own speed, with unique ids |
| PlayerModel.AddGameWellFiled | common_objects/player.py:19-22 | adding a game keeps the player well filed |
| PlayerModel.PutKeepsSpeed | common_objects/player.py:22 | storing a game of a category's speed keeps the category of one speed |
| PlayerModel.AddGameThenLookup | common_objects/player.py:19-35 | a game just added is found by its id; it is the game found when no earlier category holds that id |
| PlayerModel.AddAllPrefix | common_objects/player.py:24-27 | adding a list is adding its prefix, then the rest |
| PlayerModel.AddAllStopsAtFirstFailure | common_objects/player.py:24-27 | the first unknown speed stops the loop; the games before it stay added |
| PlayerModel.AddAllSucceeds | common_objects/player.py:24-27 | a list of known speeds is added without error |
| PlayerModel.IdMayRepeatAcrossSpeeds | common_objects/player.py:19-22 | the same id can be filed under blitz and rapid at once |
| PlayerModel.Player.constructor | common_objects/player.py:5-12 | the username is kept and all six categories are empty |
| PlayerModel.Player.SetCategory | common_objects/player.py:17 | writes one category field and no other |
| PlayerModel.Player.AddGame | common_objects/player.py:19-22 | the new state is the abstract AddGame; an unknown speed leaves the state unchanged and reports UnknownSpeed |
| PlayerModel.Player.AddGames | common_objects/player.py:24-27 | the new state and error are those of adding the games one by one |
| PlayerModel.Player.GetGameOnId | common_objects/player.py:29-35 | searches the six categories in order; a missing id fails with GameNotFound |
| PlayerModel.Player.GetGamesOnSpeed | common_objects/player.py:37-39 | the games of a known speed in insertion order; an unknown speed fails |
| PlatformRules.ResolveColour | src/platforms/lichess.py:82-91 | white exactly when the white name equals the username ignoring case, black when only the black name does, otherwise UsernameNotFound |
| PlatformRules.ResolveColourIgnoresCase | src/platforms/chesscom.py:146-151 | lowering the username does not change the colour found |
| ChessCom.PreviousMonth | src/platforms/chesscom.py:45 | one month back is one less in the month count |
| ChessCom.IndexInjective | src/platforms/chesscom.py:40 | two months with the same count are the same month |
| ChessCom.MonthsDown | src/platforms/chesscom.py:38-45 | the months from end down to start: empty when start is later, otherwise one per month |
| ChessCom.MonthsDownAt | src/platforms/chesscom.py:38-45 | the k-th month visited is k months before the end |
| ChessCom.MonthsDownStrictlyDecreasing | src/platforms/chesscom.py:38-45 | the months strictly decrease and lie between start and end |
| ChessCom.MonthsDownComplete | src/platforms/chesscom.py:38-45 | every month between start and end is visited |
| ChessCom.MovesSection | src/platforms/chesscom.py:75-80 | a PGN without a blank line is invalid; the moves section has no newline left |
| ChessCom.ParseClockNoClock | src/platforms/chesscom.py:89-98 | no clock, an empty clock, or a clock of other than two or three parts gives no time |
| ChessCom.ClockOfParts | src/platforms/chesscom.py:92-99 | other than two or three parts gives no time; a time is only read from two or three parts |
| ChessCom.ClockOfPartsErrors | src/platforms/chesscom.py:92-97 | the leftmost part that `int()` (hours, minutes) or `float()` (seconds) rejects is the `NotANumber` error; every error names one of the parts |
| ChessCom.ClockOfThreeParts | src/platforms/chesscom.py:93-99 | h:m:s is h*3600 + m*60 + s seconds, for any seconds `float()` reads, fractions included |
| ChessCom.ClockOfTwoParts | src/platforms/chesscom.py:95-99 | m:s is m*60 + s seconds, for any seconds `float()` reads, fractions included |
| ChessCom.ParseClockOfParts | src/platforms/chesscom.py:89-99 | a clock text is read through its colon-separated parts |
| ChessCom.ParseClockThree | src/platforms/chesscom.py:89-99 | a clock text h:m:s whose parts `int()`, `int()` and `float()` read is h*3600 + m*60 + s seconds, fractional seconds included |
| ChessCom.ParseClockTwo | src/platforms/chesscom.py:89-99 | a clock text m:s whose parts `int()` and `float()` read is m*60 + s seconds, fractional seconds included |
| ChessCom.ParseClockHms | src/platforms/chesscom.py:89-99 | the text h:m:s of three integers reads back as h*3600 + m*60 + s |
| ChessCom.ParseClockMs | src/platforms/chesscom.py:89-99 | the text m:s of two integers reads back as m*60 + s |
| ChessCom.ParsedClocks | src/platforms/chesscom.py:107-111 | every match's clock parses, or the whole game fails |
| ChessCom.ParsedClocksFirstError | src/platforms/chesscom.py:107-111 | the error is the one of the first clock that does not parse |
| ChessCom.LastClock | src/platforms/chesscom.py:104-128 | the previous clock of a colour is a clock that colour showed earlier |
| ChessCom.LastClockLatest | src/platforms/chesscom.py:104-128 | the previous clock is None exactly when no earlier move of that colour had a clock, otherwise the clock of the latest such move |
| ChessCom.TimeSpentOf | src/platforms/chesscom.py:115-126 | one time-spent entry per move |
| ChessCom.MoveTexts | src/platforms/chesscom.py:109-113 | one move text per match |
| ChessCom.ReadAllStep | src/platforms/chesscom.py:107-128 | each loop step either fails on its clock or reads one move |
| ChessCom.ReadMoveStep | src/platforms/chesscom.py:113-128 | one loop step extends the reading up to the next match |
| ChessCom.ReadAllFails | src/platforms/chesscom.py:107-111 | the loop fails exactly as the whole-list clock parse fails |
| ChessCom.ReadAllFrom | src/platforms/chesscom.py:107-128 | reading the rest of the matches from any point ends in the whole reading |
| ChessCom.ReadAllMeaning | src/platforms/chesscom.py:101-128 | the loop gives the moves and, per move, the mover's previous clock minus its clock now, or None when either is missing |
| ChessCom.Advance | src/platforms/chesscom.py:113-128 | one loop iteration updates moves, time spent and the two previous clocks as the reading step does |
| ChessCom.ReadMoves | src/platforms/chesscom.py:101-128 | the method's moves and time spent are the specification's |
| ChessCom.TimeSpentTelescopes | src/platforms/chesscom.py:115-128 | a colour's time spent sums to its first clock minus its last clock |
| ChessCom.ResolveWinner | src/platforms/chesscom.py:133-144 | white on a white win, else black on a black win, else draw on stalemate or 1/2-1/2, else unknown |
| ChessCom.OpeningName | src/platforms/chesscom.py:153 | eco and opening joined by a space and stripped, or "Unknown" when that is empty |
| ChessCom.OpeningNameWithoutFields | src/platforms/chesscom.py:153 | with neither field the opening is "Unknown" |
| ChessCom.MapRecord | src/platforms/chesscom.py:74-166 | an invalid PGN fails; a game has one time entry per move, no evaluations, no status, and the given platform |
| ChessCom.CreateGameFromData | src/platforms/chesscom.py:74-166 | the method builds the game MapRecord describes |
| ChessCom.MapRecordErrors | src/platforms/chesscom.py:74-152 | the error by precedence: InvalidPgn without a header separator, then the first unparseable clock's error, then UsernameNotFound; a game exactly when none of the three occurs |
| ChessCom.MapRecordFields | src/platforms/chesscom.py:131-166 | id from `url` (default ""), start as `end_time` (default 0) in milliseconds, speed from `time_class` (default "unknown"), the opening, winner and colour rules, the matched moves and their time spent |
| ChessCom.Candidates | src/platforms/chesscom.py:59-64 | one candidate per record of the month |
| ChessCom.AddGameGrowsByAtMostOne | src/platforms/chesscom.py:65 | adding a game adds at most one entry |
| ChessCom.FileGamesCapped | src/platforms/chesscom.py:66-68 | with a positive cap the month adds at most the games the cap has left |
| ChessCom.FileGamesGrowth | src/platforms/chesscom.py:59-70 | a month never removes games and adds at most one per record |
| ChessCom.FileGamesSkips | src/platforms/chesscom.py:69-70 | records that fail are skipped and leave the player unchanged |
| ChessCom.NonChessSkipped | src/platforms/chesscom.py:60-61 | a record whose rules are not "chess" yields no game |
| ChessCom.FileGamesAt | src/platforms/chesscom.py:59-70 | each record is skipped, fails and is skipped, or is added, and the count then stops the month at the cap |
| ChessCom.TryRecord | src/platforms/chesscom.py:60-64 | the body of the month loop, for one record |
| ChessCom.ParseGames | src/platforms/chesscom.py:58-70 | the player's new state is the month's specification |
| ChessCom.ParseMonthsThen | src/platforms/chesscom.py:40-45 | parsing one more month parses it on top of the earlier ones, with the count back at 0 |
| ChessCom.WalkVisitsEveryMonth | src/platforms/chesscom.py:36-45 | with no cap, a falsy cap of 0 or a positive cap the walk visits every month from the end down to the start |
| ChessCom.WalkCapped | src/platforms/chesscom.py:40-45 | with a cap of k each visited month adds at most k games |
| ChessCom.WalkCappedStep | src/platforms/chesscom.py:40-45 | one more month keeps the walk within k games per month |
| ChessCom.WalkStep | src/platforms/chesscom.py:40-45 | one loop step moves the current month down without skipping one |
| ChessCom.GetGamesByUsername | src/platforms/chesscom.py:21-47 | a fresh player of that username, filled month by month over exactly the months of the walk |
| Lichess.FetchRequest | src/platforms/lichess.py:27-52 | a game count with a time range fails; otherwise the URL is the user's games endpoint and the parameters are QueryParams |
| Lichess.QueryParamsMeaning | src/platforms/lichess.py:38-52 | the five fixed parameters are always sent; max exactly when a count is given; since and until exactly when no count and that bound are given; nothing else |
| Lichess.StepText | src/platforms/lichess.py:108-116 | a step with neither key gives no text; an eval is printed as its integer and takes precedence over mate; a positive mate N is "mate in N", any other "mated in " followed by -N |
| Lichess.Take | src/platforms/lichess.py:117 | the first n items, or all when fewer |
| Lichess.EvalTextsAppend | src/platforms/lichess.py:107-116 | the texts of two runs of steps are the texts of each, concatenated |
| Lichess.KeylessStepDropped | src/platforms/lichess.py:109-116 | a step with neither key adds no text |
| Lichess.EvalTextsLength | src/platforms/lichess.py:107-116 | one text per step that has a key |
| Lichess.EvalTextsAllKeyed | src/platforms/lichess.py:107-116 | with a key at every step, the i-th text is the i-th step's |
| Lichess.ExtractEvaluations | src/platforms/lichess.py:106-117 | the loop gives the texts of the keyed steps, cut to the move count |
| Lichess.Winner | src/platforms/lichess.py:99 | a present, non-empty winner is kept, otherwise "draw" |
| Lichess.MapRecord | src/platforms/lichess.py:76-104 | the moves are the words of the move text, the evaluations the keyed texts cut to the move count, the time spent the clocks as given; the given platform, no status |
| Lichess.MapRecordErrors | src/platforms/lichess.py:82-95 | a username in neither colour fails first, then a missing id, then a missing createdAt, with KeyError; the game is built exactly when none of these happens |
| Lichess.MapRecordFields | src/platforms/lichess.py:93-104 | id, start, speed ("unknown" by default), opening ("Unknown" by default), winner and colour as the source computes them |
| Lichess.MapRecordEvaluationCount | src/platforms/lichess.py:77-117 | never more evaluations than moves, as many when enough steps have a key; one time entry per clock |
| Lichess.MapRecordMoves | src/platforms/lichess.py:77 | moves written with single spaces are read back as those moves |
| Lichess.CreateGameFromData | src/platforms/lichess.py:76-104 | the method builds the game MapRecord describes |
| Lichess.ParseLinesAppend | src/platforms/lichess.py:60-73 | parsing two runs of lines is parsing each in turn |
| Lichess.SkippedLine | src/platforms/lichess.py:60-73 | a line that gives no game can be removed from the stream without changing the player |
| Lichess.CandidateSkips | src/platforms/lichess.py:67-68 | blank and undecodable lines, variants other than "standard" (or none) and records that fail give no game; any other line gives its mapped game |
| Lichess.LastGameRetrievable | src/platforms/lichess.py:70-71 | the last game of the stream, filed under a known speed, is found by its id |
| Lichess.ParseLinesWellFiled | src/platforms/lichess.py:58-74 | parsing keeps every game under its own speed with unique ids |
| Lichess.TryLine | src/platforms/lichess.py:61-73 | the body of the stream loop, for one line |
| Lichess.ParseGames | src/platforms/lichess.py:58-74 | a fresh player whose state is the stream's specification |
| Lichess.MapRecordAsWritten | src/platforms/lichess.py:93-104 | as written every mapping fails: with the colour and required keys in place, the `Game(...)` call raises TypeError on `player_color` |
| Lichess.ParseLinesAsWrittenFilesNothing | src/platforms/lichess.py:58-74 | as written the stream files no game: the player's store is what it was before the lines |
| Lichess.StandardRecordSkippedAsWritten | src/platforms/lichess.py:58-74 | a standard record that maps is skipped as written, and filed by the intended mapping |
| Lichess.GetGamesByUsername | src/platforms/lichess.py:20-31 | conflicting selectors fail before any request; otherwise exactly the request FetchRequest describes is made and its stream parsed |
| DropDetector.NewDetector | src/ml/helper_functions.py/evaluation_drop_detector.py:4-8 | the threshold defaults to 100 |
| DropDetector.NormalizeEval | src/ml/helper_functions.py/evaluation_drop_detector.py:10-20 | texts starting M, +M or -M are +1000 after a plus and -1000 otherwise; anything else is its float value or none |
| DropDetector.BareMateIsNegative | src/ml/helper_functions.py/evaluation_drop_detector.py:15-16 | a bare "M…" counts as -1000, "+M…" as +1000, "-M…" as -1000 |
| DropDetector.NoCentipawnScaling | src/ml/helper_functions.py/evaluation_drop_detector.py:17-18 | "+2.50" normalises to 2.5: no conversion to centipawns |
| DropDetector.NormalizeIntText | src/ml/helper_functions.py/evaluation_drop_detector.py:17-18 | a printed integer normalises to that integer |
| DropDetector.Normalized | src/ml/helper_functions.py/evaluation_drop_detector.py:42-43 | one normalised value per evaluation |
| DropDetector.NormalizedAt | src/ml/helper_functions.py/evaluation_drop_detector.py:42-43 | the i-th value is the i-th evaluation normalised |
| DropDetector.NormalizedUpdate | src/ml/helper_functions.py/evaluation_drop_detector.py:42-43 | changing one evaluation changes only its own value |
| DropDetector.DropAt | src/ml/helper_functions.py/evaluation_drop_detector.py:50 | the tuple holds the index, the two values and the position at the index |
| DropDetector.Drops | src/ml/helper_functions.py/evaluation_drop_detector.py:38 | lists of different lengths fail |
| DropDetector.DropsBeforeMeaning | src/ml/helper_functions.py/evaluation_drop_detector.py:40-52 | reported tuples are exactly the firing pairs, in increasing index order |
| DropDetector.DropsOver | src/ml/helper_functions.py/evaluation_drop_detector.py:38-52 | over a whole list of normalised values: every reported tuple is a firing pair with its values and position, indices strictly increase, and every firing pair is reported |
| DropDetector.DropsMeaning | src/ml/helper_functions.py/evaluation_drop_detector.py:38-52 | a tuple for exactly the indices i in [1, n) where both neighbours normalise and fall by at least the threshold, with their values and the position at i, in index order |
| DropDetector.ShortInputsReportNothing | src/ml/helper_functions.py/evaluation_drop_detector.py:41 | fewer than two evaluations report nothing |
| DropDetector.UnparseableSuppressesOnlyItsPairs | src/ml/helper_functions.py/evaluation_drop_detector.py:45-46 | an evaluation that does not normalise suppresses its two pairs and changes no others |
| DropDetector.CheckPair | src/ml/helper_functions.py/evaluation_drop_detector.py:42-50 | the loop body reports a tuple exactly when the pair fires |
| DropDetector.FindDrops | src/ml/helper_functions.py/evaluation_drop_detector.py:22-52 | the loop computes the drops the specification lists |
| MistakeIdentifier.Abs | ml/mistake_identifier/mistake_identifier.py:26 | the absolute value is non-negative and equals x or -x |
| MistakeIdentifier.Classify | ml/mistake_identifier/mistake_identifier.py:18-37 | for loss the absolute difference: time trouble iff under 2 s and loss over 150; otherwise blunder over 300, mistake over 150, inaccuracy over 50, else minor |
| MistakeIdentifier.ClassifySymmetric | ml/mistake_identifier/mistake_identifier.py:25-26 | exchanging the two evaluations gives the same label |
| MistakeIdentifier.TimeTroubleBeforeBlunder | ml/mistake_identifier/mistake_identifier.py:28-31 | a blunder-sized loss under 2 s is time trouble |
| MistakeIdentifier.StrictThresholds | ml/mistake_identifier/mistake_identifier.py:30-37 | losses of exactly 300, 150 and 50 get the milder label |
| MistakeIdentifier.Severity | ml/mistake_identifier/mistake_identifier.py:28-37 | labels rank 0 to 3 |
| MistakeIdentifier.SeverityMonotone | ml/mistake_identifier/mistake_identifier.py:28-37 | at the same time used, a larger loss never gets a milder label |
| MistakeIdentifier.LabelTexts | ml/mistake_identifier/mistake_identifier.py:28-37 | each label is one of the five texts, and different labels have different texts |
| MistakeIdentifier.ScoreToCp | ml/mistake_identifier/mistake_identifier.py:85-91 | a mate is 3000 for a positive count and -3000 otherwise; a centipawn score is kept |
| MistakeIdentifier.MateScores | ml/mistake_identifier/mistake_identifier.py:85-91 | two mates for the same side show no loss; opposite mates are a blunder |
| MistakeIdentifier.AnalyzePosition | ml/mistake_identifier/mistake_identifier.py:39-64 | the record keeps its inputs, both converted scores, the signed loss best minus actual, and the label of the two scores |
| MistakeIdentifier.SignedLossSevereLabel | ml/mistake_identifier/mistake_identifier.py:53-61 | a move 400 better than the engine's best is recorded with loss -400 and labelled "Blunder" |
| MistakeIdentifier.RecordLabelFromLoss | ml/mistake_identifier/mistake_identifier.py:25-61 | the label follows from the size of the recorded loss and the time |
| Features.Value | src/ml/cluster_analysis/cluster_analysis.py:26-32 | only kings have no value |
| Features.Count | src/ml/cluster_analysis/cluster_analysis.py:48 | a piece count never exceeds the squares |
| Features.MaterialAgrees | src/ml/cluster_analysis/cluster_analysis.py:45-49 | the per-kind sum with P=1, N=B=3, R=5, Q=9 equals the sum of signed square values |
| Features.Material | src/ml/cluster_analysis/cluster_analysis.py:45-49 | the loop computes white's material minus black's, square by square |
| Features.SwapNegatesMaterial | src/ml/cluster_analysis/cluster_analysis.py:45-49 | swapping every piece's colour negates the material |
| Features.KingsDoNotCount | src/ml/cluster_analysis/cluster_analysis.py:26-49 | a king on a square changes no material |
| Features.KingBelow | src/ml/cluster_analysis/cluster_analysis.py:53 | the king square is the highest square holding that colour's king, or none |
| Features.FilesAround | src/ml/cluster_analysis/cluster_analysis.py:60-62 | the files next to and at the king's, within the board |
| Features.FilesAroundCount | src/ml/cluster_analysis/cluster_analysis.py:60-62 | three files, two at the a- and h-file |
| Features.NoKingNoShield | src/ml/cluster_analysis/cluster_analysis.py:53-55 | without a king the safety is 0 |
| Features.KingSafetyBounds | src/ml/cluster_analysis/cluster_analysis.py:56-63 | at most six shield pawns, at most four on an edge file |
| Features.MirrorKing | src/ml/cluster_analysis/cluster_analysis.py:53 | on the mirrored board the king of one colour is the mirrored king of the other |
| Features.MirrorKingSafety | src/ml/cluster_analysis/cluster_analysis.py:52-63 | a colour's safety on the mirror is the other colour's on the board |
| Features.KingSafetyAntisymmetric | src/ml/cluster_analysis/cluster_analysis.py:65-67 | mirroring the board negates the king-safety feature |
| Features.ExtractFeatures | src/ml/cluster_analysis/cluster_analysis.py:41-76 | the material and king-safety entries, the latter between -6 and 6 |
| Dispatcher.BuildOne | ml/dispatcher_app.py:20-22 | a config without "class" fails with KeyError; otherwise the loaded class is called with the whole config |
| Dispatcher.EnabledConfigs | ml/dispatcher_app.py:16-18 | the enabled configs in order: every one kept is enabled and every enabled one is kept |
| Dispatcher.BuildSucceeds | ml/dispatcher_app.py:16-23 | start succeeds exactly when every enabled config builds |
| Dispatcher.BuildYields | ml/dispatcher_app.py:16-23 | one wrapper per enabled config, in order, each built from its own config |
| Dispatcher.BuildFailsAtFirst | ml/dispatcher_app.py:16-23 | the error is that of the first enabled config that does not build |
| Dispatcher.DisabledIgnored | ml/dispatcher_app.py:17-18 | configs that are disabled, or lack "enabled", change nothing |
| Dispatcher.Start | ml/dispatcher_app.py:11-24 | the loop builds the wrappers Build describes (a missing "platforms" is an empty list), or fails as it does |
| Dispatcher.BuildErrSticks | ml/dispatcher_app.py:16-22 | once an enabled config fails, start fails with that error |
| Dispatcher.FindPlatformWrapper | ml/dispatcher_app.py:45-55 | the first wrapper with that name; none gives NoPlatform of the name |
| Dispatcher.FirstNameWins | ml/dispatcher_app.py:47-50 | the first wrapper of the name is chosen whatever follows |
| Dispatcher.CallFetch | ml/dispatcher_app.py:36 | a method name the wrapper does not have fails with AttributeError |
| Dispatcher.AnalyseAsWrittenAlwaysFails | ml/dispatcher_app.py:35-36 | as written, analyse always fails |
| Dispatcher.Analyse | ml/dispatcher_app.py:26-36 | no wrapper of the name fails; otherwise the player is that wrapper's fetch |
| Dispatcher.AnalyseResolvesFirst | ml/dispatcher_app.py:35-36 | without a matching wrapper the fetch is never consulted |
| Dispatcher.AnalyseAsksOnlyTheChosen | ml/dispatcher_app.py:47-50 | wrappers of other names do not change the outcome |
| Pipeline.CentipawnTextNormalizes | src/platforms/lichess.py:109-110 | a Lichess centipawn text reads back in the drop detector as its integer |
| Pipeline.MateTextIgnored | src/platforms/lichess.py:111-116 | a Lichess mate text normalises to nothing in the drop detector |
| Pipeline.EvalTextsOfCentipawns | src/platforms/lichess.py:107-110 | with centipawns at every step the texts are those integers, one per step |
| Pipeline.LichessEvaluationsNormalize | src/platforms/lichess.py:76-117 | a Lichess game analysed in centipawns hands the detector the engine's values in order |

## Findings

| source | as written | input that shows it | evidently intended | confidence | as-written member | corrected member |
|---|---|---|---|---|---|---|
| ml/dispatcher_app.py:36 | `analyse` calls `get_player_by_username` on the wrapper; the chess.com and Lichess wrappers define `get_games_by_username` and nothing by the other name | any analysis whose platform name matches a configured wrapper: the call raises AttributeError | call `get_games_by_username` with the same arguments | high; not executed | Dispatcher.AnalyseAsWrittenAlwaysFails | Dispatcher.Analyse |
| src/platforms/lichess.py:103 | the Lichess `_create_game_from_data` calls `Game(...)` with `player_color`, a keyword the constructor of common_objects/game.py does not take, and without its required `status` | any standard record whose user and `id` and `createdAt` keys are present: the call raises TypeError, `_parse_games` catches it, and no game is ever filed | build the game with the fields the constructor takes, keeping the player colour | high; not executed | Lichess.ParseLinesAsWrittenFilesNothing | Lichess.LastGameRetrievable |

## Left out

- HTTP, streaming, `raise_for_status` and JSON decoding are left out: responses are parameters and records are decoded values. The Lichess `Accept` header and the chess.com `User-Agent` header are left out with them.
- The regular-expression tokenisation of a chess.com PGN is left out: the model takes the sequence of matches as input.
- `datetime` and `relativedelta` arithmetic are left out: months are (year, month) pairs, instants are integer milliseconds (the chess.com `end_time` in seconds times 1000), and "now" is a parameter. Only the `datetime` object and its time zone are not modelled.
- The chess.com `common.game` and `common.player` modules are not part of this model, so the chess.com `Game(...)` call is modelled by the field values it passes. The Lichess call, against common_objects/game.py, is a finding below, and the rest of the model uses the intended mapping. The chess.com walk files its games through `PlayerModel`, the model of common_objects/player.py, in place of `common.player`; with it a chess.com "daily" game is an unknown speed and is skipped.
- `float()` and `int()` only cover optional surrounding spaces, an optional sign, digits, and one optional point. Exponents, `inf`, `nan` and underscores are left out, as are non-ASCII text (and its whitespace, such as U+0085 and U+00A0) and case folding beyond ASCII. ASCII whitespace is modelled in full: space, tab, 10 to 13 and the separators 28 to 31.
- Python floats are modelled as unbounded reals, so float rounding is not modelled.
- Lichess clocks are kept verbatim as reals, as the source does; their unit is not interpreted.
- `Player.__repr__` and `Player.get_all_games_df` are left out: they are text formatting and DataFrame concatenation. The per-game table they concatenate is `GameModel.ToRows`.
- The log lines for skipped games and the `print` in `analyse` are left out.
- `analyse` returns nothing in the source; `Dispatcher.Analyse` returns the fetched player in its place.
- The chess engine is left out: `popen_uci`, `analyse`, `close` and `analyze_multiple`. Its best move and scores are inputs to `MistakeIdentifier.AnalyzePosition`.
- The mobility feature (`board.legal_moves.count()`) is left out, because it needs move generation. FEN parsing is left out too: boards are given as 64 squares.
- `prepare_features`, `fit` and `describe_clusters` (pandas, StandardScaler, KMeans) are left out, because they are numeric library code.
- Loading a class from its dotted path and calling its constructor form one function parameter of `Dispatcher.Start`.
- Features.KingSafetyAntisymmetric: holds only for boards with at most one king per colour. With two kings of a colour, `board.king` picks the highest square, and the mirror reverses which king that is.
- Features.KingBelow: ignores python-chess's exclusion of promoted kings, which only arise in variants.
