/** The canonical game record of common_objects/game.py and its per-move
    row table (`Game.to_dataframe`). */
module GameModel {
  import opened Common

  /** A game as the canonical model holds it.  `startMs` is the start
      instant in milliseconds since the epoch.  `status` is `None` when
      the producer does not supply one (the platform adapters do not), and
      `playerColour` is `None` when the producer does not supply one (the
      canonical constructor does not take it).  Evaluations are the
      provider's evaluation strings; a time-spent entry is `None` where it
      is unknown. */
  datatype Game = Game(
    id: string,
    startMs: int,
    platform: string,
    speed: string,
    opening: string,
    status: Option<string>,
    winner: string,
    moves: seq<string>,
    evaluations: seq<string>,
    timeSpent: seq<Option<real>>,
    playerColour: Option<Colour>)

  /** `evaluations or []`: an absent list (and an empty one) is stored as []. */
  function OrEmpty<T>(xs: Option<seq<T>>): (r: seq<T>)
    ensures xs.None? ==> r == []
    ensures xs.Some? ==> r == xs.value
  {
    if xs.Some? then xs.value else []
  }

  /** `Game.__init__`: every field is stored as given, and an absent
      evaluation or time-spent list becomes the empty list. */
  function NewGame(id: string, startMs: int, platform: string, speed: string, opening: string,
                   status: string, winner: string, moves: seq<string>,
                   evaluations: Option<seq<string>>, timeSpent: Option<seq<Option<real>>>): (g: Game)
    ensures g.id == id && g.startMs == startMs && g.platform == platform && g.speed == speed
    ensures g.opening == opening && g.status == Some(status) && g.winner == winner && g.moves == moves
    ensures evaluations.None? ==> g.evaluations == []
    ensures timeSpent.None? ==> g.timeSpent == []
    ensures evaluations.Some? ==> g.evaluations == evaluations.value
    ensures timeSpent.Some? ==> g.timeSpent == timeSpent.value
    ensures g.playerColour.None?
  {
    Game(id, startMs, platform, speed, opening, Some(status), winner, moves,
         OrEmpty(evaluations), OrEmpty(timeSpent), None)
  }

  /** One row of the table `to_dataframe` builds. */
  datatype Row = Row(
    gameId: string,
    moveNumber: nat,
    move: string,
    evaluation: Option<string>,
    timeSpent: Option<real>,
    speed: string,
    platform: string,
    opening: string,
    status: Option<string>,
    winner: string,
    startMs: int)

  /** A column is usable when it is empty (it is then filled with None) or
      has one entry per move; any other length makes the table
      constructor raise. */
  predicate Aligned<T>(column: seq<T>, n: nat)
  {
    column == [] || |column| == n
  }

  predicate RowsBuildable(g: Game)
  {
    Aligned(g.evaluations, |g.moves|) && Aligned(g.timeSpent, |g.moves|)
  }

  function RowAt(g: Game, i: nat): Row
    requires RowsBuildable(g) && i < |g.moves|
  {
    Row(g.id, i + 1, g.moves[i],
        if g.evaluations == [] then None else Some(g.evaluations[i]),
        if g.timeSpent == [] then None else g.timeSpent[i],
        g.speed, g.platform, g.opening, g.status, g.winner, g.startMs)
  }

  /** `Game.to_dataframe` as a sequence of rows, one per move. */
  function ToRows(g: Game): (r: Result<seq<Row>>)
    ensures r.Err? <==> !RowsBuildable(g)
    ensures r.Err? ==> r.error == LengthMismatch
    ensures r.Ok? ==> |r.value| == |g.moves|
    ensures r.Ok? ==> forall i :: 0 <= i < |r.value| ==>
      && r.value[i].moveNumber == i + 1
      && r.value[i].move == g.moves[i]
    ensures r.Ok? ==> forall i :: 0 <= i < |r.value| ==>
      && r.value[i].gameId == g.id && r.value[i].speed == g.speed
      && r.value[i].platform == g.platform && r.value[i].opening == g.opening
      && r.value[i].status == g.status && r.value[i].winner == g.winner
      && r.value[i].startMs == g.startMs
    ensures r.Ok? ==> forall i :: 0 <= i < |r.value| ==>
      && r.value[i].evaluation == (if g.evaluations == [] then None else Some(g.evaluations[i]))
      && r.value[i].timeSpent == (if g.timeSpent == [] then None else g.timeSpent[i])
  {
    if !RowsBuildable(g) then Err(LengthMismatch)
    else Ok(seq(|g.moves|, i requires 0 <= i < |g.moves| => RowAt(g, i)))
  }

  /** The `move` column of a game's table; ChessCom.MoveTexts is the same
      projection over PGN matches, a different record type. */
  function MoveColumn(rows: seq<Row>): (c: seq<string>)
    ensures |c| == |rows|
  {
    seq(|rows|, i requires 0 <= i < |rows| => rows[i].move)
  }

  function EvaluationColumn(rows: seq<Row>): (c: seq<Option<string>>)
    ensures |c| == |rows|
  {
    seq(|rows|, i requires 0 <= i < |rows| => rows[i].evaluation)
  }

  function TimeSpentColumn(rows: seq<Row>): (c: seq<Option<real>>)
    ensures |c| == |rows|
  {
    seq(|rows|, i requires 0 <= i < |rows| => rows[i].timeSpent)
  }

  function Somes<T>(xs: seq<T>): (r: seq<Option<T>>)
    ensures |r| == |xs|
  {
    seq(|xs|, i requires 0 <= i < |xs| => Some(xs[i]))
  }

  function Nones<T>(n: nat): (r: seq<Option<T>>)
    ensures |r| == n
  {
    seq(n, i requires 0 <= i < n => None)
  }

  /** The table keeps everything the game's lists hold: its move column is
      the move list, and its evaluation and time-spent columns are the
      stored lists verbatim, or all None when a list is empty. */
  lemma RowsRecoverGame(g: Game)
    requires RowsBuildable(g)
    ensures ToRows(g).Ok?
    ensures MoveColumn(ToRows(g).value) == g.moves
    ensures EvaluationColumn(ToRows(g).value) ==
      (if g.evaluations == [] then Nones(|g.moves|) else Somes(g.evaluations))
    ensures TimeSpentColumn(ToRows(g).value) ==
      (if g.timeSpent == [] then Nones(|g.moves|) else g.timeSpent)
  {
  }
}
