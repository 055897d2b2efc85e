/** The hand-made position features of
    src/ml/cluster_analysis/cluster_analysis.py: the material balance
    and the pawn-shield king safety of a board.  A board is 64 squares,
    a1 = 0 to h8 = 63 with square = 8 * rank + file, each empty or holding
    a piece of one colour. */
module Features {
  import opened Common

  datatype Kind = Pawn | Knight | Bishop | Rook | Queen | King

  datatype Piece = Piece(kind: Kind, colour: Colour)

  type Board = seq<Option<Piece>>

  predicate IsBoard(board: Board)
  {
    |board| == 64
  }

  // ---------------------------------------------------------------------
  // Material

  /** `PIECE_VALUES`, in its iteration order; kings have no value. */
  const PieceValues: seq<(Kind, int)> := [(Pawn, 1), (Knight, 3), (Bishop, 3), (Rook, 5), (Queen, 9)]

  function Value(k: Kind): (v: int)
    ensures k == King <==> v == 0
  {
    match k
    case Pawn => 1
    case Knight => 3
    case Bishop => 3
    case Rook => 5
    case Queen => 9
    case King => 0
  }

  /** `len(board.pieces(kind, colour))`. */
  function Count(board: Board, kind: Kind, colour: Colour): (n: nat)
    ensures n <= |board|
  {
    if board == [] then 0
    else Count(board[..|board| - 1], kind, colour) + (if board[|board| - 1] == Some(Piece(kind, colour)) then 1 else 0)
  }

  /** The material sum over the given (kind, value) entries, accumulated
      in order. */
  function MaterialOver(board: Board, values: seq<(Kind, int)>): int
  {
    if values == [] then 0
    else
      var (kind, value) := values[|values| - 1];
      MaterialOver(board, values[..|values| - 1]) + KindShare(board, kind, value)
  }

  /** What one square contributes: its piece's value, positive for white
      and negative for black. */
  function SquareValue(sq: Option<Piece>): int
  {
    if sq.None? then 0
    else if sq.value.colour == White then Value(sq.value.kind)
    else -Value(sq.value.kind)
  }

  /** The balance read square by square: the reference definition. */
  function MaterialBySquares(board: Board): int
  {
    if board == [] then 0
    else MaterialBySquares(board[..|board| - 1]) + SquareValue(board[|board| - 1])
  }

  /** What one square adds to the sum over the given entries. */
  function SquareOver(sq: Option<Piece>, values: seq<(Kind, int)>): int
  {
    if values == [] then 0
    else
      var (kind, value) := values[|values| - 1];
      SquareOver(sq, values[..|values| - 1]) + SquareShare(sq, kind, value)
  }

  /** One kind's share of the balance. */
  function KindShare(board: Board, kind: Kind, value: int): int
  {
    (Count(board, kind, White) - Count(board, kind, Black)) * value
  }

  /** One square's share of one kind's value. */
  function SquareShare(sq: Option<Piece>, kind: Kind, value: int): int
  {
    if sq == Some(Piece(kind, White)) then value else if sq == Some(Piece(kind, Black)) then -value else 0
  }

  lemma KindShareSnoc(board: Board, kind: Kind, value: int)
    requires board != []
    ensures KindShare(board, kind, value)
         == KindShare(board[..|board| - 1], kind, value) + SquareShare(board[|board| - 1], kind, value)
  {
    var init := board[..|board| - 1];
    var w, b := Count(init, kind, White), Count(init, kind, Black);
    var dw := if board[|board| - 1] == Some(Piece(kind, White)) then 1 else 0;
    var db := if board[|board| - 1] == Some(Piece(kind, Black)) then 1 else 0;
    assert Count(board, kind, White) == w + dw;
    assert Count(board, kind, Black) == b + db;
    assert ((w + dw) - (b + db)) * value == (w - b) * value + (dw - db) * value;
  }

  lemma {:induction false} MaterialOverSnoc(board: Board, values: seq<(Kind, int)>)
    requires board != []
    ensures MaterialOver(board, values)
         == MaterialOver(board[..|board| - 1], values) + SquareOver(board[|board| - 1], values)
    decreases |values|
  {
    if values != [] {
      var init := values[..|values| - 1];
      var (kind, value) := values[|values| - 1];
      MaterialOverSnoc(board, init);
      KindShareSnoc(board, kind, value);
      assert MaterialOver(board, values) == MaterialOver(board, init) + KindShare(board, kind, value);
      assert MaterialOver(board[..|board| - 1], values)
          == MaterialOver(board[..|board| - 1], init) + KindShare(board[..|board| - 1], kind, value);
      assert SquareOver(board[|board| - 1], values)
          == SquareOver(board[|board| - 1], init) + SquareShare(board[|board| - 1], kind, value);
    }
  }

  lemma SquareOverValues(sq: Option<Piece>)
    ensures SquareOver(sq, PieceValues) == SquareValue(sq)
  {
    var v4 := [(Pawn, 1), (Knight, 3), (Bishop, 3), (Rook, 5)];
    var v3 := [(Pawn, 1), (Knight, 3), (Bishop, 3)];
    var v2 := [(Pawn, 1), (Knight, 3)];
    var v1: seq<(Kind, int)> := [(Pawn, 1)];
    assert PieceValues[..4] == v4;
    assert v4[..3] == v3;
    assert v3[..2] == v2;
    assert v2[..1] == v1;
    assert v1[..0] == [];
    assert SquareOver(sq, v1) == SquareShare(sq, Pawn, 1);
    assert SquareOver(sq, v2) == SquareOver(sq, v1) + SquareShare(sq, Knight, 3);
    assert SquareOver(sq, v3) == SquareOver(sq, v2) + SquareShare(sq, Bishop, 3);
    assert SquareOver(sq, v4) == SquareOver(sq, v3) + SquareShare(sq, Rook, 5);
    assert SquareOver(sq, PieceValues) == SquareOver(sq, v4) + SquareShare(sq, Queen, 9);
  }

  /** Summing per kind, as the source does, equals summing per square. */
  lemma {:induction false} MaterialAgrees(board: Board)
    ensures MaterialOver(board, PieceValues) == MaterialBySquares(board)
    decreases |board|
  {
    if board == [] {
      MaterialOfEmpty(PieceValues);
    } else {
      MaterialAgrees(board[..|board| - 1]);
      MaterialOverSnoc(board, PieceValues);
      SquareOverValues(board[|board| - 1]);
    }
  }

  lemma {:induction false} MaterialOfEmpty(values: seq<(Kind, int)>)
    ensures MaterialOver([], values) == 0
    decreases |values|
  {
    if values != [] {
      MaterialOfEmpty(values[..|values| - 1]);
    }
  }

  /** The material part of `extract_features_from_fen`. */
  method Material(board: Board) returns (material: int)
    ensures material == MaterialBySquares(board)
  {
    material := 0;
    for j := 0 to |PieceValues|
      invariant material == MaterialOver(board, PieceValues[..j])
    {
      assert PieceValues[..j + 1][..j] == PieceValues[..j];
      var (kind, value) := PieceValues[j];
      material := material + (Count(board, kind, White) - Count(board, kind, Black)) * value;
      assert material == MaterialOver(board, PieceValues[..j]) + KindShare(board, kind, value);
    }
    assert PieceValues[..|PieceValues|] == PieceValues;
    MaterialAgrees(board);
  }

  /** Every piece with the other colour. */
  function SwapColours(board: Board): (r: Board)
    ensures |r| == |board|
    ensures forall i :: 0 <= i < |board| ==>
      r[i] == if board[i].None? then None else Some(Piece(board[i].value.kind, Opposite(board[i].value.colour)))
  {
    seq(|board|, i requires 0 <= i < |board| =>
      if board[i].None? then None else Some(Piece(board[i].value.kind, Opposite(board[i].value.colour))))
  }

  /** Swapping the colours of every piece negates the balance. */
  lemma {:induction false} SwapNegatesMaterial(board: Board)
    ensures MaterialBySquares(SwapColours(board)) == -MaterialBySquares(board)
    decreases |board|
  {
    if board != [] {
      var init := board[..|board| - 1];
      assert SwapColours(board)[..|board| - 1] == SwapColours(init);
      SwapNegatesMaterial(init);
    }
  }

  /** Kings never change the balance. */
  lemma {:induction false} KingsDoNotCount(board: Board, i: nat, c: Colour)
    requires i < |board|
    ensures MaterialBySquares(board[i := Some(Piece(King, c))]) == MaterialBySquares(board[i := None])
    decreases |board|
  {
    var n := |board| - 1;
    if i < n {
      assert board[i := Some(Piece(King, c))][..n] == board[..n][i := Some(Piece(King, c))];
      assert board[i := None][..n] == board[..n][i := None];
      KingsDoNotCount(board[..n], i, c);
    } else {
      assert board[i := Some(Piece(King, c))][..n] == board[..n];
      assert board[i := None][..n] == board[..n];
    }
  }

  // ---------------------------------------------------------------------
  // King safety

  function Rank(sq: nat): nat { sq / 8 }

  function File(sq: nat): nat { sq % 8 }

  function Square(file: int, rank: int): int { rank * 8 + file }

  predicate IsKing(board: Board, i: nat, colour: Colour)
    requires i < |board|
  {
    board[i] == Some(Piece(King, colour))
  }

  /** `board.king(colour)`: the highest square below n holding a king of
      that colour, or None. */
  function KingBelow(board: Board, colour: Colour, n: nat): (r: Option<nat>)
    requires n <= |board|
    ensures r.Some? ==> r.value < n && IsKing(board, r.value, colour)
    ensures r.Some? ==> forall j :: r.value < j < n ==> !IsKing(board, j, colour)
    ensures r.None? ==> forall j :: 0 <= j < n ==> !IsKing(board, j, colour)
  {
    if n == 0 then None
    else if IsKing(board, n - 1, colour) then Some(n - 1)
    else KingBelow(board, colour, n - 1)
  }

  function KingSquare(board: Board, colour: Colour): Option<nat>
  {
    KingBelow(board, colour, |board|)
  }

  /** The files next to and at `file` that lie on the board, in order. */
  function FilesAround(file: int): (fs: seq<int>)
    ensures forall i :: 0 <= i < |fs| ==> 0 <= fs[i] <= 7
  {
    (if 0 <= file - 1 <= 7 then [file - 1] else [])
      + (if 0 <= file <= 7 then [file] else [])
      + (if 0 <= file + 1 <= 7 then [file + 1] else [])
  }

  /** The ranks the shield is looked for on: the second and third rank
      from white's side for white, the seventh and sixth for black;
      whatever rank the king stands on. */
  function ShieldRanks(colour: Colour): seq<int>
  {
    if colour == White then [1, 2] else [6, 5]
  }

  /** The squares of the given files on one rank. */
  function RankRow(rank: int, files: seq<int>): (row: seq<int>)
    ensures |row| == |files|
    ensures forall i :: 0 <= i < |files| ==> row[i] == Square(files[i], rank)
  {
    seq(|files|, i requires 0 <= i < |files| => Square(files[i], rank))
  }

  /** `safety_zone`: rank by rank, file by file. */
  function Zone(file: int, ranks: seq<int>): seq<int>
  {
    if ranks == [] then [] else RankRow(ranks[0], FilesAround(file)) + Zone(file, ranks[1..])
  }

  function ShieldZone(kingSquare: nat, colour: Colour): seq<int>
  {
    Zone(File(kingSquare), ShieldRanks(colour))
  }

  /** The number of squares in the list holding a pawn of the colour. */
  function PawnsOn(board: Board, squares: seq<int>, colour: Colour): (n: nat)
    requires IsBoard(board)
    ensures n <= |squares|
  {
    if squares == [] then 0
    else
      var sq := squares[0];
      PawnsOn(board, squares[1..], colour)
        + (if 0 <= sq < 64 && board[sq] == Some(Piece(Pawn, colour)) then 1 else 0)
  }

  /** `king_safety(board, colour)`. */
  function KingSafety(board: Board, colour: Colour): nat
    requires IsBoard(board)
  {
    match KingSquare(board, colour)
    case None => 0
    case Some(k) => PawnsOn(board, ShieldZone(k, colour), colour)
  }

  /** The king-safety feature: white's shield minus black's. */
  function KingSafetyScore(board: Board): int
    requires IsBoard(board)
  {
    KingSafety(board, White) - KingSafety(board, Black)
  }

  lemma FilesAroundCount(file: nat)
    requires file <= 7
    ensures |FilesAround(file)| == if file == 0 || file == 7 then 2 else 3
  {
  }

  lemma ZoneOfTwoRanks(file: int, r1: int, r2: int)
    ensures Zone(file, [r1, r2]) == RankRow(r1, FilesAround(file)) + RankRow(r2, FilesAround(file))
  {
    assert [r1, r2][1..] == [r2];
    assert Zone(file, [r2]) == RankRow(r2, FilesAround(file)) + Zone(file, []);
  }

  /** Without a king of the colour, its shield counts 0. */
  lemma NoKingNoShield(board: Board, colour: Colour)
    requires IsBoard(board)
    requires forall i :: 0 <= i < 64 ==> board[i] != Some(Piece(King, colour))
    ensures KingSafety(board, colour) == 0
  {
  }

  /** The shield counts at most six pawns, and at most four for a king on
      the a- or h-file. */
  lemma KingSafetyBounds(board: Board, colour: Colour)
    requires IsBoard(board)
    ensures KingSafety(board, colour) <= 6
    ensures KingSquare(board, colour).Some? && File(KingSquare(board, colour).value) in {0, 7} ==>
      KingSafety(board, colour) <= 4
  {
    match KingSquare(board, colour)
    case None =>
    case Some(k) =>
      var rs := ShieldRanks(colour);
      ZoneOfTwoRanks(File(k), rs[0], rs[1]);
      FilesAroundCount(File(k));
  }

  // ---------------------------------------------------------------------
  // The colour mirror

  /** The square on the same file, seen from the other side. */
  function MirrorSquare(sq: int): int
  {
    Square(sq % 8, 7 - sq / 8)
  }

  /** The board flipped top to bottom with every colour swapped. */
  function Mirror(board: Board): (r: Board)
    requires IsBoard(board)
    ensures IsBoard(r)
  {
    seq(64, i requires 0 <= i < 64 =>
      var p := board[MirrorSquare(i)];
      if p.None? then None else Some(Piece(p.value.kind, Opposite(p.value.colour))))
  }

  lemma SquareParts(file: int, rank: int)
    requires 0 <= file < 8
    ensures Square(file, rank) / 8 == rank && Square(file, rank) % 8 == file
  {
  }

  lemma MirrorSquareBounds(sq: int)
    requires 0 <= sq < 64
    ensures 0 <= MirrorSquare(sq) < 64
    ensures MirrorSquare(MirrorSquare(sq)) == sq
    ensures File(MirrorSquare(sq)) == File(sq)
  {
    var r, f := sq / 8, sq % 8;
    assert sq == Square(f, r);
    SquareParts(f, 7 - r);
    SquareParts(f, r);
  }

  /** At most one king of the colour stands on the board. */
  predicate OneKingAtMost(board: Board, colour: Colour)
    requires IsBoard(board)
  {
    forall i, j :: 0 <= i < j < 64 && IsKing(board, i, colour) ==> !IsKing(board, j, colour)
  }

  /** A square of the mirror holds a king of a colour exactly when its
      mirrored square holds a king of the other colour. */
  lemma MirrorIsKing(board: Board, colour: Colour, i: nat)
    requires IsBoard(board) && i < 64
    ensures 0 <= MirrorSquare(i) < 64
    ensures IsKing(Mirror(board), i, colour) <==> IsKing(board, MirrorSquare(i), Opposite(colour))
  {
    MirrorSquareBounds(i);
    var p := board[MirrorSquare(i)];
    assert Mirror(board)[i] == if p.None? then None else Some(Piece(p.value.kind, Opposite(p.value.colour)));
    assert Opposite(Opposite(colour)) == colour;
    if p.Some? {
      assert Opposite(p.value.colour) == colour <==> p.value.colour == Opposite(colour);
    }
  }

  /** The mirror's king of a colour is the mirrored king of the other. */
  lemma MirrorKing(board: Board, colour: Colour)
    requires IsBoard(board) && OneKingAtMost(board, Opposite(colour))
    ensures KingSquare(board, Opposite(colour)).None? ==> KingSquare(Mirror(board), colour).None?
    ensures KingSquare(board, Opposite(colour)).Some? ==>
      KingSquare(Mirror(board), colour) == Some(MirrorSquare(KingSquare(board, Opposite(colour)).value) as nat)
  {
    var m := Mirror(board);
    var o := Opposite(colour);
    match KingSquare(board, o)
    case None =>
      forall j | 0 <= j < 64 ensures !IsKing(m, j, colour) {
        MirrorIsKing(board, colour, j);
      }
      NoKingBelow(m, colour, 64);
    case Some(k) =>
      MirrorSquareBounds(k);
      var mk := MirrorSquare(k);
      MirrorIsKing(board, colour, mk);
      forall j | mk < j < 64 ensures !IsKing(m, j, colour) {
        MirrorIsKing(board, colour, j);
        MirrorSquareBounds(j);
        assert MirrorSquare(j) != k;
      }
      HighestKing(m, colour, 64, mk);
  }

  lemma {:induction false} NoKingBelow(board: Board, colour: Colour, n: nat)
    requires n <= |board|
    requires forall j :: 0 <= j < n ==> !IsKing(board, j, colour)
    ensures KingBelow(board, colour, n).None?
    decreases n
  {
    if n > 0 {
      NoKingBelow(board, colour, n - 1);
    }
  }

  lemma {:induction false} HighestKing(board: Board, colour: Colour, n: nat, k: nat)
    requires k < n <= |board| && IsKing(board, k, colour)
    requires forall j :: k < j < n ==> !IsKing(board, j, colour)
    ensures KingBelow(board, colour, n) == Some(k)
    decreases n
  {
    if n - 1 != k {
      HighestKing(board, colour, n - 1, k);
    }
  }

  /** Mirrored squares of a row are the row on the mirrored rank. */
  lemma MirrorRow(files: seq<int>, rank: int)
    requires 0 <= rank <= 7
    requires forall i :: 0 <= i < |files| ==> 0 <= files[i] <= 7
    ensures forall i :: 0 <= i < |files| ==>
      RankRow(7 - rank, files)[i] == MirrorSquare(RankRow(rank, files)[i])
  {
    forall i | 0 <= i < |files|
      ensures RankRow(7 - rank, files)[i] == MirrorSquare(RankRow(rank, files)[i])
    {
      var sq := Square(files[i], rank);
      assert sq / 8 == rank && sq % 8 == files[i];
    }
  }

  /** Counting own pawns on squares of the mirror is counting the other
      colour's pawns on the mirrored squares of the board. */
  lemma {:induction false} PawnsOnMirror(board: Board, zs: seq<int>, ws: seq<int>, colour: Colour)
    requires IsBoard(board)
    requires |zs| == |ws|
    requires forall i :: 0 <= i < |zs| ==> 0 <= ws[i] < 64 && zs[i] == MirrorSquare(ws[i])
    ensures PawnsOn(Mirror(board), zs, colour) == PawnsOn(board, ws, Opposite(colour))
    decreases |zs|
  {
    if zs != [] {
      PawnsOnMirror(board, zs[1..], ws[1..], colour);
      MirrorSquareBounds(ws[0]);
      var m := Mirror(board);
      assert m[zs[0]] == (var p := board[ws[0]]; if p.None? then None else Some(Piece(p.value.kind, Opposite(p.value.colour))));
      assert Opposite(Opposite(colour)) == colour;
    }
  }

  /** The shield of the mirror's king is the mirrored shield of the other
      colour's king. */
  lemma MirrorZone(k: nat, colour: Colour)
    requires k < 64
    ensures var zs := ShieldZone(MirrorSquare(k) as nat, colour);
      var ws := ShieldZone(k, Opposite(colour));
      && |zs| == |ws|
      && forall i :: 0 <= i < |zs| ==> 0 <= ws[i] < 64 && zs[i] == MirrorSquare(ws[i])
  {
    MirrorSquareBounds(k);
    var f := File(k);
    var fs := FilesAround(f);
    var r1, r2 := ShieldRanks(colour)[0], ShieldRanks(colour)[1];
    var o1, o2 := ShieldRanks(Opposite(colour))[0], ShieldRanks(Opposite(colour))[1];
    assert o1 == 7 - r1 && o2 == 7 - r2;
    ZoneOfTwoRanks(f, r1, r2);
    ZoneOfTwoRanks(f, o1, o2);
    MirrorRow(fs, o1);
    MirrorRow(fs, o2);
    var zs := ShieldZone(MirrorSquare(k) as nat, colour);
    var ws := ShieldZone(k, Opposite(colour));
    assert zs == RankRow(r1, fs) + RankRow(r2, fs);
    assert ws == RankRow(o1, fs) + RankRow(o2, fs);
    forall i | 0 <= i < |zs|
      ensures 0 <= ws[i] < 64 && zs[i] == MirrorSquare(ws[i])
    {
      if i < |fs| {
        assert zs[i] == RankRow(r1, fs)[i] && ws[i] == RankRow(o1, fs)[i];
      } else {
        assert zs[i] == RankRow(r2, fs)[i - |fs|] && ws[i] == RankRow(o2, fs)[i - |fs|];
      }
    }
  }

  /** The shield of a colour on the mirror is the other colour's shield on
      the board. */
  lemma MirrorKingSafety(board: Board, colour: Colour)
    requires IsBoard(board) && OneKingAtMost(board, Opposite(colour))
    ensures KingSafety(Mirror(board), colour) == KingSafety(board, Opposite(colour))
  {
    MirrorKing(board, colour);
    match KingSquare(board, Opposite(colour))
    case None =>
    case Some(k) =>
      MirrorZone(k, colour);
      PawnsOnMirror(board, ShieldZone(MirrorSquare(k) as nat, colour), ShieldZone(k, Opposite(colour)), colour);
  }

  /** With at most one king per colour, mirroring the board negates the
      king-safety feature. */
  lemma KingSafetyAntisymmetric(board: Board)
    requires IsBoard(board) && OneKingAtMost(board, White) && OneKingAtMost(board, Black)
    ensures KingSafetyScore(Mirror(board)) == -KingSafetyScore(board)
  {
    MirrorKingSafety(board, White);
    MirrorKingSafety(board, Black);
  }

  // ---------------------------------------------------------------------
  // The feature record

  /** The material and king-safety entries of the feature dict. */
  datatype PositionFeatures = PositionFeatures(material: int, kingSafety: int)

  /** The material and king-safety part of `extract_features_from_fen`. */
  method ExtractFeatures(board: Board) returns (f: PositionFeatures)
    requires IsBoard(board)
    ensures f.material == MaterialBySquares(board)
    ensures f.kingSafety == KingSafetyScore(board)
    ensures -6 <= f.kingSafety <= 6
  {
    var material := Material(board);
    KingSafetyBounds(board, White);
    KingSafetyBounds(board, Black);
    var kingSafetyWhite: int := KingSafety(board, White);
    var kingSafetyBlack: int := KingSafety(board, Black);
    f := PositionFeatures(material, kingSafetyWhite - kingSafetyBlack);
  }
}
