/** How many moves each generator produces for a piece alone on the board. Rays of
    different directions, and targets of different offsets, never share a move, so a
    generator's count is the sum of its directions' or offsets' contributions; on an
    otherwise empty board a ray runs to the edge. */
module MoveCounts {
  import opened Wrappers
  import opened ChessTypes
  import opened ChessBoard
  import opened PieceMoveCalculator
  import opened BaseCalculators

  /** A board holding `p` on `o` and nothing else. */
  function Lone(o: Position, p: Piece): (b: Board)
    requires OnBoard(o)
    ensures b.Valid()
    ensures forall t | OnBoard(t) :: GetPiece(b, t) == if t == o then Some(p) else None
  {
    AddPiece(NewBoard(), o, Some(p))
  }

  /** Every real square except the origin is empty. */
  ghost predicate AloneOn(b: Board, o: Position)
  {
    forall t | OnBoard(t) && t != o :: GetPiece(b, t).None?
  }

  /** The number of squares a walk along `d` visits from `step` on before leaving the
      board. */
  function Room(o: Position, d: Offset, step: int): nat
    requires OnBoard(o) && IsUnit(d) && 1 <= step <= 8
    decreases 8 - step
  {
    if !OnBoard(Along(o, d, step)) then 0
    else
      AlongLeavesBoard(o, d, step);
      1 + Room(o, d, step + 1)
  }

  /** Squares left before the edge for one coordinate moving by `u`; a fixed coordinate
      never limits the walk, and 7 is as far as any walk can go. */
  function Edge(x: int, u: int): int
  {
    if u > 0 then 8 - x else if u < 0 then x - 1 else 7
  }

  /** The length of the walk: the nearer of the two edges it heads for. */
  function Reach(o: Position, d: Offset): int
  {
    var a := Edge(o.row, d.dRow);
    var c := Edge(o.col, d.dCol);
    if a < c then a else c
  }

  /** The square `k` steps out is on the board exactly for `k` up to the reach. */
  lemma AlongOnBoard(o: Position, d: Offset, k: int)
    requires OnBoard(o) && IsUnit(d) && 1 <= k
    ensures OnBoard(Along(o, d, k)) <==> k <= Reach(o, d)
  {
  }

  /** The walk from `step` visits each step from `step` to the reach. */
  lemma {:induction false} RoomClosedForm(o: Position, d: Offset, step: int)
    requires OnBoard(o) && IsUnit(d) && 1 <= step <= 8
    ensures Room(o, d, step) == if step <= Reach(o, d) then Reach(o, d) - step + 1 else 0
    decreases 8 - step
  {
    AlongOnBoard(o, d, step);
    if OnBoard(Along(o, d, step)) {
      AlongLeavesBoard(o, d, step);
      RoomClosedForm(o, d, step + 1);
      assert Room(o, d, step) == 1 + Room(o, d, step + 1);
    } else {
      assert Room(o, d, step) == 0;
    }
  }

  /** An empty square on the board continues the walk: its move joins the rest of the ray,
      which lies strictly further out. */
  lemma RayThroughEmpty(b: Board, o: Position, d: Offset, step: int)
    requires OnBoard(o) && IsUnit(d) && 1 <= step <= 8
    requires OnBoard(Along(o, d, step)) && GetPiece(b, Along(o, d, step)).None?
    ensures step < 8
    ensures Ray(b, o, d, step) == {Move(o, Along(o, d, step), None)} + Ray(b, o, d, step + 1)
    ensures Move(o, Along(o, d, step), None) !in Ray(b, o, d, step + 1)
  {
    AlongLeavesBoard(o, d, step);
    ChebyshevAlong(o, d, step);
    var head := Move(o, Along(o, d, step), None);
    if head in Ray(b, o, d, step + 1) {
      RayShape(b, o, d, step + 1, head);
    }
  }

  /** Adding a move not yet present grows a set by one. */
  lemma AddFresh(m: Move, rest: set<Move>)
    requires m !in rest
    ensures |{m} + rest| == |rest| + 1
  {
  }

  /** With nothing in the way, a ray holds one move per square up to the edge. */
  lemma {:induction false} RayOnEmptyBoard(b: Board, o: Position, d: Offset, step: int)
    requires OnBoard(o) && IsUnit(d) && 1 <= step <= 8 && AloneOn(b, o)
    ensures |Ray(b, o, d, step)| == Room(o, d, step)
    decreases 8 - step
  {
    var t := Along(o, d, step);
    if OnBoard(t) {
      ChebyshevAlong(o, d, step);
      assert t != o;
      RayThroughEmpty(b, o, d, step);
      RayOnEmptyBoard(b, o, d, step + 1);
      AddFresh(Move(o, t, None), Ray(b, o, d, step + 1));
      assert |Ray(b, o, d, step)| == |Ray(b, o, d, step + 1)| + 1;
      assert Room(o, d, step) == Room(o, d, step + 1) + 1;
    } else {
      assert Ray(b, o, d, step) == {} && Room(o, d, step) == 0;
    }
  }

  /** The sum of the sizes of a sequence of sets. */
  function Total(sets: seq<set<Move>>): nat
    decreases |sets|
  {
    if |sets| == 0 then 0 else Total(sets[..|sets| - 1]) + |sets[|sets| - 1]|
  }

  /** No two sets of the sequence share an element. */
  predicate PairwiseDisjoint(sets: seq<set<Move>>)
  {
    forall i, j | 0 <= i < j < |sets| :: sets[i] !! sets[j]
  }

  /** A union of pairwise disjoint sets is as large as their sizes added up. */
  lemma {:induction false} UnionAllDisjointSize(sets: seq<set<Move>>)
    requires PairwiseDisjoint(sets)
    ensures |UnionAll(sets)| == Total(sets)
    decreases |sets|
  {
    if |sets| > 0 {
      var n := |sets| - 1;
      var rest := sets[..n];
      assert PairwiseDisjoint(rest) by {
        forall i, j | 0 <= i < j < |rest| ensures rest[i] !! rest[j] {
          assert rest[i] == sets[i] && rest[j] == sets[j];
        }
      }
      UnionAllDisjointSize(rest);
      assert forall i | 0 <= i < |rest| :: rest[i] == sets[i];
      forall m | m in sets[n] ensures m !in UnionAll(rest) {
        UnionAllMembers(rest, m);
      }
      assert UnionAll(rest) !! sets[n];
    }
  }

  /** No two entries of a table are the same offset. */
  predicate Distinct(offs: seq<Offset>)
  {
    forall i, j | 0 <= i < j < |offs| :: offs[i] != offs[j]
  }

  /** Rays of different directions never share a move. */
  lemma RaysDisjoint(b: Board, o: Position, dirs: seq<Offset>)
    requires OnBoard(o) && AllUnit(dirs) && Distinct(dirs)
    ensures PairwiseDisjoint(Rays(b, o, dirs))
  {
    var rs := Rays(b, o, dirs);
    forall i, j | 0 <= i < j < |rs| ensures rs[i] !! rs[j] {
      forall m | m in rs[i] ensures m !in rs[j] {
        RayShape(b, o, dirs[i], 1, m);
        if m in rs[j] {
          RayShape(b, o, dirs[j], 1, m);
          AlongInjective(o, dirs[i], dirs[j], Chebyshev(o, m.endPosition));
        }
      }
    }
  }

  /** The summed reach of the first `n` directions of a table. */
  function RoomSum(o: Position, dirs: seq<Offset>, n: nat): nat
    requires OnBoard(o) && AllUnit(dirs) && n <= |dirs|
  {
    if n == 0 then 0 else RoomSum(o, dirs, n - 1) + Room(o, dirs[n - 1], 1)
  }

  /** The rays of the first `n` directions hold as many moves as their summed reach. */
  lemma {:induction false} RaysTotal(b: Board, o: Position, dirs: seq<Offset>, n: nat)
    requires OnBoard(o) && AllUnit(dirs) && AloneOn(b, o) && n <= |dirs|
    ensures Total(Rays(b, o, dirs[..n])) == RoomSum(o, dirs, n)
  {
    if n > 0 {
      var rs := Rays(b, o, dirs[..n]);
      assert rs[..n - 1] == Rays(b, o, dirs[..n - 1]) by {
        assert dirs[..n][..n - 1] == dirs[..n - 1];
      }
      assert rs[n - 1] == Ray(b, o, dirs[n - 1], 1);
      RaysTotal(b, o, dirs, n - 1);
      RayOnEmptyBoard(b, o, dirs[n - 1], 1);
    }
  }

  /** A slider alone on the board has one move for each square up to the edge in each of
      its directions. */
  lemma SlideCountAlone(b: Board, o: Position, dirs: seq<Offset>)
    requires OnBoard(o) && AllUnit(dirs) && Distinct(dirs) && AloneOn(b, o)
    ensures |SlideMoves(b, o, dirs)| == RoomSum(o, dirs, |dirs|)
  {
    RaysDisjoint(b, o, dirs);
    UnionAllDisjointSize(Rays(b, o, dirs));
    RaysTotal(b, o, dirs, |dirs|);
    assert dirs[..|dirs|] == dirs;
  }

  /** The reach of each direction of a four-direction table, added up. */
  lemma RoomSumOfFour(o: Position, dirs: seq<Offset>)
    requires OnBoard(o) && AllUnit(dirs) && |dirs| == 4
    ensures RoomSum(o, dirs, 4)
            == Room(o, dirs[0], 1) + Room(o, dirs[1], 1) + Room(o, dirs[2], 1) + Room(o, dirs[3], 1)
  {
    assert RoomSum(o, dirs, 1) == Room(o, dirs[0], 1);
    assert RoomSum(o, dirs, 2) == RoomSum(o, dirs, 1) + Room(o, dirs[1], 1);
    assert RoomSum(o, dirs, 3) == RoomSum(o, dirs, 2) + Room(o, dirs[2], 1);
  }

  /** A walk from a real square runs for its reach. */
  lemma RoomFromOrigin(o: Position, d: Offset)
    requires OnBoard(o) && IsUnit(d)
    ensures Room(o, d, 1) == Reach(o, d)
  {
    RoomClosedForm(o, d, 1);
  }

  /** A rook alone on the board has 14 moves wherever it stands: the squares of its row
      and of its column other than its own. */
  lemma RookAloneCount(o: Position, p: Piece)
    requires OnBoard(o)
    ensures |RookMoves(Lone(o, p), o)| == 14
  {
    var dirs := RookDirections;
    SlideCountAlone(Lone(o, p), o, dirs);
    RoomSumOfFour(o, dirs);
    RoomFromOrigin(o, dirs[0]);
    RoomFromOrigin(o, dirs[1]);
    RoomFromOrigin(o, dirs[2]);
    RoomFromOrigin(o, dirs[3]);
  }

  /** A bishop alone on (4,4) has 13 moves: 4 towards (8,8) and 3 along each other
      diagonal. */
  lemma BishopAloneCount(p: Piece)
    ensures |BishopMoves(Lone(Position(4, 4), p), Position(4, 4))| == 13
  {
    var o := Position(4, 4);
    var dirs := BishopDirections;
    SlideCountAlone(Lone(o, p), o, dirs);
    RoomSumOfFour(o, dirs);
    RoomFromOrigin(o, dirs[0]);
    RoomFromOrigin(o, dirs[1]);
    RoomFromOrigin(o, dirs[2]);
    RoomFromOrigin(o, dirs[3]);
  }

  /** The reach of each direction of an eight-direction table, added up. */
  lemma RoomSumOfEight(o: Position, dirs: seq<Offset>)
    requires OnBoard(o) && AllUnit(dirs) && |dirs| == 8
    ensures RoomSum(o, dirs, 8)
            == Room(o, dirs[0], 1) + Room(o, dirs[1], 1) + Room(o, dirs[2], 1) + Room(o, dirs[3], 1)
               + Room(o, dirs[4], 1) + Room(o, dirs[5], 1) + Room(o, dirs[6], 1) + Room(o, dirs[7], 1)
  {
    RoomSumOfFour(o, dirs[..4]);
    assert RoomSum(o, dirs, 4) == RoomSum(o, dirs[..4], 4) by {
      assert RoomSum(o, dirs, 1) == RoomSum(o, dirs[..4], 1);
      assert RoomSum(o, dirs, 2) == RoomSum(o, dirs[..4], 2);
      assert RoomSum(o, dirs, 3) == RoomSum(o, dirs[..4], 3);
    }
    assert RoomSum(o, dirs, 5) == RoomSum(o, dirs, 4) + Room(o, dirs[4], 1);
    assert RoomSum(o, dirs, 6) == RoomSum(o, dirs, 5) + Room(o, dirs[5], 1);
    assert RoomSum(o, dirs, 7) == RoomSum(o, dirs, 6) + Room(o, dirs[6], 1);
  }

  /** A queen alone on (4,4) has 27 moves: the rook's 14 and the bishop's 13. */
  lemma QueenAloneCount(p: Piece)
    ensures |QueenMoves(Lone(Position(4, 4), p), Position(4, 4))| == 27
  {
    var o := Position(4, 4);
    var dirs := QueenDirections;
    QueenTable();
    SlideCountAlone(Lone(o, p), o, dirs);
    RoomSumOfEight(o, dirs);
    RoomFromOrigin(o, dirs[0]);
    RoomFromOrigin(o, dirs[1]);
    RoomFromOrigin(o, dirs[2]);
    RoomFromOrigin(o, dirs[3]);
    RoomFromOrigin(o, dirs[4]);
    RoomFromOrigin(o, dirs[5]);
    RoomFromOrigin(o, dirs[6]);
    RoomFromOrigin(o, dirs[7]);
    QueenReach();
  }

  /** The queen's table lists eight unit directions, none twice. */
  lemma QueenTable()
    ensures |QueenDirections| == 8 && AllUnit(QueenDirections) && Distinct(QueenDirections)
  {
  }

  /** From (4,4) the eight directions reach 4 squares towards row 8 or column 8 and 3
      towards row 1 or column 1, the nearer edge deciding each diagonal. */
  lemma QueenReach()
    ensures var o := Position(4, 4);
            var dirs := QueenDirections;
            Reach(o, dirs[0]) + Reach(o, dirs[1]) + Reach(o, dirs[2]) + Reach(o, dirs[3])
            + Reach(o, dirs[4]) + Reach(o, dirs[5]) + Reach(o, dirs[6]) + Reach(o, dirs[7]) == 27
  {
  }

  /** Whether the offset's target is on the board, as a count. */
  function Hit(o: Position, d: Offset): nat
  {
    if OnBoard(Jump(o, d)) then 1 else 0
  }

  /** The number of the first `n` offsets of a table whose targets are on the board. */
  function HitSum(o: Position, offs: seq<Offset>, n: nat): nat
    requires n <= |offs|
  {
    if n == 0 then 0 else HitSum(o, offs, n - 1) + Hit(o, offs[n - 1])
  }

  /** Targets of different offsets never share a move. */
  lemma JumpsDisjoint(b: Board, o: Position, offs: seq<Offset>)
    requires OnBoard(o) && Distinct(offs)
    ensures PairwiseDisjoint(Jumps(b, o, offs))
  {
  }

  /** Alone on the board, every on-board target of a non-zero offset is a move. */
  lemma {:induction false} JumpsTotal(b: Board, o: Position, offs: seq<Offset>, n: nat)
    requires OnBoard(o) && AloneOn(b, o) && n <= |offs|
    requires forall i | 0 <= i < |offs| :: offs[i] != Offset(0, 0)
    ensures Total(Jumps(b, o, offs[..n])) == HitSum(o, offs, n)
  {
    if n > 0 {
      assert Jumps(b, o, offs[..n])[..n - 1] == Jumps(b, o, offs[..n - 1]);
      JumpsTotal(b, o, offs, n - 1);
      var t := Jump(o, offs[n - 1]);
      if OnBoard(t) {
        assert t != o;
        assert GetPiece(b, t).None?;
      }
    }
  }

  /** A jumper alone on the board has one move per offset that lands on the board. */
  lemma JumpCountAlone(b: Board, o: Position, offs: seq<Offset>)
    requires OnBoard(o) && Distinct(offs) && AloneOn(b, o)
    requires forall i | 0 <= i < |offs| :: offs[i] != Offset(0, 0)
    ensures |JumpMoves(b, o, offs)| == HitSum(o, offs, |offs|)
  {
    JumpsDisjoint(b, o, offs);
    UnionAllDisjointSize(Jumps(b, o, offs));
    JumpsTotal(b, o, offs, |offs|);
    assert offs[..|offs|] == offs;
  }

  /** A king alone in the corner (1,1) has 3 moves. */
  lemma KingAloneCount(p: Piece)
    ensures |KingMoves(Lone(Position(1, 1), p), Position(1, 1))| == 3
  {
    var o := Position(1, 1);
    JumpCountAlone(Lone(o, p), o, KingOffsets);
  }

  /** A knight alone in the corner (1,1) has 2 moves. */
  lemma KnightAloneCount(p: Piece)
    ensures |KnightMoves(Lone(Position(1, 1), p), Position(1, 1))| == 2
  {
    var o := Position(1, 1);
    JumpCountAlone(Lone(o, p), o, KnightOffsets);
  }
}
