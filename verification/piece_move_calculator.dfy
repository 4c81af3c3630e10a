/** The shared move-generation rules, stated once as pure functions. Every revision of
    the calculators is proved to compute these sets.

    A sliding piece walks each of its directions one square at a time: it stops at the
    first off-board square, emits every empty square and keeps walking, and at the first
    occupied square emits it only when its colour differs from the origin's and stops
    either way. A jumping piece tries each offset once and emits the target when it is
    on the board and empty or held by the other colour. Neither looks at king safety. */
module PieceMoveCalculator {
  import opened Wrappers
  import opened ChessTypes
  import opened ChessBoard

  /** A direction or jump as the source's tables store it: column change first. */
  datatype Offset = Offset(dCol: int, dRow: int)

  /** A sliding direction: each component is -1, 0 or 1, not both 0. */
  predicate IsUnit(d: Offset)
  {
    -1 <= d.dCol <= 1 && -1 <= d.dRow <= 1 && (d.dCol != 0 || d.dRow != 0)
  }

  predicate AllUnit(dirs: seq<Offset>)
  {
    forall i | 0 <= i < |dirs| :: IsUnit(dirs[i])
  }

  /** `u * k` for a direction component `u` in -1..1. */
  function Scaled(u: int, k: int): int
  {
    if u == 0 then 0 else if u > 0 then k else -k
  }

  /** The square `k` steps from `o` along `d`. */
  function Along(o: Position, d: Offset, k: int): Position
  {
    Position(o.row + Scaled(d.dRow, k), o.col + Scaled(d.dCol, k))
  }

  /** The square one jump from `o`. */
  function Jump(o: Position, d: Offset): Position
  {
    Position(o.row + d.dRow, o.col + d.dCol)
  }

  function Abs(x: int): nat
  {
    if x < 0 then -x else x
  }

  /** King-step distance between two squares. */
  function Chebyshev(a: Position, b: Position): nat
  {
    var dr := Abs(b.row - a.row);
    var dc := Abs(b.col - a.col);
    if dr < dc then dc else dr
  }

  /** A mover on `o` may end on `t`: `t` is empty or holds a colour other than `o`'s. */
  predicate Enterable(b: Board, o: Position, t: Position)
    requires OnBoard(o) && OnBoard(t)
  {
    GetPiece(b, t).None? || ColorOnSquare(b, t) != ColorOnSquare(b, o)
  }

  lemma ScaledIsProduct(u: int, k: int)
    requires -1 <= u <= 1
    ensures Scaled(u, k) == u * k
  {
  }

  /** `Along` is the source's `o + d * k` on each coordinate. */
  lemma AlongProduct(o: Position, d: Offset, k: int)
    requires IsUnit(d)
    ensures Along(o, d, k) == Position(o.row + d.dRow * k, o.col + d.dCol * k)
  {
    ScaledIsProduct(d.dRow, k);
    ScaledIsProduct(d.dCol, k);
  }

  /** Walking `k` steps along a unit direction covers king-step distance `k`. */
  lemma ChebyshevAlong(o: Position, d: Offset, k: int)
    requires IsUnit(d) && 0 <= k
    ensures Chebyshev(o, Along(o, d, k)) == k
  {
  }

  /** A unit direction leaves the board after at most 7 steps from a real square. */
  lemma AlongLeavesBoard(o: Position, d: Offset, k: int)
    requires OnBoard(o) && IsUnit(d) && OnBoard(Along(o, d, k)) && 0 <= k
    ensures k <= 7
  {
  }

  /** Two walks that reach the same square after the same positive number of steps
      walked the same direction. */
  lemma AlongInjective(o: Position, d1: Offset, d2: Offset, k: int)
    requires IsUnit(d1) && IsUnit(d2) && 1 <= k
    requires Along(o, d1, k) == Along(o, d2, k)
    ensures d1 == d2
  {
  }

  /** The moves one direction contributes, starting `step` squares out. */
  function Ray(b: Board, o: Position, d: Offset, step: int): (r: set<Move>)
    requires OnBoard(o) && IsUnit(d) && 1 <= step <= 8
    decreases 8 - step
  {
    var t := Along(o, d, step);
    if !OnBoard(t) then {}
    else if GetPiece(b, t).None? then
      AlongLeavesBoard(o, d, step);
      {Move(o, t, None)} + Ray(b, o, d, step + 1)
    else if ColorOnSquare(b, t) != ColorOnSquare(b, o) then {Move(o, t, None)}
    else {}
  }

  /** One step of a walk: off the board it ends, an empty square is emitted and the walk
      goes on, and an occupied square ends it, emitted only when its colour differs. */
  lemma RayStep(b: Board, o: Position, d: Offset, step: int)
    requires OnBoard(o) && IsUnit(d) && 1 <= step <= 8
    ensures var t := Along(o, d, step);
            && (!OnBoard(t) ==> Ray(b, o, d, step) == {})
            && (OnBoard(t) && GetPiece(b, t).None? ==>
                  step <= 7 && Ray(b, o, d, step) == {Move(o, t, None)} + Ray(b, o, d, step + 1))
            && (OnBoard(t) && GetPiece(b, t).Some? ==>
                  Ray(b, o, d, step) ==
                    if ColorOnSquare(b, t) != ColorOnSquare(b, o) then {Move(o, t, None)} else {})
  {
    if OnBoard(Along(o, d, step)) {
      AlongLeavesBoard(o, d, step);
    }
  }

  /** The union of a sequence of sets. */
  function UnionAll(sets: seq<set<Move>>): (r: set<Move>)
    decreases |sets|
  {
    if |sets| == 0 then {} else UnionAll(sets[..|sets| - 1]) + sets[|sets| - 1]
  }

  lemma {:induction false} UnionAllMembers(sets: seq<set<Move>>, m: Move)
    ensures m in UnionAll(sets) <==> exists i :: 0 <= i < |sets| && m in sets[i]
    decreases |sets|
  {
    if |sets| > 0 {
      var n := |sets| - 1;
      var rest := sets[..n];
      UnionAllMembers(rest, m);
      if m in UnionAll(sets) && m !in sets[n] {
        var i :| 0 <= i < |rest| && m in rest[i];
        assert rest[i] == sets[i];
      }
      if exists i :: 0 <= i < |sets| && m in sets[i] {
        var i :| 0 <= i < |sets| && m in sets[i];
        if i < n {
          assert rest[i] == sets[i];
        }
      }
    }
  }

  /** The ray of each direction, in table order. */
  function Rays(b: Board, o: Position, dirs: seq<Offset>): (r: seq<set<Move>>)
    requires OnBoard(o) && AllUnit(dirs)
    ensures |r| == |dirs|
    ensures forall i | 0 <= i < |dirs| :: r[i] == Ray(b, o, dirs[i], 1)
  {
    seq(|dirs|, i requires 0 <= i < |dirs| => Ray(b, o, dirs[i], 1))
  }

  /** A slider's moves: the union of the rays of all its directions. */
  function SlideMoves(b: Board, o: Position, dirs: seq<Offset>): set<Move>
    requires OnBoard(o) && AllUnit(dirs)
  {
    UnionAll(Rays(b, o, dirs))
  }

  /** A move is in the union exactly when some direction's ray holds it. */
  lemma SlideByDirection(b: Board, o: Position, dirs: seq<Offset>, m: Move)
    requires OnBoard(o) && AllUnit(dirs)
    ensures m in SlideMoves(b, o, dirs) <==> exists i :: 0 <= i < |dirs| && m in Ray(b, o, dirs[i], 1)
  {
    var rs := Rays(b, o, dirs);
    UnionAllMembers(rs, m);
    if m in UnionAll(rs) {
      var i :| 0 <= i < |rs| && m in rs[i];
      assert m in Ray(b, o, dirs[i], 1);
    }
    if exists i :: 0 <= i < |dirs| && m in Ray(b, o, dirs[i], 1) {
      var i :| 0 <= i < |dirs| && m in Ray(b, o, dirs[i], 1);
      assert m in rs[i];
    }
  }

  /** The squares strictly between the origin and step `k` are on the board and empty. */
  ghost predicate ClearBefore(b: Board, o: Position, d: Offset, k: int)
  {
    forall j | 1 <= j < k :: OnBoard(Along(o, d, j)) && GetPiece(b, Along(o, d, j)).None?
  }

  /** The walk along `d` emits the square `k` steps out. */
  ghost predicate Reaches(b: Board, o: Position, d: Offset, k: int)
    requires OnBoard(o)
  {
    && 1 <= k
    && OnBoard(Along(o, d, k))
    && ClearBefore(b, o, d, k)
    && Enterable(b, o, Along(o, d, k))
  }

  /** A walk that has collected `found` so far and meets an empty square emits it and
      goes on, without having left the board. */
  lemma RayAdvance(b: Board, o: Position, d: Offset, step: int, found: set<Move>, whole: set<Move>)
    requires OnBoard(o) && IsUnit(d) && 1 <= step <= 8
    requires whole == found + Ray(b, o, d, step)
    requires OnBoard(Along(o, d, step)) && GetPiece(b, Along(o, d, step)).None?
    ensures step <= 7
    ensures whole == found + {Move(o, Along(o, d, step), None)} + Ray(b, o, d, step + 1)
  {
    RayStep(b, o, d, step);
  }

  /** Every move of a ray ends on a square the walk reaches. */
  lemma {:induction false} RaySound(b: Board, o: Position, d: Offset, step: int, m: Move)
    requires OnBoard(o) && IsUnit(d) && 1 <= step <= 8
    requires ClearBefore(b, o, d, step)
    requires m in Ray(b, o, d, step)
    ensures Reaches(b, o, d, Chebyshev(o, m.endPosition))
    decreases 8 - step
  {
    var t := Along(o, d, step);
    ChebyshevAlong(o, d, step);
    RayStep(b, o, d, step);
    if m == Move(o, t, None) {
      assert Enterable(b, o, t);
    } else {
      assert OnBoard(t) && GetPiece(b, t).None?;
      assert ClearBefore(b, o, d, step + 1) by {
        forall j | 1 <= j < step + 1
          ensures OnBoard(Along(o, d, j)) && GetPiece(b, Along(o, d, j)).None?
        {
        }
      }
      RaySound(b, o, d, step + 1, m);
    }
  }

  /** Every move of a ray leaves `o` without promotion and ends on the walk along `d`, as
      many steps out as its king-step distance, and no nearer than `step`. */
  lemma {:induction false} RayShape(b: Board, o: Position, d: Offset, step: int, m: Move)
    requires OnBoard(o) && IsUnit(d) && 1 <= step <= 8
    requires m in Ray(b, o, d, step)
    ensures m.startPosition == o && m.promotion == None
    ensures step <= Chebyshev(o, m.endPosition)
    ensures m.endPosition == Along(o, d, Chebyshev(o, m.endPosition))
    decreases 8 - step
  {
    var t := Along(o, d, step);
    ChebyshevAlong(o, d, step);
    if GetPiece(b, t).None? && m != Move(o, t, None) {
      AlongLeavesBoard(o, d, step);
      RayShape(b, o, d, step + 1, m);
    }
  }

  /** Every square the walk reaches from `step` on is emitted. */
  lemma {:induction false} RayComplete(b: Board, o: Position, d: Offset, step: int, k: int)
    requires OnBoard(o) && IsUnit(d) && 1 <= step <= k
    requires step <= 8
    requires Reaches(b, o, d, k)
    ensures Move(o, Along(o, d, k), None) in Ray(b, o, d, step)
    decreases k - step
  {
    var t := Along(o, d, step);
    if step < k {
      assert OnBoard(t) && GetPiece(b, t).None?;
      RayAdvance(b, o, d, step, {}, Ray(b, o, d, step));
      RayComplete(b, o, d, step + 1, k);
    } else {
      RayStep(b, o, d, step);
    }
  }

  /** `m` leaves `o` without promotion and ends on a square the walk along `d` reaches. */
  ghost predicate SlideTarget(b: Board, o: Position, d: Offset, m: Move)
    requires OnBoard(o)
  {
    && m.startPosition == o && m.promotion == None
    && exists k :: 1 <= k && Reaches(b, o, d, k) && m.endPosition == Along(o, d, k)
  }

  /** A ray from the first step holds exactly the squares reached through empty squares:
      each on-board square up to and including the first occupied one, the occupied one
      only when it holds the other colour. */
  lemma RayMembers(b: Board, o: Position, d: Offset, m: Move)
    requires OnBoard(o) && IsUnit(d)
    ensures m in Ray(b, o, d, 1) <==> SlideTarget(b, o, d, m)
  {
    if m in Ray(b, o, d, 1) {
      RaySound(b, o, d, 1, m);
      RayShape(b, o, d, 1, m);
      var k := Chebyshev(o, m.endPosition);
      assert 1 <= k && Reaches(b, o, d, k) && m.endPosition == Along(o, d, k);
    }
    if m.startPosition == o && m.promotion == None
       && exists k :: 1 <= k && Reaches(b, o, d, k) && m.endPosition == Along(o, d, k)
    {
      var k :| 1 <= k && Reaches(b, o, d, k) && m.endPosition == Along(o, d, k);
      RayComplete(b, o, d, 1, k);
    }
  }

  /** The full characterisation of a slider's moves: walk some direction through empty
      squares and stop on an empty square or an enemy. */
  lemma SlideMembers(b: Board, o: Position, dirs: seq<Offset>, m: Move)
    requires OnBoard(o) && AllUnit(dirs)
    ensures m in SlideMoves(b, o, dirs) <==>
              exists i :: 0 <= i < |dirs| && SlideTarget(b, o, dirs[i], m)
  {
    SlideByDirection(b, o, dirs, m);
    forall i | 0 <= i < |dirs|
      ensures m in Ray(b, o, dirs[i], 1) <==> SlideTarget(b, o, dirs[i], m)
    {
      RayMembers(b, o, dirs[i], m);
    }
  }

  /** No square beyond the first occupied one along a direction is emitted. */
  lemma SlideStopsAtFirstPiece(b: Board, o: Position, d: Offset, j: int, k: int)
    requires OnBoard(o) && IsUnit(d) && 1 <= j < k
    requires OnBoard(Along(o, d, j)) && GetPiece(b, Along(o, d, j)).Some?
    ensures Move(o, Along(o, d, k), None) !in Ray(b, o, d, 1)
  {
    var m := Move(o, Along(o, d, k), None);
    ChebyshevAlong(o, d, k);
    if m in Ray(b, o, d, 1) {
      RaySound(b, o, d, 1, m);
      assert false;
    }
  }

  /** The move for one offset, if its target is on the board and enterable. */
  function JumpOne(b: Board, o: Position, d: Offset): (r: set<Move>)
    requires OnBoard(o)
    ensures |r| <= 1
  {
    var t := Jump(o, d);
    if OnBoard(t) && Enterable(b, o, t) then {Move(o, t, None)} else {}
  }

  /** The candidate move of each offset, in table order. */
  function Jumps(b: Board, o: Position, offs: seq<Offset>): (r: seq<set<Move>>)
    requires OnBoard(o)
    ensures |r| == |offs|
    ensures forall i | 0 <= i < |offs| :: r[i] == JumpOne(b, o, offs[i])
  {
    seq(|offs|, i requires 0 <= i < |offs| => JumpOne(b, o, offs[i]))
  }

  /** A jumping piece's moves: the union of its offsets' candidates. */
  function JumpMoves(b: Board, o: Position, offs: seq<Offset>): set<Move>
    requires OnBoard(o)
  {
    UnionAll(Jumps(b, o, offs))
  }

  /** A union of `n` sets of at most `c` elements each has at most `c * n` elements. */
  lemma {:induction false} UnionAllSize(sets: seq<set<Move>>, c: nat)
    requires forall i | 0 <= i < |sets| :: |sets[i]| <= c
    ensures |UnionAll(sets)| <= c * |sets|
    decreases |sets|
  {
    if |sets| > 0 {
      var n := |sets| - 1;
      var rest := sets[..n];
      assert forall i | 0 <= i < |rest| :: rest[i] == sets[i];
      UnionAllSize(rest, c);
      assert UnionAll(sets) == UnionAll(rest) + sets[n];
      assert |UnionAll(rest) + sets[n]| <= |UnionAll(rest)| + |sets[n]|;
      assert c * |sets| == c * n + c;
    }
  }

  /** The jumping generator: exactly the enterable on-board targets of its offsets, each
      leaving the origin without promotion, and at most one move per offset. */
  lemma JumpMembers(b: Board, o: Position, offs: seq<Offset>, m: Move)
    requires OnBoard(o)
    ensures |JumpMoves(b, o, offs)| <= |offs|
    ensures m in JumpMoves(b, o, offs) <==>
              && m.startPosition == o && m.promotion == None
              && OnBoard(m.endPosition) && Enterable(b, o, m.endPosition)
              && exists i :: 0 <= i < |offs| && Jump(o, offs[i]) == m.endPosition
  {
    var js := Jumps(b, o, offs);
    UnionAllSize(js, 1);
    UnionAllMembers(js, m);
    if m in JumpMoves(b, o, offs) {
      var i :| 0 <= i < |js| && m in js[i];
      assert Jump(o, offs[i]) == m.endPosition;
    }
    if && m.startPosition == o && m.promotion == None
       && OnBoard(m.endPosition) && Enterable(b, o, m.endPosition)
       && exists i :: 0 <= i < |offs| && Jump(o, offs[i]) == m.endPosition
    {
      var i :| 0 <= i < |offs| && Jump(o, offs[i]) == m.endPosition;
      assert m in js[i];
    }
  }

  /** A ray started `step` squares out holds at most `8 - step` moves. */
  lemma {:induction false} RaySize(b: Board, o: Position, d: Offset, step: int)
    requires OnBoard(o) && IsUnit(d) && 1 <= step <= 8
    ensures |Ray(b, o, d, step)| <= 8 - step
    decreases 8 - step
  {
    var t := Along(o, d, step);
    RayStep(b, o, d, step);
    if OnBoard(t) {
      AlongLeavesBoard(o, d, step);
      if GetPiece(b, t).None? {
        RaySize(b, o, d, step + 1);
        AddOneBound(Move(o, t, None), Ray(b, o, d, step + 1));
      }
    }
  }

  /** Adding one element grows a set by at most one. */
  lemma AddOneBound<T>(x: T, rest: set<T>)
    ensures |{x} + rest| <= |rest| + 1
  {
    if x in rest {
      assert {x} + rest == rest;
    }
  }

  /** Each direction contributes at most 7 moves. */
  lemma SlideSize(b: Board, o: Position, dirs: seq<Offset>)
    requires OnBoard(o) && AllUnit(dirs)
    ensures |SlideMoves(b, o, dirs)| <= 7 * |dirs|
  {
    var rs := Rays(b, o, dirs);
    forall i | 0 <= i < |rs| ensures |rs[i]| <= 7 {
      RaySize(b, o, dirs[i], 1);
    }
    UnionAllSize(rs, 7);
  }

  /** A slider whose directions all appear in another's table has a subset of its moves. */
  lemma SlideMonotone(b: Board, o: Position, dirs: seq<Offset>, more: seq<Offset>)
    requires OnBoard(o) && AllUnit(dirs) && AllUnit(more)
    requires forall i | 0 <= i < |dirs| :: dirs[i] in more
    ensures SlideMoves(b, o, dirs) <= SlideMoves(b, o, more)
  {
    forall m | m in SlideMoves(b, o, dirs) ensures m in SlideMoves(b, o, more) {
      SlideByDirection(b, o, dirs, m);
      SlideByDirection(b, o, more, m);
      var i :| 0 <= i < |dirs| && m in Ray(b, o, dirs[i], 1);
      var j :| 0 <= j < |more| && more[j] == dirs[i];
    }
  }

  /** Sliding along the union of two direction tables gives the union of their moves. */
  lemma SlideUnion(b: Board, o: Position, dirs: seq<Offset>, left: seq<Offset>, right: seq<Offset>)
    requires OnBoard(o) && AllUnit(dirs) && AllUnit(left) && AllUnit(right)
    requires forall d :: d in dirs <==> d in left || d in right
    ensures SlideMoves(b, o, dirs) == SlideMoves(b, o, left) + SlideMoves(b, o, right)
  {
    SlideMonotone(b, o, left, dirs);
    SlideMonotone(b, o, right, dirs);
    forall m | m in SlideMoves(b, o, dirs)
      ensures m in SlideMoves(b, o, left) + SlideMoves(b, o, right)
    {
      SlideByDirection(b, o, dirs, m);
      SlideByDirection(b, o, left, m);
      SlideByDirection(b, o, right, m);
      var i :| 0 <= i < |dirs| && m in Ray(b, o, dirs[i], 1);
      if dirs[i] in left {
        var j :| 0 <= j < |left| && left[j] == dirs[i];
      } else {
        var j :| 0 <= j < |right| && right[j] == dirs[i];
      }
    }
  }

  /** Sliding along two tables that list the same directions, in any order and with any
      repetition, gives the same moves. */
  lemma SlideSameDirections(b: Board, o: Position, dirs: seq<Offset>, other: seq<Offset>)
    requires OnBoard(o) && AllUnit(dirs) && AllUnit(other)
    requires forall d :: d in dirs <==> d in other
    ensures SlideMoves(b, o, dirs) == SlideMoves(b, o, other)
  {
    SlideMonotone(b, o, dirs, other);
    SlideMonotone(b, o, other, dirs);
  }

  /** Jumping along two tables that list the same offsets gives the same moves. */
  lemma JumpSameOffsets(b: Board, o: Position, offs: seq<Offset>, other: seq<Offset>)
    requires OnBoard(o)
    requires forall d :: d in offs <==> d in other
    ensures JumpMoves(b, o, offs) == JumpMoves(b, o, other)
  {
    forall m ensures m in JumpMoves(b, o, offs) <==> m in JumpMoves(b, o, other) {
      JumpMembers(b, o, offs, m);
      JumpMembers(b, o, other, m);
      if exists i :: 0 <= i < |offs| && Jump(o, offs[i]) == m.endPosition {
        var i :| 0 <= i < |offs| && Jump(o, offs[i]) == m.endPosition;
        assert offs[i] in offs;
        var j :| 0 <= j < |other| && other[j] == offs[i];
      }
      if exists j :: 0 <= j < |other| && Jump(o, other[j]) == m.endPosition {
        var j :| 0 <= j < |other| && Jump(o, other[j]) == m.endPosition;
        assert other[j] in other;
        var i :| 0 <= i < |offs| && offs[i] == other[j];
      }
    }
  }
}
