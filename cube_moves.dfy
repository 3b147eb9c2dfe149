/**
 * The cube engine's moves as functions on cube values: the specification
 * that the in-place engine in CubeLogic is proved against, and the laws it obeys
 * (colour conservation, order four, inverse moves).
 */
module CubeMoves {
  import opened Wrappers
  import opened CubeState
  import Constants
  import opened Iteration

  /** A clockwise quarter turn of one face's 3x3 grid, as `rotateFaceClockwise` leaves it. */
  function RotatedCW(s: seq<char>): (r: seq<char>)
    requires |s| == 9
  {
    [s[6], s[3], s[0], s[7], s[4], s[1], s[8], s[5], s[2]]
  }

  /**
   * One clockwise quarter turn of face `x`: the turned face rotates and the
   * sticker triplets of the four neighbouring faces move round one step.
   */
  function QuarterTurn(c: Facelets, x: Face): (t: Facelets)
    requires c.WellFormed()
    ensures t.WellFormed()
  {
    match x
    case U =>
    c.(u := RotatedCW(c.u),
       f := c.r[..3] + c.f[3..], r := c.b[..3] + c.r[3..],
       b := c.l[..3] + c.b[3..], l := c.f[..3] + c.l[3..])
    case D =>
    c.(d := RotatedCW(c.d),
       f := c.f[..6] + c.l[6..], l := c.l[..6] + c.b[6..],
       b := c.b[..6] + c.r[6..], r := c.r[..6] + c.f[6..])
    case L =>
    c.(l := RotatedCW(c.l),
       u := c.u[0 := c.b[8]][3 := c.b[5]][6 := c.b[2]],
       b := c.b[8 := c.d[0]][5 := c.d[3]][2 := c.d[6]],
       d := c.d[0 := c.f[0]][3 := c.f[3]][6 := c.f[6]],
       f := c.f[0 := c.u[0]][3 := c.u[3]][6 := c.u[6]])
    case R =>
    c.(r := RotatedCW(c.r),
       u := c.u[2 := c.f[2]][5 := c.f[5]][8 := c.f[8]],
       f := c.f[2 := c.d[2]][5 := c.d[5]][8 := c.d[8]],
       d := c.d[2 := c.b[6]][5 := c.b[3]][8 := c.b[0]],
       b := c.b[6 := c.u[2]][3 := c.u[5]][0 := c.u[8]])
    case F =>
    c.(f := RotatedCW(c.f),
       u := c.u[6 := c.l[8]][7 := c.l[5]][8 := c.l[2]],
       l := c.l[8 := c.d[2]][5 := c.d[1]][2 := c.d[0]],
       d := c.d[2 := c.r[0]][1 := c.r[3]][0 := c.r[6]],
       r := c.r[0 := c.u[6]][3 := c.u[7]][6 := c.u[8]])
    case B =>
    c.(b := RotatedCW(c.b),
       u := c.u[2 := c.r[8]][1 := c.r[5]][0 := c.r[2]],
       r := c.r[8 := c.d[6]][5 := c.d[7]][2 := c.d[8]],
       d := c.d[6 := c.l[0]][7 := c.l[3]][8 := c.l[6]],
       l := c.l[0 := c.u[2]][3 := c.u[1]][6 := c.u[0]])
  }

  /** `n` clockwise quarter turns of face `x`. */
  function TurnTimes(c: Facelets, x: Face, n: nat): (t: Facelets)
    requires c.WellFormed()
    ensures t.WellFormed()
  {
    if n == 0 then c else QuarterTurn(TurnTimes(c, x, n - 1), x)
  }

  /** The face a move letter names; any other letter names none. */
  function FaceOf(ch: char): (x: Option<Face>)
  {
    match ch
    case 'U' => Some(U)
    case 'D' => Some(D)
    case 'L' => Some(L)
    case 'R' => Some(R)
    case 'F' => Some(F)
    case 'B' => Some(B)
    case _ => None
  }

  /** Clockwise quarter turns a move stands for: 3 with a prime, else 2 with a `2`, else 1. */
  function Turns(move: string): (n: nat)
  {
    if '\'' in move then 3 else if '2' in move then 2 else 1
  }

  /** The cube after `move`: unchanged for the empty move or an unknown face letter. */
  function ApplyMove(c: Facelets, move: string): (t: Facelets)
    requires c.WellFormed()
    ensures t.WellFormed()
  {
    if move == [] then c
    else match FaceOf(move[0])
    case None => c
    case Some(x) => TurnTimes(c, x, Turns(move))
  }

  /** The cube after applying `moves` in order, as a left fold. */
  function FoldMoves(c: Facelets, moves: seq<string>): (t: Facelets)
    requires c.WellFormed()
    ensures t.WellFormed()
  {
    if moves == [] then c
    else ApplyMove(FoldMoves(c, moves[..|moves| - 1]), moves[|moves| - 1])
  }

  /** Extending the applied prefix by one move applies that move to the cube so far. */
  lemma FoldMovesPrefix(c: Facelets, moves: seq<string>, i: nat)
    requires c.WellFormed() && i < |moves|
    ensures FoldMoves(c, moves[..i + 1]) == ApplyMove(FoldMoves(c, moves[..i]), moves[i])
  {
    assert moves[..i + 1][..i] == moves[..i];
  }

  // ---------------------------------------------------------------------------
  // Colour conservation, one colour at a time

  /** Writing one slot trades the old sticker for the new one. */
  lemma {:induction false} OneWrite(s: seq<char>, i: nat, x: char, v: char)
    requires i < |s|
    ensures Count(s[i := x], v) + Is(s[i], v) == Count(s, v) + Is(x, v)
  {
    if i > 0 {
    OneWrite(s[1..], i - 1, x, v);
    assert s[i := x][1..] == s[1..][i - 1 := x];
    }
  }

  /** A 4-cycle of distinct slots, written as the source's `cycle` writes it. */
  lemma FourCycle(s: seq<char>, i: nat, j: nat, k: nat, m: nat, v: char)
    requires i < |s| && j < |s| && k < |s| && m < |s|
    requires i != j && i != k && i != m && j != k && j != m && k != m
    ensures Count(s[m := s[k]][k := s[j]][j := s[i]][i := s[m]], v) == Count(s, v)
  {
    OneWrite(s, m, s[k], v);
    OneWrite(s[m := s[k]], k, s[j], v);
    OneWrite(s[m := s[k]][k := s[j]], j, s[i], v);
    OneWrite(s[m := s[k]][k := s[j]][j := s[i]], i, s[m], v);
  }

  lemma RotatedCWPermutes(s: seq<char>, v: char)
    requires |s| == 9
    ensures Count(RotatedCW(s), v) == Count(s, v)
  {
    var corners := s[6 := s[8]][8 := s[2]][2 := s[0]][0 := s[6]];
    FourCycle(s, 0, 2, 8, 6, v);
    FourCycle(corners, 1, 5, 7, 3, v);
    assert RotatedCW(s) == corners[3 := corners[7]][7 := corners[5]][5 := corners[1]][1 := corners[3]];
  }

  /** Writing three distinct slots trades the three old stickers for the three new ones. */
  lemma ThreeWrites(s: seq<char>, i: nat, j: nat, k: nat, x: char, y: char, z: char, v: char)
    requires i < |s| && j < |s| && k < |s| && i != j && j != k && i != k
    ensures Count(s[i := x][j := y][k := z], v) + Is(s[i], v) + Is(s[j], v) + Is(s[k], v)
       == Count(s, v) + Is(x, v) + Is(y, v) + Is(z, v)
  {
    OneWrite(s, i, x, v);
    OneWrite(s[i := x], j, y, v);
    OneWrite(s[i := x][j := y], k, z, v);
  }

  lemma SplitRow(s: seq<char>, k: nat, v: char)
    requires k <= |s|
    ensures Count(s, v) == Count(s[..k], v) + Count(s[k..], v)
  {
    assert s == s[..k] + s[k..];
    CountAppend(s[..k], s[k..], v);
  }

  /** A quarter turn only permutes stickers: every colour keeps its count. */
  lemma QuarterTurnConserves(c: Facelets, x: Face, v: char)
    requires c.WellFormed()
    ensures ColourCount(QuarterTurn(c, x), v) == ColourCount(c, v)
  {
    StickersBySide(c, v);
    StickersBySide(QuarterTurn(c, x), v);
    match x
    case U => TurnUConserves(c, v);
    case D => TurnDConserves(c, v);
    case L => TurnLConserves(c, v);
    case R => TurnRConserves(c, v);
    case F => TurnFConserves(c, v);
    case B => TurnBConserves(c, v);
  }

  lemma TurnUConserves(c: Facelets, v: char)
    requires c.WellFormed()
    ensures var t := QuarterTurn(c, U);
    Count(t.u, v) + Count(t.l, v) + Count(t.f, v) + Count(t.r, v) + Count(t.b, v) + Count(t.d, v)
    == Count(c.u, v) + Count(c.l, v) + Count(c.f, v) + Count(c.r, v) + Count(c.b, v) + Count(c.d, v)
  {
    RotatedCWPermutes(c.u, v);
    SplitRow(c.f, 3, v); SplitRow(c.r, 3, v); SplitRow(c.b, 3, v); SplitRow(c.l, 3, v);
    CountAppend(c.r[..3], c.f[3..], v); CountAppend(c.b[..3], c.r[3..], v);
    CountAppend(c.l[..3], c.b[3..], v); CountAppend(c.f[..3], c.l[3..], v);
  }

  lemma TurnDConserves(c: Facelets, v: char)
    requires c.WellFormed()
    ensures var t := QuarterTurn(c, D);
    Count(t.u, v) + Count(t.l, v) + Count(t.f, v) + Count(t.r, v) + Count(t.b, v) + Count(t.d, v)
    == Count(c.u, v) + Count(c.l, v) + Count(c.f, v) + Count(c.r, v) + Count(c.b, v) + Count(c.d, v)
  {
    RotatedCWPermutes(c.d, v);
    SplitRow(c.f, 6, v); SplitRow(c.r, 6, v); SplitRow(c.b, 6, v); SplitRow(c.l, 6, v);
    CountAppend(c.f[..6], c.l[6..], v); CountAppend(c.l[..6], c.b[6..], v);
    CountAppend(c.b[..6], c.r[6..], v); CountAppend(c.r[..6], c.f[6..], v);
  }

  lemma TurnLConserves(c: Facelets, v: char)
    requires c.WellFormed()
    ensures var t := QuarterTurn(c, L);
    Count(t.u, v) + Count(t.l, v) + Count(t.f, v) + Count(t.r, v) + Count(t.b, v) + Count(t.d, v)
    == Count(c.u, v) + Count(c.l, v) + Count(c.f, v) + Count(c.r, v) + Count(c.b, v) + Count(c.d, v)
  {
    RotatedCWPermutes(c.l, v);
    ThreeWrites(c.u, 0, 3, 6, c.b[8], c.b[5], c.b[2], v);
    ThreeWrites(c.b, 8, 5, 2, c.d[0], c.d[3], c.d[6], v);
    ThreeWrites(c.d, 0, 3, 6, c.f[0], c.f[3], c.f[6], v);
    ThreeWrites(c.f, 0, 3, 6, c.u[0], c.u[3], c.u[6], v);
  }

  lemma TurnRConserves(c: Facelets, v: char)
    requires c.WellFormed()
    ensures var t := QuarterTurn(c, R);
    Count(t.u, v) + Count(t.l, v) + Count(t.f, v) + Count(t.r, v) + Count(t.b, v) + Count(t.d, v)
    == Count(c.u, v) + Count(c.l, v) + Count(c.f, v) + Count(c.r, v) + Count(c.b, v) + Count(c.d, v)
  {
    RotatedCWPermutes(c.r, v);
    ThreeWrites(c.u, 2, 5, 8, c.f[2], c.f[5], c.f[8], v);
    ThreeWrites(c.f, 2, 5, 8, c.d[2], c.d[5], c.d[8], v);
    ThreeWrites(c.d, 2, 5, 8, c.b[6], c.b[3], c.b[0], v);
    ThreeWrites(c.b, 6, 3, 0, c.u[2], c.u[5], c.u[8], v);
  }

  lemma TurnFConserves(c: Facelets, v: char)
    requires c.WellFormed()
    ensures var t := QuarterTurn(c, F);
    Count(t.u, v) + Count(t.l, v) + Count(t.f, v) + Count(t.r, v) + Count(t.b, v) + Count(t.d, v)
    == Count(c.u, v) + Count(c.l, v) + Count(c.f, v) + Count(c.r, v) + Count(c.b, v) + Count(c.d, v)
  {
    RotatedCWPermutes(c.f, v);
    ThreeWrites(c.u, 6, 7, 8, c.l[8], c.l[5], c.l[2], v);
    ThreeWrites(c.l, 8, 5, 2, c.d[2], c.d[1], c.d[0], v);
    ThreeWrites(c.d, 2, 1, 0, c.r[0], c.r[3], c.r[6], v);
    ThreeWrites(c.r, 0, 3, 6, c.u[6], c.u[7], c.u[8], v);
  }

  lemma TurnBConserves(c: Facelets, v: char)
    requires c.WellFormed()
    ensures var t := QuarterTurn(c, B);
    Count(t.u, v) + Count(t.l, v) + Count(t.f, v) + Count(t.r, v) + Count(t.b, v) + Count(t.d, v)
    == Count(c.u, v) + Count(c.l, v) + Count(c.f, v) + Count(c.r, v) + Count(c.b, v) + Count(c.d, v)
  {
    RotatedCWPermutes(c.b, v);
    ThreeWrites(c.u, 2, 1, 0, c.r[8], c.r[5], c.r[2], v);
    ThreeWrites(c.r, 8, 5, 2, c.d[6], c.d[7], c.d[8], v);
    ThreeWrites(c.d, 6, 7, 8, c.l[0], c.l[3], c.l[6], v);
    ThreeWrites(c.l, 0, 3, 6, c.u[2], c.u[1], c.u[0], v);
  }

  lemma {:induction false} TurnTimesConserves(c: Facelets, x: Face, n: nat, v: char)
    requires c.WellFormed()
    ensures ColourCount(TurnTimes(c, x, n), v) == ColourCount(c, v)
  {
    if n > 0 {
      TurnTimesConserves(c, x, n - 1, v);
      QuarterTurnConserves(TurnTimes(c, x, n - 1), x, v);
    }
  }

  lemma ApplyMoveConserves(c: Facelets, move: string, v: char)
    requires c.WellFormed()
    ensures ColourCount(ApplyMove(c, move), v) == ColourCount(c, v)
  {
    if move != [] && FaceOf(move[0]).Some? {
      TurnTimesConserves(c, FaceOf(move[0]).value, Turns(move), v);
    }
  }

  /** Any sequence of moves keeps the count of every colour. */
  lemma {:induction false} FoldMovesConserves(c: Facelets, moves: seq<string>, v: char)
    requires c.WellFormed()
    ensures ColourCount(FoldMoves(c, moves), v) == ColourCount(c, v)
  {
    if moves != [] {
      var init := moves[..|moves| - 1];
      FoldMovesConserves(c, init, v);
      ApplyMoveConserves(FoldMoves(c, init), moves[|moves| - 1], v);
    }
  }

  /** Any sequence of moves permutes the 54 stickers: their multiset is unchanged. */
  lemma FoldMovesPermutes(c: Facelets, moves: seq<string>)
    requires c.WellFormed()
    ensures multiset(Stickers(FoldMoves(c, moves))) == multiset(Stickers(c))
  {
    var t := Stickers(FoldMoves(c, moves));
    var s := Stickers(c);
    forall v ensures multiset(t)[v] == multiset(s)[v] {
      FoldMovesConserves(c, moves, v);
      CountIsMultiplicity(t, v);
      CountIsMultiplicity(s, v);
    }
  }

  /** From the solved cube, every colour shows exactly nine times after any move sequence. */
  lemma ScrambledColourCounts(moves: seq<string>)
    ensures forall v :: v in Constants.Palette ==> ColourCount(FoldMoves(Constants.StdSolved, moves), v) == 9
    ensures forall v :: v !in Constants.Palette ==> ColourCount(FoldMoves(Constants.StdSolved, moves), v) == 0
  {
    Constants.StdSolvedShape();
    Constants.SolvedColourCounts();
    forall v ensures ColourCount(FoldMoves(Constants.StdSolved, moves), v) == ColourCount(Constants.StdSolved, v) {
      FoldMovesConserves(Constants.StdSolved, moves, v);
    }
  }

  // ---------------------------------------------------------------------------
  // Order four and inverse moves

  lemma QuarterTurnOrderFour(c: Facelets, x: Face)
    requires c.WellFormed()
    ensures QuarterTurn(QuarterTurn(QuarterTurn(QuarterTurn(c, x), x), x), x) == c
  {
    match x
    case U => OrderFourU(c);
    case D => OrderFourD(c);
    case L => OrderFourL(c);
    case R => OrderFourR(c);
    case F => OrderFourF(c);
    case B => OrderFourB(c);
  }

  lemma OrderFourU(c: Facelets)
    requires c.WellFormed()
    ensures QuarterTurn(QuarterTurn(QuarterTurn(QuarterTurn(c, U), U), U), U) == c
  {
  }

  lemma OrderFourD(c: Facelets)
    requires c.WellFormed()
    ensures QuarterTurn(QuarterTurn(QuarterTurn(QuarterTurn(c, D), D), D), D) == c
  {
  }

  lemma OrderFourL(c: Facelets)
    requires c.WellFormed()
    ensures QuarterTurn(QuarterTurn(QuarterTurn(QuarterTurn(c, L), L), L), L) == c
  {
  }

  lemma OrderFourR(c: Facelets)
    requires c.WellFormed()
    ensures QuarterTurn(QuarterTurn(QuarterTurn(QuarterTurn(c, R), R), R), R) == c
  {
  }

  lemma OrderFourF(c: Facelets)
    requires c.WellFormed()
    ensures QuarterTurn(QuarterTurn(QuarterTurn(QuarterTurn(c, F), F), F), F) == c
  {
  }

  lemma OrderFourB(c: Facelets)
    requires c.WellFormed()
    ensures QuarterTurn(QuarterTurn(QuarterTurn(QuarterTurn(c, B), B), B), B) == c
  {
  }

  /** Four clockwise quarter turns of the same face give back the original state. */
  lemma TurnTimesFour(c: Facelets, x: Face)
    requires c.WellFormed()
    ensures TurnTimes(c, x, 4) == c
  {
    QuarterTurnOrderFour(c, x);
    assert TurnTimes(c, x, 1) == QuarterTurn(c, x);
    assert TurnTimes(c, x, 2) == QuarterTurn(QuarterTurn(c, x), x);
  }

  /** The move letter of face `x`. */
  function Letter(x: Face): (ch: char)
    ensures FaceOf(ch) == Some(x)
  {
    match x
    case U => 'U'
    case D => 'D'
    case L => 'L'
    case R => 'R'
    case F => 'F'
    case B => 'B'
  }

  /** The turn count of each modifier: none is 1, a prime is 3, a `2` is 2. */
  lemma ModifierTurns(x: Face)
    ensures Turns([Letter(x)]) == 1
    ensures Turns([Letter(x), '\'']) == 3
    ensures Turns([Letter(x), '2']) == 2
  {
    var ch := Letter(x);
    assert '\'' !in [ch] && '2' !in [ch];
    assert '\'' in [ch, '\''];
    assert '\'' !in [ch, '2'] && '2' in [ch, '2'];
  }

  /** A single-letter move with modifier `m` is `k` quarter turns of its face. */
  lemma MoveIsTurns(c: Facelets, x: Face, move: string, k: nat)
    requires c.WellFormed()
    requires move != [] && move[0] == Letter(x) && Turns(move) == k
    ensures ApplyMove(c, move) == TurnTimes(c, x, k)
  {
  }

  /** The quarter turn of face `x` as a total step function (ill-formed states are left alone). */
  function Turner(x: Face): Facelets -> Facelets
  {
    (c: Facelets) => if c.WellFormed() then QuarterTurn(c, x) else c
  }

  /** `TurnTimes` is `n`-fold iteration of the quarter turn. */
  lemma {:induction false} TurnTimesIterates(c: Facelets, x: Face, n: nat)
    requires c.WellFormed()
    ensures TurnTimes(c, x, n) == Iterate(Turner(x), c, n)
  {
    if n > 0 {
      TurnTimesIterates(c, x, n - 1);
    }
  }

  /** Turning a face `m` times and then `n` more times is turning it `m + n` times. */
  lemma TurnTimesAdd(c: Facelets, x: Face, m: nat, n: nat)
    requires c.WellFormed()
    ensures TurnTimes(TurnTimes(c, x, m), x, n) == TurnTimes(c, x, m + n)
  {
    TurnTimesIterates(c, x, m);
    TurnTimesIterates(TurnTimes(c, x, m), x, n);
    TurnTimesIterates(c, x, m + n);
    IterateAdd(Turner(x), c, m, n);
  }

  /** Turning a face `m` times and then `n` more times, with `m + n == 4`, is the identity. */
  lemma FullTurn(c: Facelets, x: Face, m: nat, n: nat)
    requires c.WellFormed() && m + n == 4
    ensures TurnTimes(TurnTimes(c, x, m), x, n) == c
  {
    TurnTimesAdd(c, x, m, n);
    TurnTimesFour(c, x);
  }

  /** `X` then `X'` and `X'` then `X` are the identity, and `X2` is its own inverse. */
  lemma InverseMoves(c: Facelets, x: Face)
    requires c.WellFormed()
    ensures ApplyMove(ApplyMove(c, [Letter(x)]), [Letter(x), '\'']) == c
    ensures ApplyMove(ApplyMove(c, [Letter(x), '\'']), [Letter(x)]) == c
    ensures ApplyMove(ApplyMove(c, [Letter(x), '2']), [Letter(x), '2']) == c
  {
    ModifierTurns(x);
    var q, p, h := [Letter(x)], [Letter(x), '\''], [Letter(x), '2'];
    MoveIsTurns(c, x, q, 1);
    MoveIsTurns(c, x, p, 3);
    MoveIsTurns(c, x, h, 2);
    MoveIsTurns(TurnTimes(c, x, 1), x, p, 3);
    MoveIsTurns(TurnTimes(c, x, 3), x, q, 1);
    MoveIsTurns(TurnTimes(c, x, 2), x, h, 2);
    FullTurn(c, x, 1, 3);
    FullTurn(c, x, 3, 1);
    FullTurn(c, x, 2, 2);
  }

  /** A move whose first letter names no face leaves the cube as it was. */
  lemma UnknownFaceIsNoOp(c: Facelets, move: string)
    requires c.WellFormed()
    requires move != [] && FaceOf(move[0]) == None
    ensures ApplyMove(c, move) == c
  {
  }
}
