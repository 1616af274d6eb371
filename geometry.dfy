/** Integer geometry shared by the notation compiler and the board: square
    coordinates, decoding of direction keys, and the basis decomposition that
    characterises a crooked (zigzag) walk. */
module Geometry {
  import opened Piece

  datatype Option<T> = None | Some(value: T)

  /** The file of a square, as `square & 7` computes it; for every integer
      this is the Euclidean remainder by the rank stride. */
  function FileOf(square: int): int {
    square % FILE_NB
  }

  /** The rank of a square, as `square >> 3` computes it (floor division). */
  function RankOf(square: int): int {
    square / FILE_NB
  }

  /** direction_in_2d: dy is direction / 8 rounded to the nearest integer,
      halves going to the even neighbour as the floating-point `round` does,
      and dx is what is left over. */
  function DirectionIn2d(direction: int): (d: (int, int))
    ensures d.0 + FILE_NB * d.1 == direction
    ensures -4 <= d.0 <= 4
    ensures (d.0 == 4 || d.0 == -4) ==> d.1 % 2 == 0
  {
    var q, rem := direction / FILE_NB, direction % FILE_NB;
    var dy := if rem < 4 then q else if rem > 4 then q + 1 else if q % 2 == 0 then q else q + 1;
    (direction - dy * FILE_NB, dy)
  }

  /** The three facts in DirectionIn2d's contract pin its result down. */
  lemma DirectionIn2dUnique(direction: int, dx: int, dy: int)
    requires dx + FILE_NB * dy == direction
    requires -4 <= dx <= 4
    requires (dx == 4 || dx == -4) ==> dy % 2 == 0
    ensures DirectionIn2d(direction) == (dx, dy)
  {
    var d := DirectionIn2d(direction);
    assert FILE_NB * (d.1 - dy) == dx - d.0;
  }

  /** Decoding inverts the encoding dx + FILE_NB * dy whenever |dx| <= 3. */
  lemma DirectionIn2dInverts(dx: int, dy: int)
    requires -3 <= dx <= 3
    ensures DirectionIn2d(dx + FILE_NB * dy) == (dx, dy)
  {
    DirectionIn2dUnique(dx + FILE_NB * dy, dx, dy);
  }

  /** Each compass direction is the encoding of a unit vector and decodes to it. */
  lemma CompassDirections()
    ensures DirectionIn2d(NORTH) == (0, 1) && DirectionIn2d(EAST) == (1, 0)
    ensures DirectionIn2d(SOUTH) == (0, -1) && DirectionIn2d(WEST) == (-1, 0)
    ensures DirectionIn2d(NORTH_EAST) == (1, 1) && DirectionIn2d(SOUTH_EAST) == (1, -1)
    ensures DirectionIn2d(SOUTH_WEST) == (-1, -1) && DirectionIn2d(NORTH_WEST) == (-1, 1)
  {
    DirectionIn2dInverts(0, 1);
    DirectionIn2dInverts(1, 0);
    DirectionIn2dInverts(0, -1);
    DirectionIn2dInverts(-1, 0);
    DirectionIn2dInverts(1, 1);
    DirectionIn2dInverts(1, -1);
    DirectionIn2dInverts(-1, -1);
    DirectionIn2dInverts(-1, 1);
  }

  // ---------------------------------------------------------------------------
  // Crooked (zigzag) walks

  /** A decomposed zigzag: the base direction key, the perpendicular offset
      that alternates with it, and how many of each step the walk takes. */
  datatype Zigzag = Zigzag(base: int, perp: int, para: int, perpSteps: int) {
    function Length(): int {
      para + perpSteps
    }
  }

  /** The perpendicular offset: the base (dx, dy) turned a quarter to (-dy, dx),
      or to the mirror image (dy, -dx) when the walk needs negative progress. */
  function PerpOffset(dx: int, dy: int, mirrored: bool): int {
    if mirrored then dy - dx * FILE_NB else -dy + dx * FILE_NB
  }

  /** The decision both crooked-path routines make before walking: None for
      target == start, for a non-integral decomposition of target - start in
      the basis (base, base turned a quarter), for a walk that is not a
      genuine alternation, and for one longer than `distance`. */
  function CrookedShape(direction: int, start: int, target: int, distance: int): Option<Zigzag>
    requires target == start || direction != 0
  {
    if target == start then None
    else
      var (dx, dy) := DirectionIn2d(direction);
      var px, py := FileOf(target) - FileOf(start), RankOf(target) - RankOf(start);
      var paraNum, perpNum := px * dx + py * dy, -px * dy + py * dx;
      var det := dx * dx + dy * dy;
      if paraNum % det != 0 || perpNum % det != 0 then None
      else
        var para, perp := paraNum / det, perpNum / det;
        var perpSteps := if perp < 0 then -perp else perp;
        if para != perpSteps && para != perpSteps + 1 then None
        else if para + perpSteps > distance then None
        else Some(Zigzag(direction, PerpOffset(dx, dy, perp < 0), para, perpSteps))
  }

  /** The square reached after `j` unit moves from `start`: odd-numbered
      moves add the base, even-numbered ones the perpendicular offset. */
  function WalkSquare(z: Zigzag, start: int, j: int): int {
    start + ((j + 1) / 2) * z.base + (j / 2) * z.perp
  }

  lemma WalkStart(z: Zigzag, start: int)
    ensures WalkSquare(z, start, 0) == start
  {
  }

  lemma WalkStep(z: Zigzag, start: int, j: int)
    requires j >= 1
    ensures WalkSquare(z, start, j) == WalkSquare(z, start, j - 1) + (if j % 2 == 1 then z.base else z.perp)
  {
    var t := (j - 1) / 2;
    if j % 2 == 1 {
      assert j == 2 * t + 1;
      assert (j + 1) / 2 == t + 1 && j / 2 == t && (j - 1) / 2 == t;
    } else {
      assert j == 2 * t + 2;
      assert (j + 1) / 2 == t + 1 && j / 2 == t + 1 && (j - 1) / 2 == t;
    }
  }

  lemma MulCancel(a: int, b: int, d: int)
    requires d != 0 && a * d == b * d
    ensures a == b
  {
    assert (a - b) * d == 0;
  }

  lemma ExactQuotient(a: int, d: int)
    requires d > 0
    ensures (a * d) % d == 0 && (a * d) / d == a
  {
    var q, r := (a * d) / d, (a * d) % d;
    assert a * d == d * q + r && 0 <= r < d;
    var k := a - q;
    assert d * k == r;
    if k >= 1 {
      MulAtLeast(d, k);
    } else if k <= -1 {
      MulAtLeast(d, -k);
    }
  }

  lemma MulAtLeast(d: int, k: int)
    requires d > 0 && k >= 1
    ensures d * k >= d
  {
    assert d * k == d + d * (k - 1);
    assert d * (k - 1) >= 0;
  }

  lemma DivExact(n: int, d: int)
    requires d > 0 && n % d == 0
    ensures (n / d) * d == n
  {
  }

  lemma ScaleDifference(a: int, x: int, b: int, y: int, d: int)
    ensures (a * x - b * y) * d == (a * d) * x - (b * d) * y
  {
  }

  lemma ScaleSum(a: int, x: int, b: int, y: int, d: int)
    ensures (a * x + b * y) * d == (a * d) * x + (b * d) * y
  {
  }

  lemma FirstIdentity(dx: int, dy: int, px: int, py: int)
    ensures (px * dx + py * dy) * dx - (-px * dy + py * dx) * dy == px * (dx * dx + dy * dy)
  {
  }

  lemma SecondIdentity(dx: int, dy: int, px: int, py: int)
    ensures (px * dx + py * dy) * dy + (-px * dy + py * dx) * dx == py * (dx * dx + dy * dy)
  {
  }

  /** Solving the 2x2 system: the two exact quotients reconstruct the offset. */
  lemma Reconstruct(dx: int, dy: int, px: int, py: int, para: int, perp: int)
    requires dx * dx + dy * dy != 0
    requires para * (dx * dx + dy * dy) == px * dx + py * dy
    requires perp * (dx * dx + dy * dy) == -px * dy + py * dx
    ensures px == para * dx - perp * dy
    ensures py == para * dy + perp * dx
  {
    var d := dx * dx + dy * dy;
    ScaleDifference(para, dx, perp, dy, d);
    FirstIdentity(dx, dy, px, py);
    assert (para * dx - perp * dy) * d == px * d;
    MulCancel(para * dx - perp * dy, px, d);
    ScaleSum(para, dy, perp, dx, d);
    SecondIdentity(dx, dy, px, py);
    assert (para * dy + perp * dx) * d == py * d;
    MulCancel(para * dy + perp * dx, py, d);
  }

  /** The determinant dx^2 + dy^2 of a decoded non-zero direction is positive. */
  lemma DeterminantPositive(direction: int)
    requires direction != 0
    ensures var (dx, dy) := DirectionIn2d(direction); dx * dx + dy * dy > 0
  {
    var (dx, dy) := DirectionIn2d(direction);
    assert dx != 0 || dy != 0;
    if dx != 0 {
      assert dx * dx > 0;
    } else {
      assert dy * dy > 0;
    }
  }

  /** A walk of `para` base moves alternating with |perp| perpendicular moves
      covers para * base + perp * (base turned a quarter). */
  lemma WalkEnd(z: Zigzag, start: int, dx: int, dy: int, perp: int)
    requires z.base == dx + FILE_NB * dy
    requires z.perpSteps == (if perp < 0 then -perp else perp)
    requires z.perp == PerpOffset(dx, dy, perp < 0)
    requires z.para == z.perpSteps || z.para == z.perpSteps + 1
    ensures WalkSquare(z, start, z.Length())
      == start + (z.para * dx - perp * dy) + FILE_NB * (z.para * dy + perp * dx)
  {
    var n := z.Length();
    assert (n + 1) / 2 == z.para && n / 2 == z.perpSteps;
    assert z.perpSteps * z.perp == perp * PerpOffset(dx, dy, false) by {
      if perp < 0 {
        assert z.perpSteps * z.perp == (-perp) * (dy - dx * FILE_NB);
      }
    }
    calc {
      WalkSquare(z, start, n);
      == start + z.para * z.base + perp * PerpOffset(dx, dy, false);
      == start + z.para * (dx + FILE_NB * dy) + perp * (-dy + dx * FILE_NB);
      == start + (z.para * dx - perp * dy) + FILE_NB * (z.para * dy + perp * dx);
    }
  }

  /** What an accepted decomposition guarantees: an alternation that starts
      with the base, at most `distance` moves long and at least one move, whose
      perpendicular is the base turned a quarter, and which ends exactly on
      `target`. */
  lemma CrookedShapeSound(direction: int, start: int, target: int, distance: int)
    requires target == start || direction != 0
    requires CrookedShape(direction, start, target, distance).Some?
    ensures var z := CrookedShape(direction, start, target, distance).value;
      var (dx, dy) := DirectionIn2d(direction);
      && z.base == direction
      && (z.perp == PerpOffset(dx, dy, false) || z.perp == PerpOffset(dx, dy, true))
      && 0 <= z.perpSteps && (z.para == z.perpSteps || z.para == z.perpSteps + 1)
      && 1 <= z.Length() <= distance
      && WalkSquare(z, start, z.Length()) == target
  {
    var z := CrookedShape(direction, start, target, distance).value;
    var (dx, dy) := DirectionIn2d(direction);
    var px, py := FileOf(target) - FileOf(start), RankOf(target) - RankOf(start);
    var paraNum, perpNum := px * dx + py * dy, -px * dy + py * dx;
    var det := dx * dx + dy * dy;
    DeterminantPositive(direction);
    var para, perp := paraNum / det, perpNum / det;
    DivExact(paraNum, det);
    DivExact(perpNum, det);
    Reconstruct(dx, dy, px, py, para, perp);
    assert z.para == para && z.perp == PerpOffset(dx, dy, perp < 0);
    WalkEnd(z, start, dx, dy, perp);
    assert target == start + px + FILE_NB * py;
    assert z.Length() >= 1;
  }

  /** Conversely, every zigzag decomposition of target - start within the
      limits is found, with the perpendicular mirrored exactly when the
      perpendicular progress is negative. */
  lemma CrookedShapeComplete(direction: int, start: int, target: int, distance: int, a: int, b: int)
    requires direction != 0 && target != start
    requires FileOf(target) - FileOf(start) == a * DirectionIn2d(direction).0 - b * DirectionIn2d(direction).1
    requires RankOf(target) - RankOf(start) == a * DirectionIn2d(direction).1 + b * DirectionIn2d(direction).0
    requires var bs := if b < 0 then -b else b; (a == bs || a == bs + 1) && a + bs <= distance
    ensures var (dx, dy) := DirectionIn2d(direction);
      CrookedShape(direction, start, target, distance)
        == Some(Zigzag(direction, PerpOffset(dx, dy, b < 0), a, if b < 0 then -b else b))
  {
    var (dx, dy) := DirectionIn2d(direction);
    var px, py := FileOf(target) - FileOf(start), RankOf(target) - RankOf(start);
    var det := dx * dx + dy * dy;
    DeterminantPositive(direction);
    Numerators(a, b, dx, dy);
    var paraNum, perpNum := px * dx + py * dy, -px * dy + py * dx;
    assert paraNum == a * det && perpNum == b * det;
    ExactQuotient(a, det);
    ExactQuotient(b, det);
    assert paraNum % det == 0 && paraNum / det == a;
    assert perpNum % det == 0 && perpNum / det == b;
  }

  lemma Numerators(a: int, b: int, dx: int, dy: int)
    ensures (a * dx - b * dy) * dx + (a * dy + b * dx) * dy == a * (dx * dx + dy * dy)
    ensures -(a * dx - b * dy) * dy + (a * dy + b * dx) * dx == b * (dx * dx + dy * dy)
  {
  }
}
