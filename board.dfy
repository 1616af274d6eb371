/** The board's path tests for custom pieces: whether a slide or a crooked
    (zigzag) walk from `start` reaches `target` over empty squares, and the
    squares a crooked walk passes. The position enters as two sets of
    squares: `occupied` (every piece) and `own` (the pieces of the side to
    move). */
module Board {
  import opened Piece
  import opened Geometry

  function Abs(x: int): int {
    if x < 0 then -x else x
  }

  // ---------------------------------------------------------------------------
  // Slides

  /** The square reached after `j` moves along `direction`. */
  function SlideSquare(start: int, direction: int, j: int): int {
    start + j * direction
  }

  /** Where the walk of is_slide_path stops once it has not been cut short:
      after `k` moves, or at `start` when the range of moves is empty. */
  function SlideEnd(start: int, direction: int, k: int): int {
    if k > 0 then SlideSquare(start, direction, k) else start
  }

  /** The file and rank offsets from `start` to `target`. */
  function PathX(start: int, target: int): int {
    FileOf(target) - FileOf(start)
  }

  function PathY(start: int, target: int): int {
    RankOf(target) - RankOf(start)
  }

  /** The inputs on which the divisibility tests of is_slide_path do not
      divide by zero: the file component is non-zero, and the rank component
      is too unless the short-circuit `or` already stops at a file offset that
      is not a multiple of the file component. */
  predicate SlideDefined(direction: int, start: int, target: int) {
    var (dx, dy) := DirectionIn2d(direction);
    dx != 0 && (dy != 0 || PathX(start, target) % dx != 0)
  }

  /** The number of moves along `direction` that is_slide_path derives: both
      offsets must be exact multiples of the decoded components, with the
      same quotient. */
  function SlideSteps(direction: int, start: int, target: int): Option<int>
    requires SlideDefined(direction, start, target)
  {
    var (dx, dy) := DirectionIn2d(direction);
    var px, py := PathX(start, target), PathY(start, target);
    if px % dx != 0 then None
    else if py % dy != 0 then None
    else if px / dx != py / dy then None
    else Some(px / dx)
  }

  /** The first `k` moves along `direction` pass no occupied square other
      than `target`. */
  predicate WalkClear(start: int, direction: int, k: int, target: int, occupied: set<int>) {
    forall j :: 1 <= j <= k && SlideSquare(start, direction, j) != target ==>
      SlideSquare(start, direction, j) !in occupied
  }

  /** The verdict of is_slide_path, line by line: a decomposition into `k`
      moves, the length test as written (it rejects |k| <= distance), a walk
      over empty squares and a final square not held by the side to move. */
  predicate SlidePathOpen(direction: int, start: int, target: int, distance: int, occupied: set<int>, own: set<int>)
    requires SlideDefined(direction, start, target)
  {
    match SlideSteps(direction, start, target)
    case None => false
    case Some(k) =>
      && Abs(k) > distance
      && WalkClear(start, direction, k, target, occupied)
      && SlideEnd(start, direction, k) !in own
  }

  /** The loop of the slide test: moves `k` times along `direction` and stops
      at the first occupied square other than `target`. */
  method WalkSlide(start: int, direction: int, k: int, target: int, occupied: set<int>)
    returns (clear: bool, current: int)
    ensures clear == WalkClear(start, direction, k, target, occupied)
    ensures clear ==> current == SlideEnd(start, direction, k)
  {
    current := start;
    var step := 0;
    while step < k
      invariant 0 <= step <= (if k > 0 then k else 0)
      invariant current == SlideSquare(start, direction, step)
      invariant WalkClear(start, direction, step, target, occupied)
    {
      SlideSquareNext(start, direction, step);
      current := current + direction;
      step := step + 1;
      if current != target && current in occupied {
        return false, current;
      }
    }
    clear := true;
  }

  lemma SlideSquareNext(start: int, direction: int, j: int)
    ensures SlideSquare(start, direction, j + 1) == SlideSquare(start, direction, j) + direction
  {
  }

  /** is_slide_path, on the inputs where it does not divide by zero. */
  method IsSlidePath(direction: int, start: int, target: int, distance: int, occupied: set<int>, own: set<int>)
    returns (ok: bool)
    requires SlideDefined(direction, start, target)
    ensures ok == SlidePathOpen(direction, start, target, distance, occupied, own)
  {
    var steps := SlideSteps(direction, start, target);
    if steps.None? {
      return false;
    }
    var k := steps.value;
    if Abs(k) <= distance {
      return false;
    }
    var clear, current := WalkSlide(start, direction, k, target, occupied);
    if !clear {
      return false;
    }
    ok := current !in own;
  }

  lemma ExactQuotientAny(a: int, d: int)
    requires d != 0
    ensures (a * d) % d == 0 && (a * d) / d == a
  {
    if d > 0 {
      ExactQuotient(a, d);
    } else {
      var q, r := (a * d) / d, (a * d) % d;
      assert a * d == d * q + r && 0 <= r < -d;
      var k := a - q;
      assert d * k == r;
      if k >= 1 {
        MulAtLeast(-d, k);
      } else if k <= -1 {
        MulAtLeast(-d, -k);
      }
    }
  }

  lemma DivExactAny(n: int, d: int)
    requires d != 0 && n % d == 0
    ensures (n / d) * d == n
  {
  }

  /** The decomposition finds `k` exactly when target - start is `k` times the
      decoded direction, file by file and rank by rank. */
  lemma SlideStepsMeaning(direction: int, start: int, target: int, k: int)
    requires SlideDefined(direction, start, target)
    ensures SlideSteps(direction, start, target) == Some(k) <==>
      PathX(start, target) == k * DirectionIn2d(direction).0 && PathY(start, target) == k * DirectionIn2d(direction).1
  {
    var (dx, dy) := DirectionIn2d(direction);
    var px, py := PathX(start, target), PathY(start, target);
    if px == k * dx && py == k * dy {
      if dy != 0 {
        ExactQuotientAny(k, dy);
      }
      ExactQuotientAny(k, dx);
    }
    if SlideSteps(direction, start, target) == Some(k) {
      DivExactAny(px, dx);
      DivExactAny(py, dy);
    }
  }

  /** Every square is its file plus FILE_NB times its rank. */
  lemma SquareParts(square: int)
    ensures square == FileOf(square) + FILE_NB * RankOf(square)
    ensures 0 <= FileOf(square) < FILE_NB
  {
  }

  lemma SquareOf(file: int, rank: int)
    requires 0 <= file < FILE_NB
    ensures FileOf(file + FILE_NB * rank) == file && RankOf(file + FILE_NB * rank) == rank
  {
  }

  /** k moves of (dx, dy) cover target - start when the offsets are k times
      the components. */
  lemma SlideArrives(direction: int, start: int, target: int, k: int)
    requires PathX(start, target) == k * DirectionIn2d(direction).0
    requires PathY(start, target) == k * DirectionIn2d(direction).1
    ensures SlideSquare(start, direction, k) == target
  {
    var (dx, dy) := DirectionIn2d(direction);
    SquareParts(start);
    SquareParts(target);
    assert target - start == k * dx + FILE_NB * (k * dy);
    assert k * dx + FILE_NB * (k * dy) == k * (dx + FILE_NB * dy);
  }

  lemma MulBetween(j: int, k: int, d: int)
    requires 0 <= j <= k
    ensures d >= 0 ==> 0 <= j * d <= k * d
    ensures d < 0 ==> k * d <= j * d <= 0
  {
    assert k * d - j * d == (k - j) * d;
    if d >= 0 {
      assert (k - j) * d >= 0;
      assert j * d >= 0;
    } else {
      assert (k - j) * (-d) >= 0;
      assert j * (-d) >= 0;
    }
  }

  /** A coordinate that starts and ends on the board stays on it in between. */
  lemma AxisBetween(from: int, j: int, k: int, d: int)
    requires 0 <= from < FILE_NB && 0 <= from + k * d < FILE_NB
    requires 0 <= j <= k
    ensures 0 <= from + j * d < FILE_NB
  {
    MulBetween(j, k, d);
  }

  lemma Distribute(j: int, dx: int, dy: int)
    ensures j * (dx + FILE_NB * dy) == j * dx + FILE_NB * (j * dy)
  {
  }

  /** Between two squares of the board the walk never leaves the board nor
      wraps around an edge: the square after `j` of `k` moves has file and
      rank advanced by `j` times the components, and the last one is
      `target`. */
  lemma SlideOnBoard(direction: int, start: int, target: int, k: int, j: int)
    requires 0 <= start < 64 && 0 <= target < 64
    requires PathX(start, target) == k * DirectionIn2d(direction).0
    requires PathY(start, target) == k * DirectionIn2d(direction).1
    requires 0 <= j <= k
    ensures 0 <= SlideSquare(start, direction, j) < 64
    ensures FileOf(SlideSquare(start, direction, j)) == FileOf(start) + j * DirectionIn2d(direction).0
    ensures RankOf(SlideSquare(start, direction, j)) == RankOf(start) + j * DirectionIn2d(direction).1
    ensures SlideSquare(start, direction, k) == target
  {
    var (dx, dy) := DirectionIn2d(direction);
    SlideArrives(direction, start, target, k);
    SquareParts(start);
    SquareParts(target);
    AxisBetween(FileOf(start), j, k, dx);
    AxisBetween(RankOf(start), j, k, dy);
    var f, r := FileOf(start) + j * dx, RankOf(start) + j * dy;
    Distribute(j, dx, dy);
    assert SlideSquare(start, direction, j) == f + FILE_NB * r;
    SquareOf(f, r);
  }

  /** When the walk ends on `target`, no earlier move lands on it, so the
      walk test reads: every square strictly before `target` is empty. */
  lemma WalkClearBefore(start: int, direction: int, k: int, target: int, occupied: set<int>)
    requires direction != 0 && SlideSquare(start, direction, k) == target
    ensures WalkClear(start, direction, k, target, occupied) <==>
      forall j :: 1 <= j < k ==> SlideSquare(start, direction, j) !in occupied
  {
    forall j | SlideSquare(start, direction, j) == target
      ensures j == k
    {
      MulCancel(j, k, direction);
    }
  }

  /** What is_slide_path answers once target - start is `k` times the
      direction: the length test passes only for |k| > distance; a forward
      walk then needs every square before `target` empty and `target` not
      held by the side to move, while a walk of no moves (k <= 0) only tests
      `start`. */
  lemma SlideMeaning(direction: int, start: int, target: int, distance: int,
                     occupied: set<int>, own: set<int>, k: int)
    requires SlideDefined(direction, start, target)
    requires PathX(start, target) == k * DirectionIn2d(direction).0
    requires PathY(start, target) == k * DirectionIn2d(direction).1
    ensures SlidePathOpen(direction, start, target, distance, occupied, own) <==>
      && Abs(k) > distance
      && (k > 0 ==> (forall j :: 1 <= j < k ==> SlideSquare(start, direction, j) !in occupied) && target !in own)
      && (k <= 0 ==> start !in own)
  {
    SlideStepsMeaning(direction, start, target, k);
    SlideArrives(direction, start, target, k);
    WalkClearBefore(start, direction, k, target, occupied);
    assert direction == DirectionIn2d(direction).0 + FILE_NB * DirectionIn2d(direction).1;
    assert direction != 0;
  }

  /** Without such a `k` the answer is no. */
  lemma SlideOffLine(direction: int, start: int, target: int, distance: int, occupied: set<int>, own: set<int>)
    requires SlideDefined(direction, start, target)
    requires forall k :: !(PathX(start, target) == k * DirectionIn2d(direction).0 && PathY(start, target) == k * DirectionIn2d(direction).1)
    ensures !SlidePathOpen(direction, start, target, distance, occupied, own)
  {
    if SlideSteps(direction, start, target).Some? {
      var k := SlideSteps(direction, start, target).value;
      SlideStepsMeaning(direction, start, target, k);
      assert false;
    }
  }

  /** For a key that decodes to (dx, 0), the test is defined only where the
      file offset is not a multiple of dx, and there the short-circuit `or`
      answers no before it reaches the division by zero. */
  lemma SlideFileOffsetRefused(direction: int, start: int, target: int, distance: int,
                               occupied: set<int>, own: set<int>)
    requires SlideDefined(direction, start, target)
    requires DirectionIn2d(direction).1 == 0
    ensures PathX(start, target) % DirectionIn2d(direction).0 != 0
    ensures !SlidePathOpen(direction, start, target, distance, occupied, own)
  {
  }

  /** The key 2, a two-file step east with no rank component: from square 0
      to square 1 the answer is no, and from square 0 to square 2 the test
      divides by zero. */
  lemma SlideTwoFileExamples()
    ensures DirectionIn2d(2) == (2, 0)
    ensures SlideDefined(2, 0, 1) && !SlidePathOpen(2, 0, 1, 0, {}, {})
    ensures !SlideDefined(2, 0, 2)
  {
    DirectionIn2dInverts(2, 0);
  }

  /** The length test as written turns the distance bound around: a one-move
      bishop step with bound 1 is refused on an empty board, while the
      two-move slide the bound was meant to exclude is allowed. */
  lemma SlideGuardInverted()
    ensures DirectionIn2d(NORTH_EAST) == (1, 1)
    ensures !SlidePathOpen(NORTH_EAST, 0, 9, 1, {}, {})
    ensures SlidePathOpen(NORTH_EAST, 0, 18, 1, {}, {})
  {
    CompassDirections();
    SlideMeaning(NORTH_EAST, 0, 9, 1, {}, {}, 1);
    SlideMeaning(NORTH_EAST, 0, 18, 1, {}, {}, 2);
  }

  /** Every orthogonal direction decodes with a zero component, the divisor
      of the first test of is_slide_path, which therefore divides by zero for
      every start and target. */
  lemma OrthogonalDivisor()
    ensures DirectionIn2d(NORTH).0 == 0 && DirectionIn2d(SOUTH).0 == 0
    ensures DirectionIn2d(EAST).1 == 0 && DirectionIn2d(WEST).1 == 0
    ensures forall s, t :: !SlideDefined(NORTH, s, t) && !SlideDefined(SOUTH, s, t)
    ensures forall s, t :: !SlideDefined(EAST, s, t) && !SlideDefined(WEST, s, t)
  {
    CompassDirections();
  }

  // ---------------------------------------------------------------------------
  // The slide test as evidently intended

  /** The number of moves along a non-zero direction, with a zero component
      requiring a zero offset on that axis instead of a division by it. */
  function IntendedSlideSteps(direction: int, start: int, target: int): Option<int> {
    var (dx, dy) := DirectionIn2d(direction);
    var px, py := PathX(start, target), PathY(start, target);
    if dx == 0 && dy == 0 then None
    else if dx == 0 then (if px != 0 || py % dy != 0 then None else Some(py / dy))
    else if dy == 0 then (if py != 0 || px % dx != 0 then None else Some(px / dx))
    else SlideSteps(direction, start, target)
  }

  /** A slide of at least one move and at most `distance` moves (any number
      when `distance` is 0, as the compiled slider maps mean it), over empty
      squares, onto a square not held by the side to move. */
  predicate BoundedSlideOpen(direction: int, start: int, target: int, distance: int, occupied: set<int>, own: set<int>) {
    match IntendedSlideSteps(direction, start, target)
    case None => false
    case Some(k) => BoundedSlideAlong(direction, start, target, distance, occupied, own, k)
  }

  predicate BoundedSlideAlong(direction: int, start: int, target: int, distance: int, occupied: set<int>, own: set<int>, k: int) {
    && 1 <= k && (distance == 0 || k <= distance)
    && WalkClear(start, direction, k, target, occupied)
    && target !in own
  }

  /** The slide test with the length bound the right way round and defined
      for orthogonal directions. */
  method IsBoundedSlidePath(direction: int, start: int, target: int, distance: int, occupied: set<int>, own: set<int>)
    returns (ok: bool)
    ensures ok == BoundedSlideOpen(direction, start, target, distance, occupied, own)
  {
    var steps := IntendedSlideSteps(direction, start, target);
    if steps.None? {
      return false;
    }
    var k := steps.value;
    assert BoundedSlideOpen(direction, start, target, distance, occupied, own)
      == BoundedSlideAlong(direction, start, target, distance, occupied, own, k);
    if k < 1 || (distance != 0 && k > distance) {
      return false;
    }
    var clear, current := WalkSlide(start, direction, k, target, occupied);
    if !clear {
      return false;
    }
    assert direction != 0 by {
      assert DirectionIn2d(direction).0 + FILE_NB * DirectionIn2d(direction).1 == direction;
    }
    IntendedSlideStepsMeaning(direction, start, target, k);
    SlideArrives(direction, start, target, k);
    ok := current !in own;
  }

  lemma IntendedSlideStepsMeaning(direction: int, start: int, target: int, k: int)
    requires direction != 0
    ensures IntendedSlideSteps(direction, start, target) == Some(k) <==>
      PathX(start, target) == k * DirectionIn2d(direction).0 && PathY(start, target) == k * DirectionIn2d(direction).1
  {
    var (dx, dy) := DirectionIn2d(direction);
    var px, py := PathX(start, target), PathY(start, target);
    assert dx != 0 || dy != 0;
    if dx == 0 {
      if px == k * dx && py == k * dy {
        ExactQuotientAny(k, dy);
      }
      if IntendedSlideSteps(direction, start, target) == Some(k) {
        DivExactAny(py, dy);
      }
    } else if dy == 0 {
      if px == k * dx && py == k * dy {
        ExactQuotientAny(k, dx);
      }
      if IntendedSlideSteps(direction, start, target) == Some(k) {
        DivExactAny(px, dx);
      }
    } else {
      SlideStepsMeaning(direction, start, target, k);
    }
  }

  /** The intended answer, for every non-zero direction: `target` lies k moves
      along it with 1 <= k within the bound, every square before it is empty
      and it is not held by the side to move. */
  lemma BoundedSlideMeaning(direction: int, start: int, target: int, distance: int,
                            occupied: set<int>, own: set<int>, k: int)
    requires direction != 0
    requires PathX(start, target) == k * DirectionIn2d(direction).0
    requires PathY(start, target) == k * DirectionIn2d(direction).1
    ensures BoundedSlideOpen(direction, start, target, distance, occupied, own) <==>
      && 1 <= k && (distance == 0 || k <= distance)
      && (forall j :: 1 <= j < k ==> SlideSquare(start, direction, j) !in occupied)
      && target !in own
  {
    IntendedSlideStepsMeaning(direction, start, target, k);
    SlideArrives(direction, start, target, k);
    WalkClearBefore(start, direction, k, target, occupied);
  }

  /** The corrected test accepts the single bishop step that the as-written
      one refuses, refuses the slide beyond the bound, and accepts a rook
      step. */
  lemma BoundedSlideExamples()
    ensures BoundedSlideOpen(NORTH_EAST, 0, 9, 1, {}, {})
    ensures !BoundedSlideOpen(NORTH_EAST, 0, 18, 1, {}, {})
    ensures BoundedSlideOpen(NORTH, 0, 8, 1, {}, {})
  {
    CompassDirections();
    BoundedSlideMeaning(NORTH_EAST, 0, 9, 1, {}, {}, 1);
    BoundedSlideMeaning(NORTH_EAST, 0, 18, 1, {}, {}, 2);
    BoundedSlideMeaning(NORTH, 0, 8, 1, {}, {}, 1);
  }

  // ---------------------------------------------------------------------------
  // Crooked walks

  /** The moves of a zigzag pass no occupied square other than `target`. */
  predicate CrookedClear(z: Zigzag, start: int, target: int, occupied: set<int>) {
    forall j :: 1 <= j <= z.Length() && WalkSquare(z, start, j) != target ==>
      WalkSquare(z, start, j) !in occupied
  }

  /** The verdict of is_crooked_path: an accepted decomposition, a walk over
      empty squares and a target not held by the side to move. */
  predicate CrookedPathOpen(direction: int, start: int, target: int, distance: int, occupied: set<int>, own: set<int>)
    requires target == start || direction != 0
  {
    match CrookedShape(direction, start, target, distance)
    case None => false
    case Some(z) => CrookedClear(z, start, target, occupied) && target !in own
  }

  /** A distance code of 0, the one the compiler stores when no digit follows
      the atom and no g, j or n occurs, admits no crooked walk at all: every walk has at least one
      move, and the length test refuses more than `distance` of them. */
  lemma CrookedNeedsDistance(direction: int, start: int, target: int, occupied: set<int>, own: set<int>)
    requires target == start || direction != 0
    ensures !CrookedPathOpen(direction, start, target, 0, occupied, own)
  {
    if CrookedShape(direction, start, target, 0).Some? {
      CrookedShapeSound(direction, start, target, 0);
    }
  }

  /** A distance code of 1 admits only the single move along `direction`. */
  lemma CrookedSingleMove(direction: int, start: int, target: int, occupied: set<int>, own: set<int>)
    requires target == start || direction != 0
    requires CrookedPathOpen(direction, start, target, 1, occupied, own)
    ensures target == start + direction
  {
    var z := CrookedShape(direction, start, target, 1).value;
    CrookedShapeSound(direction, start, target, 1);
    WalkStep(z, start, 1);
    WalkStart(z, start);
  }

  /** is_crooked_path. */
  method IsCrookedPath(direction: int, start: int, target: int, distance: int, occupied: set<int>, own: set<int>)
    returns (ok: bool)
    requires target == start || direction != 0
    ensures ok == CrookedPathOpen(direction, start, target, distance, occupied, own)
  {
    var shape := CrookedShape(direction, start, target, distance);
    if shape.None? {
      return false;
    }
    var z := shape.value;
    CrookedShapeSound(direction, start, target, distance);
    var current := start;
    WalkStart(z, start);
    for step := 1 to z.Length() + 1
      invariant current == WalkSquare(z, start, step - 1)
      invariant forall j :: 1 <= j < step && WalkSquare(z, start, j) != target ==> WalkSquare(z, start, j) !in occupied
    {
      WalkStep(z, start, step);
      current := current + (if step % 2 == 1 then direction else z.perp);
      if current != target && current in occupied {
        return false;
      }
    }
    ok := target !in own;
  }

  /** The squares of the first `n` moves of a zigzag. */
  function WalkedSquares(z: Zigzag, start: int, n: int): set<int>
    decreases n
  {
    if n <= 0 then {} else WalkedSquares(z, start, n - 1) + {WalkSquare(z, start, n)}
  }

  lemma {:induction false} WalkedSquaresMembers(z: Zigzag, start: int, n: int, s: int)
    ensures s in WalkedSquares(z, start, n) <==> exists j :: 1 <= j <= n && WalkSquare(z, start, j) == s
    decreases n
  {
    if n > 0 {
      WalkedSquaresMembers(z, start, n - 1, s);
      if WalkSquare(z, start, n) == s {
        assert 1 <= n <= n;
      }
      if exists j :: 1 <= j <= n && WalkSquare(z, start, j) == s {
        var j :| 1 <= j <= n && WalkSquare(z, start, j) == s;
        if j < n {
          assert 1 <= j <= n - 1;
        }
      }
    }
  }

  /** crooked_path: the empty board when is_crooked_path says no, and
      otherwise exactly the squares of the walk after `start`, `target`
      among them. */
  method CrookedPath(direction: int, start: int, target: int, distance: int, occupied: set<int>, own: set<int>)
    returns (path: set<int>)
    requires target == start || direction != 0
    ensures !CrookedPathOpen(direction, start, target, distance, occupied, own) ==> path == {}
    ensures CrookedPathOpen(direction, start, target, distance, occupied, own) ==>
      var z := CrookedShape(direction, start, target, distance).value;
      && (forall s :: s in path <==> exists j :: 1 <= j <= z.Length() && WalkSquare(z, start, j) == s)
      && target in path
  {
    var open := IsCrookedPath(direction, start, target, distance, occupied, own);
    if !open {
      return {};
    }
    var z := CrookedShape(direction, start, target, distance).value;
    CrookedShapeSound(direction, start, target, distance);
    var current := start;
    path := {};
    WalkStart(z, start);
    for step := 1 to z.Length() + 1
      invariant current == WalkSquare(z, start, step - 1)
      invariant path == WalkedSquares(z, start, step - 1)
    {
      WalkStep(z, start, step);
      current := current + (if step % 2 == 1 then direction else z.perp);
      path := path + {current};
    }
    forall s
      ensures s in path <==> exists j :: 1 <= j <= z.Length() && WalkSquare(z, start, j) == s
    {
      WalkedSquaresMembers(z, start, z.Length(), s);
    }
    assert WalkSquare(z, start, z.Length()) == target;
  }

  /** What a yes from is_crooked_path guarantees: an alternating walk of at
      least one and at most `distance` moves that ends on `target`, none of
      whose squares other than `target` is occupied, onto a square not held
      by the side to move. */
  lemma CrookedOpenMeaning(direction: int, start: int, target: int, distance: int,
                           occupied: set<int>, own: set<int>)
    requires target == start || direction != 0
    requires CrookedPathOpen(direction, start, target, distance, occupied, own)
    ensures target != start
    ensures var z := CrookedShape(direction, start, target, distance).value;
      && z.base == direction
      && 1 <= z.Length() <= distance
      && WalkSquare(z, start, z.Length()) == target
      && (forall j :: 1 <= j <= z.Length() && WalkSquare(z, start, j) != target ==> WalkSquare(z, start, j) !in occupied)
      && target !in own
  {
    CrookedShapeSound(direction, start, target, distance);
  }
}
