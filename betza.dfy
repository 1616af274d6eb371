/** The Betza-notation compiler: the atom tables, the direction table, the
    crooked path of a base direction, and the left-to-right scan that turns a
    notation string into the move maps of a piece. */
module Betza {
  import opened Piece
  import opened Geometry

  // ---------------------------------------------------------------------------
  // Tables

  /** A canonical atom shape (a0, a1). */
  type Atom = (int, int)

  /** Leaper letters: one bounded jump. */
  const LeaperAtoms: map<char, seq<Atom>> := map[
    'W' := [(1, 0)], 'F' := [(1, 1)], 'D' := [(2, 0)], 'N' := [(2, 1)],
    'A' := [(2, 2)], 'H' := [(3, 0)], 'L' := [(3, 1)], 'C' := [(3, 1)],
    'J' := [(3, 2)], 'Z' := [(3, 2)], 'G' := [(3, 3)]]

  /** Rider letters: repeated slides; the queen combines two shapes. */
  const RiderAtoms: map<char, seq<Atom>> := map[
    'R' := [(1, 0)], 'B' := [(1, 1)], 'Q' := [(1, 0), (1, 1)]]

  const Verticals: string := "fbvh"
  const Horizontals: string := "rlsh"

  /** Every shape that occurs in the two tables. */
  const TableAtoms: set<Atom> := {(1, 0), (1, 1), (2, 0), (2, 1), (2, 2), (3, 0), (3, 1), (3, 2), (3, 3)}

  /** A two-letter direction-restriction code such as "ff" or "fs". */
  type Code = s: string | |s| == 2 witness "ff"

  predicate IsDigit(c: char) {
    '0' <= c <= '9'
  }

  predicate IsVertical(c: char) {
    c == 'f' || c == 'b' || c == 'v' || c == 'h'
  }

  predicate IsHorizontal(c: char) {
    c == 'r' || c == 'l' || c == 's' || c == 'h'
  }

  predicate IsLeaperLetter(c: char) {
    c == 'W' || c == 'F' || c == 'D' || c == 'N' || c == 'A' || c == 'H' || c == 'L' || c == 'C' || c == 'J' || c == 'Z' || c == 'G'
  }

  predicate IsRiderLetter(c: char) {
    c == 'R' || c == 'B' || c == 'Q'
  }

  predicate IsAtomLetter(c: char) {
    IsLeaperLetter(c) || IsRiderLetter(c)
  }

  predicate IsDirectionLetter(c: char) {
    IsVertical(c) || IsHorizontal(c)
  }

  /** The letter classes are exactly the keys of the tables and the letters of
      the two direction strings. */
  lemma LetterClasses(c: char)
    ensures IsVertical(c) <==> c in Verticals
    ensures IsHorizontal(c) <==> c in Horizontals
    ensures IsLeaperLetter(c) <==> c in LeaperAtoms
    ensures IsRiderLetter(c) <==> c in RiderAtoms
  {
  }

  /** The shapes an atom letter stands for; the rider table is consulted first. */
  function AtomsOf(c: char): seq<Atom>
    requires IsAtomLetter(c)
  {
    LetterClasses(c);
    if IsRiderLetter(c) then RiderAtoms[c] else LeaperAtoms[c]
  }

  /** Whether direction letter `c` and the letter after it form one code:
      a doubled letter, or a vertical-class letter with a horizontal-class one. */
  predicate Pairs(c: char, next: char) {
    next == c || (IsVertical(c) && IsHorizontal(next)) || (IsHorizontal(c) && IsVertical(next))
  }

  /** Every atom named in the tables is one of TableAtoms. */
  lemma AtomsOfInTable(c: char)
    requires IsAtomLetter(c)
    ensures forall a :: a in AtomsOf(c) ==> a in TableAtoms
  {
  }

  // ---------------------------------------------------------------------------
  // The direction table

  /** Row r of the direction table: the key it writes for the atom (a0, a1). */
  function RowKey(r: int, atom: Atom): int
    requires 0 <= r < 8
  {
    var (a0, a1) := atom;
    if r == 0 then a0 * FILE_NB + a1
    else if r == 1 then -a0 * FILE_NB - a1
    else if r == 2 then -a1 * FILE_NB + a0
    else if r == 3 then a1 * FILE_NB - a0
    else if r == 4 then a1 * FILE_NB + a0
    else if r == 5 then -a1 * FILE_NB - a0
    else if r == 6 then -a0 * FILE_NB + a1
    else a0 * FILE_NB - a1
  }

  /** Row r of the direction table: the codes that select it. */
  const RowCodes: seq<set<Code>> := [
    {"ff", "vv", "rf", "rv", "fh", "rh", "hr"},
    {"bb", "vv", "lb", "lv", "bh", "lh", "hr"},
    {"rr", "ss", "br", "bs", "bh", "rh", "hr"},
    {"ll", "ss", "fl", "fs", "fh", "lh", "hr"},
    {"rr", "ss", "fr", "fs", "fh", "rh", "hl"},
    {"ll", "ss", "bl", "bs", "bh", "lh", "hl"},
    {"bb", "vv", "rb", "rv", "bh", "rh", "hl"},
    {"ff", "vv", "lf", "lv", "fh", "lh", "hl"}
  ]

  /** A row is written when there are no codes at all or one of its codes is present. */
  predicate RowSelected(r: int, directions: seq<Code>)
    requires 0 <= r < 8
  {
    |directions| == 0 || exists j :: 0 <= j < |directions| && directions[j] in RowCodes[r]
  }

  function SelectedUpTo(atom: Atom, directions: seq<Code>, n: int): set<int>
    requires 0 <= n <= 8
  {
    set r | 0 <= r < n && RowSelected(r, directions) :: RowKey(r, atom)
  }

  /** The keys written for one atom under a list of codes. */
  function SelectedKeys(atom: Atom, directions: seq<Code>): set<int> {
    SelectedUpTo(atom, directions, 8)
  }

  /** The eight symmetric images of an atom, in the encoding dx + FILE_NB * dy. */
  function AtomImages(atom: Atom): set<int> {
    var (a0, a1) := atom;
    {a0 * FILE_NB + a1, -(a0 * FILE_NB + a1), a0 * FILE_NB - a1, -(a0 * FILE_NB - a1),
     a1 * FILE_NB + a0, -(a1 * FILE_NB + a0), a1 * FILE_NB - a0, -(a1 * FILE_NB - a0)}
  }

  /** Whatever the codes, only images of the atom are written. */
  lemma SelectedKeysWithinImages(atom: Atom, directions: seq<Code>)
    ensures SelectedKeys(atom, directions) <= AtomImages(atom)
  {
  }

  /** With no codes, all eight images are written. */
  lemma UnrestrictedSelectsAll(atom: Atom, directions: seq<Code>)
    requires |directions| == 0
    ensures SelectedKeys(atom, directions) == AtomImages(atom)
  {
    var (a0, a1) := atom;
    assert RowKey(0, atom) == a0 * FILE_NB + a1 && RowKey(1, atom) == -(a0 * FILE_NB + a1);
    assert RowKey(2, atom) == -(a1 * FILE_NB - a0) && RowKey(3, atom) == a1 * FILE_NB - a0;
    assert RowKey(4, atom) == a1 * FILE_NB + a0 && RowKey(5, atom) == -(a1 * FILE_NB + a0);
    assert RowKey(6, atom) == -(a0 * FILE_NB - a1) && RowKey(7, atom) == a0 * FILE_NB - a1;
  }

  /** The code "ff" alone selects exactly the two forward rows. */
  lemma ForwardSelects(atom: Atom, dirs: seq<Code>)
    requires dirs == ["ff"]
    ensures SelectedKeys(atom, dirs) == {atom.0 * FILE_NB + atom.1, atom.0 * FILE_NB - atom.1}
  {
    assert dirs[0] in RowCodes[0] && dirs[0] in RowCodes[7];
    assert RowKey(0, atom) in SelectedKeys(atom, dirs);
    assert RowKey(7, atom) in SelectedKeys(atom, dirs);
    forall k | k in SelectedKeys(atom, dirs)
      ensures k == RowKey(0, atom) || k == RowKey(7, atom)
    {
      var r :| 0 <= r < 8 && RowSelected(r, dirs) && k == RowKey(r, atom);
      assert dirs[0] in RowCodes[r];
    }
  }

  /** Writes `distance` under every key of `keys`, keeping the other entries. */
  function Assign(move: MoveMap, keys: set<int>, distance: int): (r: MoveMap)
    ensures r.Keys == move.Keys + keys
    ensures forall k :: k in r ==> r[k] == if k in keys then distance else move[k]
  {
    map k | k in move.Keys + keys :: if k in keys then distance else move[k]
  }

  lemma AssignOne(move: MoveMap, keys: set<int>, k: int, distance: int)
    ensures Assign(move, keys, distance)[k := distance] == Assign(move, keys + {k}, distance)
  {
  }

  lemma AssignTwice(move: MoveMap, keys1: set<int>, keys2: set<int>, distance: int)
    ensures Assign(Assign(move, keys1, distance), keys2, distance) == Assign(move, keys1 + keys2, distance)
  {
  }

  lemma AssignNothing(move: MoveMap, distance: int)
    ensures Assign(move, {}, distance) == move
  {
  }

  lemma SelectedUpToNext(atom: Atom, directions: seq<Code>, n: int)
    requires 0 <= n < 8
    ensures SelectedUpTo(atom, directions, n + 1)
      == SelectedUpTo(atom, directions, n) + (if RowSelected(n, directions) then {RowKey(n, atom)} else {})
  {
  }

  /** The guard of row r as the source writes it, code by code. */
  predicate SourceGuard(r: int, directions: seq<Code>)
    requires 0 <= r < 8
  {
    if r == 0 then |directions| == 0 || "ff" in directions || "vv" in directions || "rf" in directions || "rv" in directions || "fh" in directions || "rh" in directions || "hr" in directions
    else if r == 1 then |directions| == 0 || "bb" in directions || "vv" in directions || "lb" in directions || "lv" in directions || "bh" in directions || "lh" in directions || "hr" in directions
    else if r == 2 then |directions| == 0 || "rr" in directions || "ss" in directions || "br" in directions || "bs" in directions || "bh" in directions || "rh" in directions || "hr" in directions
    else if r == 3 then |directions| == 0 || "ll" in directions || "ss" in directions || "fl" in directions || "fs" in directions || "fh" in directions || "lh" in directions || "hr" in directions
    else if r == 4 then |directions| == 0 || "rr" in directions || "ss" in directions || "fr" in directions || "fs" in directions || "fh" in directions || "rh" in directions || "hl" in directions
    else if r == 5 then |directions| == 0 || "ll" in directions || "ss" in directions || "bl" in directions || "bs" in directions || "bh" in directions || "lh" in directions || "hl" in directions
    else if r == 6 then |directions| == 0 || "bb" in directions || "vv" in directions || "rb" in directions || "rv" in directions || "bh" in directions || "rh" in directions || "hl" in directions
    else |directions| == 0 || "ff" in directions || "vv" in directions || "lf" in directions || "lv" in directions || "fh" in directions || "lh" in directions || "hl" in directions
  }

  /** The source's guards are exactly the rows of the direction table. */
  lemma RowGuard(r: int, directions: seq<Code>)
    requires 0 <= r < 8
    ensures RowSelected(r, directions) <==> SourceGuard(r, directions)
  {
    if |directions| > 0 {
      if RowSelected(r, directions) {
        var j :| 0 <= j < |directions| && directions[j] in RowCodes[r];
        assert directions[j] in directions;
      }
      if SourceGuard(r, directions) {
        var code :| code in directions && code in RowCodes[r];
        var j :| 0 <= j < |directions| && directions[j] == code;
      }
    }
  }

  /** `written` is `move` after the first `rows` rows of the table. */
  predicate RowsWritten(move: MoveMap, atom: Atom, directions: seq<Code>, distance: int, rows: int, written: MoveMap)
    requires 0 <= rows <= 8
  {
    written == Assign(move, SelectedUpTo(atom, directions, rows), distance)
  }

  lemma WriteRow(move: MoveMap, atom: Atom, directions: seq<Code>, distance: int, r: int,
                 before: MoveMap, selected: bool, after: MoveMap)
    requires 0 <= r < 8
    requires RowsWritten(move, atom, directions, distance, r, before)
    requires selected == SourceGuard(r, directions)
    requires after == if selected then before[RowKey(r, atom) := distance] else before
    ensures RowsWritten(move, atom, directions, distance, r + 1, after)
  {
    RowGuard(r, directions);
    SelectedUpToNext(atom, directions, r);
    if selected {
      AssignOne(move, SelectedUpTo(atom, directions, r), RowKey(r, atom), distance);
    }
  }

  /** One `if ...: move[key] = distance` statement of the source: row r's
      guard and key. */
  method GuardedWrite(ghost move: MoveMap, atom: Atom, directions: seq<Code>, distance: int, r: int, before: MoveMap)
    returns (after: MoveMap)
    requires 0 <= r < 8 && RowsWritten(move, atom, directions, distance, r, before)
    ensures RowsWritten(move, atom, directions, distance, r + 1, after)
  {
    var selected := SourceGuard(r, directions);
    if selected {
      after := before[RowKey(r, atom) := distance];
    } else {
      after := before;
    }
    WriteRow(move, atom, directions, distance, r, before, selected, after);
  }

  /** The eight guarded `move[key] = distance` assignments for one atom and
      modality, one per row of the direction table. */
  method WriteMove(move: MoveMap, atom: Atom, directions: seq<Code>, distance: int) returns (updated: MoveMap)
    ensures updated == Assign(move, SelectedKeys(atom, directions), distance)
  {
    AssignNothing(move, distance);
    updated := GuardedWrite(move, atom, directions, distance, 0, move);
    updated := GuardedWrite(move, atom, directions, distance, 1, updated);
    updated := GuardedWrite(move, atom, directions, distance, 2, updated);
    updated := GuardedWrite(move, atom, directions, distance, 3, updated);
    updated := GuardedWrite(move, atom, directions, distance, 4, updated);
    updated := GuardedWrite(move, atom, directions, distance, 5, updated);
    updated := GuardedWrite(move, atom, directions, distance, 6, updated);
    updated := GuardedWrite(move, atom, directions, distance, 7, updated);
  }

  // ---------------------------------------------------------------------------
  // The crooked path of a base direction

  /** The squares of a zigzag walk from `start` to `target` whose odd moves
      add `base` and whose even moves add `base` turned a quarter; empty when
      there is no such walk of at most `distance` moves. */
  method CrookedPath(base: int, start: int, target: int, distance: int) returns (path: seq<int>)
    requires target == start || base != 0
    ensures path == [] <==> CrookedShape(base, start, target, distance).None?
    ensures CrookedShape(base, start, target, distance).Some? ==>
      var z := CrookedShape(base, start, target, distance).value;
      && |path| == z.Length() + 1
      && (forall j :: 0 <= j < |path| ==> path[j] == WalkSquare(z, start, j))
      && path[0] == start && path[|path| - 1] == target
      && (forall j :: 1 <= j < |path| ==> path[j] == path[j - 1] + (if j % 2 == 1 then base else z.perp))
  {
    if target == start {
      return [];
    }
    var (baseX, baseY) := DirectionIn2d(base);
    var basePerp := -baseY + baseX * 8;
    var pathX, pathY := FileOf(target) - FileOf(start), RankOf(target) - RankOf(start);
    var stepPara := pathX * baseX + pathY * baseY;
    var stepPerp := -pathX * baseY + pathY * baseX;
    var determinant := baseX * baseX + baseY * baseY;
    DeterminantPositive(base);
    if stepPara % determinant != 0 || stepPerp % determinant != 0 {
      return [];
    }
    stepPara := stepPara / determinant;
    stepPerp := stepPerp / determinant;
    if stepPerp < 0 {
      stepPerp := -stepPerp;
      basePerp := baseY - baseX * 8;
    }
    if stepPara != stepPerp && stepPara != stepPerp + 1 {
      return [];
    }
    if stepPara + stepPerp > distance {
      return [];
    }
    ghost var z := CrookedShape(base, start, target, distance).value;
    assert z == Zigzag(base, basePerp, stepPara, stepPerp);
    CrookedShapeSound(base, start, target, distance);
    path := [start];
    WalkStart(z, start);
    for steps := 1 to stepPara + stepPerp + 1
      invariant |path| == steps
      invariant forall j :: 0 <= j < steps ==> path[j] == WalkSquare(z, start, j)
    {
      WalkStep(z, start, steps);
      path := path + [if steps % 2 == 1 then path[|path| - 1] + base else path[|path| - 1] + basePerp];
    }
    forall j | 1 <= j < |path|
      ensures path[j] == path[j - 1] + (if j % 2 == 1 then base else z.perp)
    {
      WalkStep(z, start, j);
    }
  }

  // ---------------------------------------------------------------------------
  // Splitting codes for a lone orthogonal atom

  /** The codes an atom is filtered by: for a lone orthogonal atom (the only
      shape of its letter, with a1 == 0) a mixed code xy becomes xx and yy. */
  function Expanded(prelim: seq<Code>, split: bool): seq<Code> {
    if prelim == [] then []
    else
      var dir := prelim[|prelim| - 1];
      Expanded(prelim[..|prelim| - 1], split)
        + (if split && dir[0] != dir[1] then [[dir[0], dir[0]], [dir[1], dir[1]]] else [dir])
  }

  /** Without splitting the codes are kept as they are. */
  lemma {:induction false} ExpandedUnsplit(prelim: seq<Code>)
    ensures Expanded(prelim, false) == prelim
  {
    if prelim != [] {
      ExpandedUnsplit(prelim[..|prelim| - 1]);
    }
  }

  /** Doubled codes are never split. */
  lemma {:induction false} ExpandedDoubled(prelim: seq<Code>, split: bool)
    requires forall j :: 0 <= j < |prelim| ==> prelim[j][0] == prelim[j][1]
    ensures Expanded(prelim, split) == prelim
  {
    if prelim != [] {
      ExpandedDoubled(prelim[..|prelim| - 1], split);
      var dir := prelim[|prelim| - 1];
      assert dir[0] == dir[1];
      assert prelim == prelim[..|prelim| - 1] + [dir];
    }
  }

  /** With splitting every code is a doubled letter, each letter it doubles
      is a letter of some original code, and both letters of every original
      code occur doubled. */
  lemma {:induction false} ExpandedSplit(prelim: seq<Code>)
    ensures forall j :: 0 <= j < |Expanded(prelim, true)| ==>
      var d := Expanded(prelim, true)[j];
      d[0] == d[1] && exists i :: 0 <= i < |prelim| && (d[0] == prelim[i][0] || d[0] == prelim[i][1])
    ensures forall i :: 0 <= i < |prelim| ==>
      [prelim[i][0], prelim[i][0]] in Expanded(prelim, true) && [prelim[i][1], prelim[i][1]] in Expanded(prelim, true)
  {
    if prelim != [] {
      var init := prelim[..|prelim| - 1];
      ExpandedSplit(init);
      ExpandedCovers(prelim);
      var e := Expanded(init, true);
      var dir := prelim[|prelim| - 1];
      var tail: seq<Code> := if dir[0] != dir[1] then [[dir[0], dir[0]], [dir[1], dir[1]]] else [dir];
      assert Expanded(prelim, true) == e + tail;
      forall j | 0 <= j < |e + tail|
        ensures var d := (e + tail)[j];
          d[0] == d[1] && exists i :: 0 <= i < |prelim| && (d[0] == prelim[i][0] || d[0] == prelim[i][1])
      {
        if j < |e| {
          var d := e[j];
          var i :| 0 <= i < |init| && (d[0] == init[i][0] || d[0] == init[i][1]);
          assert prelim[i] == init[i];
        } else {
          assert (e + tail)[j][0] == prelim[|prelim| - 1][0] || (e + tail)[j][0] == prelim[|prelim| - 1][1];
        }
      }
    }
  }

  /** Both letters of every code occur doubled after splitting, given that
      they do for all codes but the last. */
  lemma ExpandedCovers(prelim: seq<Code>)
    requires prelim != []
    requires var init := prelim[..|prelim| - 1];
      forall i :: 0 <= i < |init| ==>
        [init[i][0], init[i][0]] in Expanded(init, true) && [init[i][1], init[i][1]] in Expanded(init, true)
    ensures forall i :: 0 <= i < |prelim| ==>
      [prelim[i][0], prelim[i][0]] in Expanded(prelim, true) && [prelim[i][1], prelim[i][1]] in Expanded(prelim, true)
  {
    var init := prelim[..|prelim| - 1];
    var dir := prelim[|prelim| - 1];
    var tail: seq<Code> := if dir[0] != dir[1] then [[dir[0], dir[0]], [dir[1], dir[1]]] else [dir];
    assert Expanded(prelim, true) == Expanded(init, true) + tail;
    if dir[0] == dir[1] {
      assert dir == [dir[0], dir[0]] == [dir[1], dir[1]];
    }
    assert [dir[0], dir[0]] in tail && [dir[1], dir[1]] in tail;
    forall i | 0 <= i < |init|
      ensures [prelim[i][0], prelim[i][0]] in Expanded(prelim, true) && [prelim[i][1], prelim[i][1]] in Expanded(prelim, true)
    {
      assert prelim[i] == init[i];
    }
  }

  /** The loop that builds the codes an atom is filtered by. */
  method ExpandDirections(prelimDirections: seq<Code>, split: bool) returns (directions: seq<Code>)
    ensures directions == Expanded(prelimDirections, split)
  {
    directions := [];
    for j := 0 to |prelimDirections|
      invariant directions == Expanded(prelimDirections[..j], split)
    {
      var dir := prelimDirections[j];
      assert prelimDirections[..j + 1][..j] == prelimDirections[..j];
      if split && dir[0] != dir[1] {
        directions := directions + [[dir[0], dir[0]]];
        directions := directions + [[dir[1], dir[1]]];
      } else {
        directions := directions + [dir];
      }
    }
    assert prelimDirections[..|prelimDirections|] == prelimDirections;
  }

  // ---------------------------------------------------------------------------
  // One atom group

  /** What one atom group writes: the atom shapes, the pending codes, the
      modalities, the family and the distance code. */
  datatype Group = Group(atoms: seq<Atom>, directions: seq<Code>, modalities: seq<Modality>,
                         family: Family, distance: int)

  /** The elif-chain choosing a family: crooked beats hopper beats rider. */
  function SelectFamily(hopper: bool, rider: bool, crooked: bool): Family {
    if crooked then Crooked else if hopper then Hopper else if rider then Slider else Steps
  }

  /** The codes atom number `a` of a group is filtered by. */
  function AtomDirections(gr: Group, a: int): seq<Code>
    requires 0 <= a < |gr.atoms|
  {
    Expanded(gr.directions, |gr.atoms| == 1 && gr.atoms[a].1 == 0)
  }

  /** Writes `keys` with `distance` into family `f` for each modality in turn. */
  function EmitModalities(p: MovementProfile, f: Family, modalities: seq<Modality>, keys: set<int>, distance: int): MovementProfile {
    if modalities == [] then p
    else
      var m := modalities[|modalities| - 1];
      var q := EmitModalities(p, f, modalities[..|modalities| - 1], keys, distance);
      q.Put(f, m, Assign(q.Get(f, m), keys, distance))
  }

  /** The writes of the first `n` atoms of a group. */
  function EmitAtoms(p: MovementProfile, gr: Group, n: int): MovementProfile
    requires 0 <= n <= |gr.atoms|
  {
    if n == 0 then p
    else
      var q := EmitAtoms(p, gr, n - 1);
      EmitModalities(q, gr.family, gr.modalities, SelectedKeys(gr.atoms[n - 1], AtomDirections(gr, n - 1)), gr.distance)
  }

  /** All keys the first `n` atoms of a group write. */
  function GroupKeys(gr: Group, n: int): set<int>
    requires 0 <= n <= |gr.atoms|
  {
    if n == 0 then {} else GroupKeys(gr, n - 1) + SelectedKeys(gr.atoms[n - 1], AtomDirections(gr, n - 1))
  }

  /** Writing for a list of modalities touches exactly the maps of family `f`
      for those modalities, repetitions included. */
  lemma {:induction false} EmitModalitiesEffect(p: MovementProfile, f: Family, modalities: seq<Modality>, keys: set<int>, distance: int)
    ensures forall f', m' ::
      (EmitModalities(p, f, modalities, keys, distance).Get(f', m')
       == if f' == f && m' in modalities then Assign(p.Get(f', m'), keys, distance) else p.Get(f', m'))
  {
    if modalities != [] {
      var init := modalities[..|modalities| - 1];
      var m := modalities[|modalities| - 1];
      EmitModalitiesEffect(p, f, init, keys, distance);
      forall f', m' ensures EmitModalities(p, f, modalities, keys, distance).Get(f', m')
        == if f' == f && m' in modalities then Assign(p.Get(f', m'), keys, distance) else p.Get(f', m')
      {
        assert m' in modalities <==> m' in init || m' == m;
        if f' == f && m' == m && m in init {
          AssignTwice(p.Get(f, m), keys, keys, distance);
          assert keys + keys == keys;
        }
      }
    }
  }

  /** The effect of a group: the family it selects gets the group's keys with
      its distance code in the maps of its modalities; every other map of the
      profile is unchanged. */
  lemma {:induction false} EmitAtomsEffect(p: MovementProfile, gr: Group, n: int)
    requires 0 <= n <= |gr.atoms|
    ensures forall f, m ::
      (EmitAtoms(p, gr, n).Get(f, m)
       == if f == gr.family && m in gr.modalities then Assign(p.Get(f, m), GroupKeys(gr, n), gr.distance) else p.Get(f, m))
  {
    if n == 0 {
      forall m { AssignNothing(p.Get(gr.family, m), gr.distance); }
    } else {
      EmitAtomsEffect(p, gr, n - 1);
      var keys := SelectedKeys(gr.atoms[n - 1], AtomDirections(gr, n - 1));
      EmitModalitiesEffect(EmitAtoms(p, gr, n - 1), gr.family, gr.modalities, keys, gr.distance);
      forall m | m in gr.modalities {
        AssignTwice(p.Get(gr.family, m), GroupKeys(gr, n - 1), keys, gr.distance);
      }
    }
  }

  /** Only images of the group's atoms are written. */
  lemma {:induction false} GroupKeysWithinImages(gr: Group, n: int, k: int)
    requires 0 <= n <= |gr.atoms|
    requires k in GroupKeys(gr, n)
    ensures exists a :: a in gr.atoms && k in AtomImages(a)
  {
    if k in SelectedKeys(gr.atoms[n - 1], AtomDirections(gr, n - 1)) {
      SelectedKeysWithinImages(gr.atoms[n - 1], AtomDirections(gr, n - 1));
    } else {
      GroupKeysWithinImages(gr, n - 1, k);
    }
  }

  // ---------------------------------------------------------------------------
  // The scan

  /** The state carried from one character to the next: pending modalities,
      pending codes, the hopper, lame and crooked flags and the distance code.
      The rider flag is set and cleared within the atom branch, so it is never
      pending. */
  datatype Pending = Pending(modalities: seq<Modality>, directions: seq<Code>,
                             hopper: bool, lame: bool, crooked: bool, distance: int)

  const Cleared: Pending := Pending([], [], false, false, false, 0)

  predicate IsModalityLetter(c: char) { c == 'm' || c == 'c' }
  predicate IsHopperLetter(c: char) { c == 'p' || c == 'g' || c == 'j' }

  /** Whether the atom at `i` is followed by a digit or by its own letter. */
  predicate Extended(betza: string, i: int)
    requires 0 <= i < |betza|
  {
    i + 1 < |betza| && (IsDigit(betza[i + 1]) || betza[i + 1] == betza[i])
  }

  /** The group the atom letter at `i` emits from the pending state. */
  function GroupAt(betza: string, i: int, pend: Pending): Group
    requires 0 <= i < |betza| && IsAtomLetter(betza[i])
  {
    var c := betza[i];
    var rider := IsRiderLetter(c) || Extended(betza, i);
    var counted := if Extended(betza, i) && IsDigit(betza[i + 1]) then betza[i + 1] as int - '0' as int else pend.distance;
    var distance := if !rider && pend.lame then -1 else counted;
    var modalities := if pend.modalities == [] then [QUIET, CAPTURE] else pend.modalities;
    Group(AtomsOf(c), pend.directions, modalities, SelectFamily(pend.hopper, rider, pend.crooked), distance)
  }

  /** The code a direction letter at `i` appends. */
  function CodeAt(betza: string, i: int): Code
    requires 0 <= i < |betza|
  {
    if i + 1 < |betza| && Pairs(betza[i], betza[i + 1]) then [betza[i], betza[i + 1]] else [betza[i], betza[i]]
  }

  /** How character `i` changes the pending state. */
  function StepPending(betza: string, i: int, pend: Pending): Pending
    requires 0 <= i < |betza|
  {
    var c := betza[i];
    if IsModalityLetter(c) then pend.(modalities := pend.modalities + [if c == 'c' then CAPTURE else QUIET])
    else if IsHopperLetter(c) then pend.(hopper := true, distance := if c == 'p' then pend.distance else 1)
    else if c == 'n' then pend.(lame := true)
    else if c == 'z' then pend.(crooked := true)
    else if IsDirectionLetter(c) then pend.(directions := pend.directions + [CodeAt(betza, i)])
    else if IsAtomLetter(c) then Cleared
    else pend
  }

  /** How character `i` changes the move maps: only an atom letter writes. */
  function StepProfile(betza: string, i: int, pend: Pending, prof: MovementProfile): MovementProfile
    requires 0 <= i < |betza|
  {
    var c := betza[i];
    if !IsModalityLetter(c) && !IsHopperLetter(c) && c != 'n' && c != 'z' && !IsDirectionLetter(c) && IsAtomLetter(c) then
      var gr := GroupAt(betza, i, pend);
      EmitAtoms(prof, gr, |gr.atoms|)
    else prof
  }

  /** The pending state after the first `n` characters. */
  function PendingAt(betza: string, n: int): Pending
    requires 0 <= n <= |betza|
  {
    if n == 0 then Cleared else StepPending(betza, n - 1, PendingAt(betza, n - 1))
  }

  /** The move maps after the first `n` characters. */
  function ProfileAt(betza: string, n: int): MovementProfile
    requires 0 <= n <= |betza|
  {
    if n == 0 then EmptyProfile else StepProfile(betza, n - 1, PendingAt(betza, n - 1), ProfileAt(betza, n - 1))
  }

  /** The move maps a notation string compiles to. */
  function Compile(betza: string): MovementProfile {
    ProfileAt(betza, |betza|)
  }

  /** The writes of one group, with the family chosen by the source's if-chain
      and the codes of each atom built by ExpandDirections. */
  method EmitGroup(piece: PieceInfo, atoms: seq<Atom>, prelimDirections: seq<Code>, moveModalities: seq<Modality>,
                   hopper: bool, rider: bool, crooked: bool, distance: int)
    modifies piece
    ensures piece.Profile()
      == EmitAtoms(old(piece.Profile()), Group(atoms, prelimDirections, moveModalities, SelectFamily(hopper, rider, crooked), distance), |atoms|)
    ensures piece.name == old(piece.name) && piece.betza == old(piece.betza)
  {
    ghost var gr := Group(atoms, prelimDirections, moveModalities, SelectFamily(hopper, rider, crooked), distance);
    ghost var start := piece.Profile();
    var family := Steps;
    if hopper {
      family := Hopper;
    } else if rider {
      family := Slider;
    }
    if crooked {
      family := Crooked;
    }
    assert family == gr.family;
    for a := 0 to |atoms|
      invariant piece.Profile() == EmitAtoms(start, gr, a)
      invariant piece.name == old(piece.name) && piece.betza == old(piece.betza)
    {
      var atom := atoms[a];
      var directions := ExpandDirections(prelimDirections, |atoms| == 1 && atom.1 == 0);
      assert directions == AtomDirections(gr, a);
      EmitShape(piece, family, moveModalities, atom, directions, distance);
    }
  }

  /** The inner loop of the atom branch: one shape written for each modality. */
  method EmitShape(piece: PieceInfo, family: Family, moveModalities: seq<Modality>, atom: Atom,
                   directions: seq<Code>, distance: int)
    modifies piece
    ensures piece.Profile()
      == EmitModalities(old(piece.Profile()), family, moveModalities, SelectedKeys(atom, directions), distance)
    ensures piece.name == old(piece.name) && piece.betza == old(piece.betza)
  {
    ghost var keys := SelectedKeys(atom, directions);
    ghost var before := piece.Profile();
    for j := 0 to |moveModalities|
      invariant piece.Profile() == EmitModalities(before, family, moveModalities[..j], keys, distance)
      invariant piece.name == old(piece.name) && piece.betza == old(piece.betza)
    {
      var modality := moveModalities[j];
      assert moveModalities[..j + 1][..j] == moveModalities[..j];
      var move := piece.Profile().Get(family, modality);
      var updated := WriteMove(move, atom, directions, distance);
      piece.Store(family, modality, updated);
    }
    assert moveModalities[..|moveModalities|] == moveModalities;
  }

  /** The atom branch of the scan: the atom's shapes, the rider flag and the
      distance code its lookahead sets, the default modalities, and the writes. */
  method EmitAtom(piece: PieceInfo, betza: string, i: int, modalities: seq<Modality>, prelimDirections: seq<Code>,
                  hopper: bool, lame: bool, crooked: bool, distance0: int)
    requires 0 <= i < |betza| && IsAtomLetter(betza[i])
    modifies piece
    ensures piece.Profile() == EmitAtoms(old(piece.Profile()),
      GroupAt(betza, i, Pending(modalities, prelimDirections, hopper, lame, crooked, distance0)), |AtomsOf(betza[i])|)
    ensures piece.name == old(piece.name) && piece.betza == old(piece.betza)
  {
    var character := betza[i];
    LetterClasses(character);
    var moveModalities := modalities;
    var rider := false;
    var distance := distance0;
    var atoms := if character in RiderAtoms then RiderAtoms[character] else LeaperAtoms[character];
    if character in RiderAtoms {
      rider := true;
    }
    if i + 1 < |betza| && ('0' <= betza[i + 1] <= '9' || betza[i + 1] == character) {
      rider := true;
      if '0' <= betza[i + 1] <= '9' {
        distance := betza[i + 1] as int - '0' as int;
      }
    }
    if !rider && lame {
      distance := -1;
    }
    if |moveModalities| == 0 {
      moveModalities := moveModalities + [QUIET];
      moveModalities := moveModalities + [CAPTURE];
    }
    assert atoms == AtomsOf(character);
    assert rider == (IsRiderLetter(character) || Extended(betza, i));
    ghost var gr := GroupAt(betza, i, Pending(modalities, prelimDirections, hopper, lame, crooked, distance0));
    assert atoms == gr.atoms && prelimDirections == gr.directions;
    assert moveModalities == gr.modalities;
    assert SelectFamily(hopper, rider, crooked) == gr.family;
    assert distance == gr.distance;
    EmitGroup(piece, atoms, prelimDirections, moveModalities, hopper, rider, crooked, distance);
  }

  /** Compiles a notation string into a fresh piece, one character at a time;
      a lookahead character is examined again on the next iteration. */
  method FromBetza(betza: string) returns (newPiece: PieceInfo)
    ensures fresh(newPiece)
    ensures newPiece.name == "" && newPiece.betza == ""
    ensures newPiece.Profile() == Compile(betza)
  {
    newPiece := new PieceInfo();
    var moveModalities: seq<Modality> := [];
    var hopper := false;
    var lame := false;
    var crooked := false;
    var distance := 0;
    var prelimDirections: seq<Code> := [];
    for i := 0 to |betza|
      invariant Pending(moveModalities, prelimDirections, hopper, lame, crooked, distance) == PendingAt(betza, i)
      invariant newPiece.Profile() == ProfileAt(betza, i)
      invariant newPiece.name == "" && newPiece.betza == ""
    {
      ghost var pend := PendingAt(betza, i);
      ghost var prof := ProfileAt(betza, i);
      var character := betza[i];
      LetterClasses(character);
      if i + 1 < |betza| {
        LetterClasses(betza[i + 1]);
      }
      if character == 'm' || character == 'c' {
        if character == 'c' {
          moveModalities := moveModalities + [CAPTURE];
        } else {
          moveModalities := moveModalities + [QUIET];
        }
      } else if character == 'p' || character == 'g' || character == 'j' {
        hopper := true;
        if character == 'g' || character == 'j' {
          distance := 1;
        }
      } else if character == 'n' {
        lame := true;
      } else if character == 'z' {
        crooked := true;
      } else if character in Verticals || character in Horizontals {
        if i + 1 < |betza| && (betza[i + 1] == character
                               || (character in Verticals && betza[i + 1] in Horizontals)
                               || (character in Horizontals && betza[i + 1] in Verticals)) {
          prelimDirections := prelimDirections + [[character, betza[i + 1]]];
        } else {
          prelimDirections := prelimDirections + [[character, character]];
        }
      } else if character in LeaperAtoms || character in RiderAtoms {
        EmitAtom(newPiece, betza, i, moveModalities, prelimDirections, hopper, lame, crooked, distance);
        moveModalities := [];
        prelimDirections := [];
        hopper := false;
        lame := false;
        crooked := false;
        distance := 0;
      }
    }
  }

  // ---------------------------------------------------------------------------
  // Properties of the compiled maps

  /** Whether letter `c` occurs among characters k .. n-1. */
  predicate HasLetter(betza: string, k: int, n: int, c: char)
    requires 0 <= k <= n <= |betza|
  {
    exists j :: k <= j < n && betza[j] == c
  }

  /** A window of the notation that starts right after an atom letter (or at
      the beginning) and holds no atom letter before position n. */
  predicate GroupWindow(betza: string, k: int, n: int) {
    && 0 <= k <= n <= |betza|
    && (k == 0 || IsAtomLetter(betza[k - 1]))
    && (forall j :: k <= j < n ==> !IsAtomLetter(betza[j]))
  }

  /** The modality letters of a string, in order. */
  function ModalityLetters(t: string): seq<Modality> {
    if t == [] then []
    else
      var last := t[|t| - 1];
      ModalityLetters(t[..|t| - 1]) + (if last == 'm' then [QUIET] else if last == 'c' then [CAPTURE] else [])
  }

  /** The direction letters of a string, in order. */
  function DirectionLetters(t: string): string {
    if t == [] then []
    else DirectionLetters(t[..|t| - 1]) + (if IsDirectionLetter(t[|t| - 1]) then [t[|t| - 1]] else [])
  }

  function ModalityLetter(m: Modality): char {
    if m == QUIET then 'm' else 'c'
  }

  /** A modality is listed exactly when its letter occurs. */
  lemma {:induction false} ModalityLettersMembers(t: string, m: Modality)
    ensures m in ModalityLetters(t) <==> ModalityLetter(m) in t
  {
    if t != [] {
      var init := t[..|t| - 1];
      ModalityLettersMembers(init, m);
      assert t == init + [t[|t| - 1]];
      assert ModalityLetter(m) in t <==> ModalityLetter(m) in init || ModalityLetter(m) == t[|t| - 1];
    }
  }

  /** A character other than an atom letter changes only the pending state. */
  lemma StepKeepsProfile(betza: string, i: int, pend: Pending, prof: MovementProfile)
    requires 0 <= i < |betza| && !IsAtomLetter(betza[i])
    ensures StepProfile(betza, i, pend, prof) == prof
  {
  }

  /** An atom letter clears the pending state. */
  lemma AtomClears(betza: string, i: int)
    requires 0 <= i < |betza| && IsAtomLetter(betza[i])
    ensures PendingAt(betza, i + 1) == Cleared
  {
    var c := betza[i];
    assert !IsModalityLetter(c) && !IsHopperLetter(c) && c != 'n' && c != 'z' && !IsDirectionLetter(c);
  }

  lemma StepPendingShift(betza: string, k: int, i: int, pend: Pending)
    requires 0 <= k <= i < |betza|
    ensures StepPending(betza, i, pend) == StepPending(betza[k..], i - k, pend)
  {
    assert betza[k..][i - k] == betza[i];
    if i + 1 < |betza| {
      assert betza[k..][i - k + 1] == betza[i + 1];
    }
    assert CodeAt(betza, i) == CodeAt(betza[k..], i - k);
  }

  /** One step of the scan keeps the agreement of the whole notation and its suffix. */
  lemma PendingShiftStep(betza: string, k: int, n: int)
    requires 0 <= k < n <= |betza| && PendingAt(betza, n - 1) == PendingAt(betza[k..], n - 1 - k)
    ensures PendingAt(betza, n) == PendingAt(betza[k..], n - k)
  {
    StepPendingShift(betza, k, n - 1, PendingAt(betza, n - 1));
  }

  /** The pending state is that of the characters since the last atom letter:
      scanning from just after that atom gives the same state. */
  lemma {:induction false} PendingSinceLastAtom(betza: string, k: int, n: int)
    requires 0 <= k <= n <= |betza|
    requires k == 0 || IsAtomLetter(betza[k - 1])
    ensures PendingAt(betza, n) == PendingAt(betza[k..], n - k)
  {
    if n == k {
      WindowStart(betza, k);
      assert PendingAt(betza[k..], 0) == Cleared;
    } else {
      PendingSinceLastAtom(betza, k, n - 1);
      PendingShiftStep(betza, k, n);
    }
  }

  /** So the group an atom letter emits depends only on the characters from
      the end of the previous group on (its own lookahead included). */
  lemma GroupSinceLastAtom(betza: string, k: int, i: int)
    requires 0 <= k <= i < |betza| && IsAtomLetter(betza[i])
    requires k == 0 || IsAtomLetter(betza[k - 1])
    ensures GroupAt(betza, i, PendingAt(betza, i)) == GroupAt(betza[k..], i - k, PendingAt(betza[k..], i - k))
  {
    PendingSinceLastAtom(betza, k, i);
    assert betza[k..][i - k] == betza[i];
    if i + 1 < |betza| {
      assert betza[k..][i - k + 1] == betza[i + 1];
    }
  }

  /** Extending a window by a character that is not `x` leaves the occurrence
      of `x` unchanged. */
  lemma HasLetterExtend(betza: string, k: int, n: int, x: char)
    requires 0 <= k < n <= |betza|
    ensures HasLetter(betza, k, n, x) <==> HasLetter(betza, k, n - 1, x) || betza[n - 1] == x
  {
    if HasLetter(betza, k, n, x) && betza[n - 1] != x {
      var j :| k <= j < n && betza[j] == x;
      assert k <= j < n - 1;
    }
  }

  lemma WindowShrinks(betza: string, k: int, n: int)
    requires GroupWindow(betza, k, n) && k < n
    ensures GroupWindow(betza, k, n - 1)
    ensures betza[k..n] == betza[k..n - 1] + [betza[n - 1]]
    ensures betza[k..n][..n - k - 1] == betza[k..n - 1]
    ensures PendingAt(betza, n) == StepPending(betza, n - 1, PendingAt(betza, n - 1))
  {
  }

  lemma WindowStart(betza: string, k: int)
    requires 0 <= k <= |betza| && (k == 0 || IsAtomLetter(betza[k - 1]))
    ensures PendingAt(betza, k) == Cleared
    ensures betza[k..k] == []
  {
    if k > 0 {
      AtomClears(betza, k - 1);
    }
  }

  /** The pending modalities are the window's modality letters, in order. */
  lemma {:induction false} PendingModalities(betza: string, k: int, n: int)
    requires GroupWindow(betza, k, n)
    ensures PendingAt(betza, n).modalities == ModalityLetters(betza[k..n])
  {
    if n == k {
      WindowStart(betza, k);
    } else {
      WindowShrinks(betza, k, n);
      PendingModalities(betza, k, n - 1);
      LettersStep(betza, k, n);
      ModalityStep(betza, n - 1, PendingAt(betza, n - 1));
    }
  }

  /** The letters of a window grow by its last character. */
  lemma LettersStep(betza: string, k: int, n: int)
    requires 0 <= k < n <= |betza|
    ensures var c := betza[n - 1];
      && ModalityLetters(betza[k..n])
         == ModalityLetters(betza[k..n - 1]) + (if c == 'm' then [QUIET] else if c == 'c' then [CAPTURE] else [])
      && DirectionLetters(betza[k..n]) == DirectionLetters(betza[k..n - 1]) + (if IsDirectionLetter(c) then [c] else [])
  {
    var t := betza[k..n];
    assert t[..|t| - 1] == betza[k..n - 1] && t[|t| - 1] == betza[n - 1];
  }

  /** A letter of a window appends its modality, if it names one. */
  lemma ModalityStep(betza: string, i: int, pend: Pending)
    requires 0 <= i < |betza| && !IsAtomLetter(betza[i])
    ensures var c := betza[i];
      StepPending(betza, i, pend).modalities
      == pend.modalities + (if c == 'm' then [QUIET] else if c == 'c' then [CAPTURE] else [])
  {
  }

  /** How a letter of a window sets the flags and the distance code. */
  lemma FlagStep(betza: string, i: int, pend: Pending)
    requires 0 <= i < |betza| && !IsAtomLetter(betza[i])
    ensures var c := betza[i];
      var next := StepPending(betza, i, pend);
      && (next.hopper <==> pend.hopper || c == 'p' || c == 'g' || c == 'j')
      && (next.lame <==> pend.lame || c == 'n')
      && (next.crooked <==> pend.crooked || c == 'z')
      && next.distance == (if c == 'g' || c == 'j' then 1 else pend.distance)
  {
  }

  /** The pending flags, stated by the letters of the window: a hopper flag
      exactly when p, g or j occurs, the lame and crooked flags exactly when
      n or z occurs, and distance 1 exactly when g or j occurs. */
  lemma {:induction false} PendingFlags(betza: string, k: int, n: int)
    requires GroupWindow(betza, k, n)
    ensures var pend := PendingAt(betza, n);
      && (pend.hopper <==> HasLetter(betza, k, n, 'p') || HasLetter(betza, k, n, 'g') || HasLetter(betza, k, n, 'j'))
      && (pend.lame <==> HasLetter(betza, k, n, 'n'))
      && (pend.crooked <==> HasLetter(betza, k, n, 'z'))
      && pend.distance == (if HasLetter(betza, k, n, 'g') || HasLetter(betza, k, n, 'j') then 1 else 0)
  {
    if n == k {
      WindowStart(betza, k);
    } else {
      WindowShrinks(betza, k, n);
      PendingFlags(betza, k, n - 1);
      FlagStep(betza, n - 1, PendingAt(betza, n - 1));
      HasLetterExtend(betza, k, n, 'p');
      HasLetterExtend(betza, k, n, 'g');
      HasLetterExtend(betza, k, n, 'j');
      HasLetterExtend(betza, k, n, 'n');
      HasLetterExtend(betza, k, n, 'z');
    }
  }

  /** The codes the direction letters of betza[k..n] stand for, in order: each
      letter with the character after it when the two form a code, and the
      letter doubled otherwise. */
  function WindowCodes(betza: string, k: int, n: int): seq<Code>
    requires 0 <= k <= n <= |betza|
    decreases n - k
  {
    if n == k then []
    else WindowCodes(betza, k, n - 1) + (if IsDirectionLetter(betza[n - 1]) then [CodeAt(betza, n - 1)] else [])
  }

  /** One pending code per direction letter of the window, led by that letter
      and completed by a direction letter; code by code, they are the window's
      codes. */
  lemma {:induction false} PendingCodes(betza: string, k: int, n: int)
    requires GroupWindow(betza, k, n)
    ensures CodesMatch(PendingAt(betza, n).directions, DirectionLetters(betza[k..n]))
    ensures PendingAt(betza, n).directions == WindowCodes(betza, k, n)
  {
    if n == k {
      WindowStart(betza, k);
    } else {
      WindowShrinks(betza, k, n);
      PendingCodes(betza, k, n - 1);
      var c := betza[n - 1];
      var pend := PendingAt(betza, n - 1);
      LettersStep(betza, k, n);
      if IsDirectionLetter(c) {
        DirectionStep(betza, n - 1, pend);
        CodesExtend(pend.directions, DirectionLetters(betza[k..n - 1]), CodeAt(betza, n - 1), c);
      } else {
        OtherStep(betza, n - 1, pend);
      }
    }
  }

  /** `codes` has one code per letter of `letters`, led by that letter and
      completed by a direction letter. */
  predicate CodesMatch(codes: seq<Code>, letters: string) {
    && |codes| == |letters|
    && (forall t :: 0 <= t < |codes| ==> codes[t][0] == letters[t] && IsDirectionLetter(codes[t][1]))
  }

  lemma CodesExtend(codes: seq<Code>, letters: string, code: Code, c: char)
    requires CodesMatch(codes, letters) && code[0] == c && IsDirectionLetter(code[1])
    ensures CodesMatch(codes + [code], letters + [c])
  {
  }

  /** A direction letter appends its code and changes no other pending part. */
  lemma DirectionStep(betza: string, i: int, pend: Pending)
    requires 0 <= i < |betza| && IsDirectionLetter(betza[i])
    ensures StepPending(betza, i, pend).directions == pend.directions + [CodeAt(betza, i)]
    ensures CodeAt(betza, i)[0] == betza[i] && IsDirectionLetter(CodeAt(betza, i)[1])
  {
    var c := betza[i];
    assert !IsModalityLetter(c) && !IsHopperLetter(c) && c != 'n' && c != 'z';
  }

  /** Any other letter of a window leaves the pending codes as they are. */
  lemma OtherStep(betza: string, i: int, pend: Pending)
    requires 0 <= i < |betza| && !IsDirectionLetter(betza[i]) && !IsAtomLetter(betza[i])
    ensures StepPending(betza, i, pend).directions == pend.directions
  {
  }

  lemma HasLetterIn(betza: string, k: int, n: int, c: char)
    requires 0 <= k <= n <= |betza|
    ensures HasLetter(betza, k, n, c) <==> c in betza[k..n]
  {
    if c in betza[k..n] {
      var j :| 0 <= j < n - k && betza[k..n][j] == c;
      assert betza[k + j] == c;
    }
    if HasLetter(betza, k, n, c) {
      var j :| k <= j < n && betza[j] == c;
      assert betza[k..n][j - k] == c;
    }
  }

  /** The modalities of the group an atom letter emits: both when no m or c
      occurs in its window, otherwise those whose letter occurs. */
  lemma GroupModalitiesFromLetters(betza: string, k: int, i: int)
    requires GroupWindow(betza, k, i) && i < |betza| && IsAtomLetter(betza[i])
    ensures forall m: Modality :: m in GroupAt(betza, i, PendingAt(betza, i)).modalities <==>
      (!HasLetter(betza, k, i, 'm') && !HasLetter(betza, k, i, 'c')) || HasLetter(betza, k, i, ModalityLetter(m))
  {
    var t := betza[k..i];
    var letters := ModalityLetters(t);
    var mods := GroupAt(betza, i, PendingAt(betza, i)).modalities;
    PendingModalities(betza, k, i);
    assert mods == if letters == [] then [QUIET, CAPTURE] else letters;
    HasLetterIn(betza, k, i, 'm');
    HasLetterIn(betza, k, i, 'c');
    forall m: Modality
      ensures m in mods <==> (!HasLetter(betza, k, i, 'm') && !HasLetter(betza, k, i, 'c')) || HasLetter(betza, k, i, ModalityLetter(m))
    {
      DefaultModality(t, m);
      assert ModalityLetter(m) == 'm' || ModalityLetter(m) == 'c';
    }
  }

  /** Whether a group takes modality `m` from the letters `t` of its window. */
  lemma DefaultModality(t: string, m: Modality)
    ensures var letters := ModalityLetters(t);
      m in (if letters == [] then [QUIET, CAPTURE] else letters) <==> ('m' !in t && 'c' !in t) || ModalityLetter(m) in t
  {
    var letters := ModalityLetters(t);
    ModalityLettersMembers(t, QUIET);
    ModalityLettersMembers(t, CAPTURE);
    if letters != [] {
      assert letters[0] == QUIET || letters[0] == CAPTURE;
      assert 'm' in t || 'c' in t;
    }
    assert m == QUIET || m == CAPTURE;
  }

  /** The family and distance code of the group an atom letter emits. */
  lemma GroupFamilyFromLetters(betza: string, k: int, i: int)
    requires GroupWindow(betza, k, i) && i < |betza| && IsAtomLetter(betza[i])
    ensures var gr := GroupAt(betza, i, PendingAt(betza, i));
      var rider := IsRiderLetter(betza[i]) || Extended(betza, i);
      var crooked := HasLetter(betza, k, i, 'z');
      var hopper := HasLetter(betza, k, i, 'p') || HasLetter(betza, k, i, 'g') || HasLetter(betza, k, i, 'j');
      && (gr.family == Crooked <==> crooked)
      && (gr.family == Hopper <==> !crooked && hopper)
      && (gr.family == Slider <==> !crooked && !hopper && rider)
      && (gr.family == Steps <==> !crooked && !hopper && !rider)
      && gr.distance == (if Extended(betza, i) && IsDigit(betza[i + 1]) then betza[i + 1] as int - '0' as int
                         else if !rider && HasLetter(betza, k, i, 'n') then -1
                         else if HasLetter(betza, k, i, 'g') || HasLetter(betza, k, i, 'j') then 1
                         else 0)
  {
    PendingFlags(betza, k, i);
  }

  /** The group an atom letter emits, stated by the letters of its window and
      its own lookahead: the atom's shapes; both modalities when no m or c
      occurs, otherwise those whose letter occurs; the family by precedence
      crooked, hopper, rider, steps; and the distance code. */
  lemma GroupFromLetters(betza: string, k: int, i: int)
    requires GroupWindow(betza, k, i) && i < |betza| && IsAtomLetter(betza[i])
    ensures var gr := GroupAt(betza, i, PendingAt(betza, i));
      var rider := IsRiderLetter(betza[i]) || Extended(betza, i);
      var crooked := HasLetter(betza, k, i, 'z');
      var hopper := HasLetter(betza, k, i, 'p') || HasLetter(betza, k, i, 'g') || HasLetter(betza, k, i, 'j');
      && gr.atoms == AtomsOf(betza[i])
      && gr.directions == WindowCodes(betza, k, i)
      && (forall m: Modality :: m in gr.modalities <==>
            (!HasLetter(betza, k, i, 'm') && !HasLetter(betza, k, i, 'c')) || HasLetter(betza, k, i, ModalityLetter(m)))
      && (gr.family == Crooked <==> crooked)
      && (gr.family == Hopper <==> !crooked && hopper)
      && (gr.family == Slider <==> !crooked && !hopper && rider)
      && (gr.family == Steps <==> !crooked && !hopper && !rider)
      && gr.distance == (if Extended(betza, i) && IsDigit(betza[i + 1]) then betza[i + 1] as int - '0' as int
                         else if !rider && HasLetter(betza, k, i, 'n') then -1
                         else if HasLetter(betza, k, i, 'g') || HasLetter(betza, k, i, 'j') then 1
                         else 0)
  {
    GroupModalitiesFromLetters(betza, k, i);
    GroupFamilyFromLetters(betza, k, i);
    PendingCodes(betza, k, i);
  }

  /** An atom letter writes its group's keys with its distance code into the
      maps of its family for its modalities, and changes no other map. */
  lemma AtomWrites(betza: string, i: int)
    requires 0 <= i < |betza| && IsAtomLetter(betza[i])
    ensures var before := ProfileAt(betza, i);
      var gr := GroupAt(betza, i, PendingAt(betza, i));
      forall f, m ::
        (ProfileAt(betza, i + 1).Get(f, m)
         == if f == gr.family && m in gr.modalities then Assign(before.Get(f, m), GroupKeys(gr, |gr.atoms|), gr.distance)
            else before.Get(f, m))
  {
    var gr := GroupAt(betza, i, PendingAt(betza, i));
    ScanAtom(betza, i, PendingAt(betza, i), ProfileAt(betza, i), gr);
    EmitAtomsEffect(ProfileAt(betza, i), gr, |gr.atoms|);
  }

  /** A group with no direction codes writes every image of its atoms. */
  lemma {:induction false} UnrestrictedGroupKeys(gr: Group, n: int)
    requires 0 <= n <= |gr.atoms| && gr.directions == []
    ensures forall a :: 0 <= a < n ==> AtomImages(gr.atoms[a]) <= GroupKeys(gr, n)
  {
    if n > 0 {
      UnrestrictedGroupKeys(gr, n - 1);
      var earlier, last := GroupKeys(gr, n - 1), SelectedKeys(gr.atoms[n - 1], AtomDirections(gr, n - 1));
      assert AtomDirections(gr, n - 1) == [];
      UnrestrictedSelectsAll(gr.atoms[n - 1], AtomDirections(gr, n - 1));
      assert GroupKeys(gr, n) == earlier + last;
      forall a | 0 <= a < n
        ensures AtomImages(gr.atoms[a]) <= GroupKeys(gr, n)
      {
        if a < n - 1 {
          WithinUnion(AtomImages(gr.atoms[a]), earlier, last);
        }
      }
    }
  }

  lemma WithinUnion(x: set<int>, a: set<int>, b: set<int>)
    requires x <= a
    ensures x <= a + b
  {
  }

  /** A key is one of the eight images of a table atom. */
  predicate TableKey(key: int) {
    exists a :: a in TableAtoms && key in AtomImages(a)
  }

  /** Every compiled map holds only images of table atoms, with distance codes
      between -1 (lame leaper) and 9 (the largest digit). */
  predicate WellFormed(p: MovementProfile) {
    forall f, m, key :: key in p.Get(f, m) ==> TableKey(key) && -1 <= p.Get(f, m)[key] <= 9
  }

  /** A group's distance code lies between -1 and 9. */
  lemma GroupDistanceBounds(betza: string, i: int, pend: Pending)
    requires 0 <= i < |betza| && IsAtomLetter(betza[i]) && 0 <= pend.distance <= 1
    ensures -1 <= GroupAt(betza, i, pend).distance <= 9
  {
  }

  /** A group of table atoms with a distance code between -1 and 9 keeps a
      profile well formed. */
  lemma EmitWellFormed(p: MovementProfile, gr: Group)
    requires WellFormed(p)
    requires forall a :: a in gr.atoms ==> a in TableAtoms
    requires -1 <= gr.distance <= 9
    ensures WellFormed(EmitAtoms(p, gr, |gr.atoms|))
  {
    var after := EmitAtoms(p, gr, |gr.atoms|);
    EmitAtomsEffect(p, gr, |gr.atoms|);
    forall f, m, key | key in after.Get(f, m)
      ensures TableKey(key) && -1 <= after.Get(f, m)[key] <= 9
    {
      if f == gr.family && m in gr.modalities && key in GroupKeys(gr, |gr.atoms|) {
        GroupKeysWithinImages(gr, |gr.atoms|, key);
        var a :| a in gr.atoms && key in AtomImages(a);
        assert a in TableAtoms;
      }
    }
  }

  /** An atom letter keeps the maps well formed. */
  lemma AtomWellFormed(betza: string, i: int)
    requires 0 <= i < |betza| && IsAtomLetter(betza[i])
    requires WellFormed(ProfileAt(betza, i)) && 0 <= PendingAt(betza, i).distance <= 1
    ensures WellFormed(ProfileAt(betza, i + 1))
  {
    var gr := GroupAt(betza, i, PendingAt(betza, i));
    ScanAtom(betza, i, PendingAt(betza, i), ProfileAt(betza, i), gr);
    AtomsOfInTable(betza[i]);
    GroupDistanceBounds(betza, i, PendingAt(betza, i));
    EmitWellFormed(ProfileAt(betza, i), gr);
  }

  /** The scan keeps the maps well formed and the pending distance 0 or 1. */
  lemma {:induction false} ScanWellFormed(betza: string, n: int)
    requires 0 <= n <= |betza|
    ensures WellFormed(ProfileAt(betza, n))
    ensures 0 <= PendingAt(betza, n).distance <= 1
  {
    if n > 0 {
      ScanWellFormed(betza, n - 1);
      if IsAtomLetter(betza[n - 1]) {
        AtomWellFormed(betza, n - 1);
        AtomClears(betza, n - 1);
      } else {
        StepKeepsProfile(betza, n - 1, PendingAt(betza, n - 1), ProfileAt(betza, n - 1));
      }
    }
  }

  /** Every compiled notation is well formed. */
  lemma CompileWellFormed(betza: string)
    ensures WellFormed(Compile(betza))
  {
    ScanWellFormed(betza, |betza|);
  }

  /** No compiled key is 0, the key for which the crooked decomposition's
      determinant vanishes. */
  lemma CompiledKeysNonZero(betza: string, f: Family, m: Modality, key: int)
    requires key in Compile(betza).Get(f, m)
    ensures key != 0
  {
    CompileWellFormed(betza);
    TableKeyNonZero(key);
  }

  lemma TableKeyNonZero(key: int)
    requires TableKey(key)
    ensures key != 0
  {
    var a :| a in TableAtoms && key in AtomImages(a);
    assert 1 <= a.0 <= 3 && 0 <= a.1 <= a.0;
    AtomImagesNonZero(a.0, a.1);
  }

  lemma AtomImagesNonZero(a0: int, a1: int)
    requires 1 <= a0 <= 3 && 0 <= a1 <= a0
    ensures 0 !in AtomImages((a0, a1))
  {
    assert FILE_NB == 8;
    assert a0 * FILE_NB >= 8;
    assert a1 == 0 || a1 * FILE_NB >= 8;
  }

  /** One scan step over a character other than an atom letter. */
  lemma ScanOther(betza: string, i: int, pend: Pending, prof: MovementProfile, next: Pending)
    requires 0 <= i < |betza| && !IsAtomLetter(betza[i])
    requires PendingAt(betza, i) == pend && ProfileAt(betza, i) == prof && StepPending(betza, i, pend) == next
    ensures PendingAt(betza, i + 1) == next && ProfileAt(betza, i + 1) == prof
  {
  }

  /** One scan step over an atom letter. */
  lemma ScanAtom(betza: string, i: int, pend: Pending, prof: MovementProfile, gr: Group)
    requires 0 <= i < |betza| && IsAtomLetter(betza[i])
    requires PendingAt(betza, i) == pend && ProfileAt(betza, i) == prof && GroupAt(betza, i, pend) == gr
    ensures PendingAt(betza, i + 1) == Cleared && ProfileAt(betza, i + 1) == EmitAtoms(prof, gr, |gr.atoms|)
  {
    AtomClears(betza, i);
    var c := betza[i];
    assert !IsModalityLetter(c) && !IsHopperLetter(c) && c != 'n' && c != 'z' && !IsDirectionLetter(c);
  }

  /** The writes of a group into an empty profile. */
  lemma {:induction false} GroupIntoEmpty(gr: Group, keys: set<int>)
    requires keys == GroupKeys(gr, |gr.atoms|)
    ensures forall f, m ::
      (EmitAtoms(EmptyProfile, gr, |gr.atoms|).Get(f, m)
       == if f == gr.family && m in gr.modalities then Assign(map[], keys, gr.distance) else map[])
  {
    EmitAtomsEffect(EmptyProfile, gr, |gr.atoms|);
  }

  lemma GroupIntoEmptyAs(c: MovementProfile, gr: Group, keys: set<int>, written: MoveMap)
    requires c == EmitAtoms(EmptyProfile, gr, |gr.atoms|)
    requires keys == GroupKeys(gr, |gr.atoms|) && written == Assign(map[], keys, gr.distance)
    ensures forall f, m :: c.Get(f, m) == if f == gr.family && m in gr.modalities then written else map[]
  {
    GroupIntoEmpty(gr, keys);
  }

  lemma ForwardFerzLetters(s: string, gr: Group)
    requires s == "fF" && gr == Group([(1, 1)], ["ff"], [QUIET, CAPTURE], Steps, 0)
    ensures !IsAtomLetter(s[0]) && StepPending(s, 0, Cleared) == Pending([], ["ff"], false, false, false, 0)
    ensures IsAtomLetter(s[1]) && GroupAt(s, 1, Pending([], ["ff"], false, false, false, 0)) == gr
  {
  }

  lemma ForwardFerzScan(s: string, gr: Group)
    requires s == "fF" && gr == Group([(1, 1)], ["ff"], [QUIET, CAPTURE], Steps, 0)
    ensures Compile(s) == EmitAtoms(EmptyProfile, gr, 1)
  {
    ForwardFerzLetters(s, gr);
    ScanOther(s, 0, Cleared, EmptyProfile, Pending([], ["ff"], false, false, false, 0));
    ScanAtom(s, 1, Pending([], ["ff"], false, false, false, 0), EmptyProfile, gr);
  }

  lemma ForwardFerzWrites(c: MovementProfile, gr: Group)
    requires gr == Group([(1, 1)], ["ff"], [QUIET, CAPTURE], Steps, 0) && c == EmitAtoms(EmptyProfile, gr, 1)
    ensures forall m :: c.Get(Steps, m) == map[9 := 0, 7 := 0]
    ensures forall f, m :: f != Steps ==> c.Get(f, m) == map[]
  {
    ForwardGroupKeys(gr);
    assert Assign(map[], {9, 7}, 0) == map[9 := 0, 7 := 0];
    GroupIntoEmpty(gr, {9, 7});
  }

  /** The example of a lone forward ferz: quiet and capture steps 9 and 7,
      nothing in the other families. */
  lemma ForwardFerz()
    ensures forall m :: Compile("fF").Get(Steps, m) == map[9 := 0, 7 := 0]
    ensures forall f, m :: f != Steps ==> Compile("fF").Get(f, m) == map[]
  {
    ForwardFerzScan("fF", Group([(1, 1)], ["ff"], [QUIET, CAPTURE], Steps, 0));
    ForwardFerzWrites(Compile("fF"), Group([(1, 1)], ["ff"], [QUIET, CAPTURE], Steps, 0));
  }

  lemma PawnFirstGroup(s: string, g1: Group)
    requires s == "fmWfcF" && g1 == Group([(1, 0)], ["ff"], [QUIET], Steps, 0)
    ensures !IsAtomLetter(s[0]) && StepPending(s, 0, Cleared) == Pending([], ["ff"], false, false, false, 0)
    ensures !IsAtomLetter(s[1]) && StepPending(s, 1, Pending([], ["ff"], false, false, false, 0)) == Pending([QUIET], ["ff"], false, false, false, 0)
    ensures IsAtomLetter(s[2]) && GroupAt(s, 2, Pending([QUIET], ["ff"], false, false, false, 0)) == g1
  {
  }

  lemma PawnSecondGroup(s: string, g2: Group)
    requires s == "fmWfcF" && g2 == Group([(1, 1)], ["ff"], [CAPTURE], Steps, 0)
    ensures !IsAtomLetter(s[3]) && StepPending(s, 3, Cleared) == Pending([], ["ff"], false, false, false, 0)
    ensures !IsAtomLetter(s[4]) && StepPending(s, 4, Pending([], ["ff"], false, false, false, 0)) == Pending([CAPTURE], ["ff"], false, false, false, 0)
    ensures IsAtomLetter(s[5]) && GroupAt(s, 5, Pending([CAPTURE], ["ff"], false, false, false, 0)) == g2
  {
  }

  lemma PawnScan(s: string, g1: Group, g2: Group)
    requires s == "fmWfcF"
    requires g1 == Group([(1, 0)], ["ff"], [QUIET], Steps, 0) && g2 == Group([(1, 1)], ["ff"], [CAPTURE], Steps, 0)
    ensures Compile(s) == EmitAtoms(EmitAtoms(EmptyProfile, g1, 1), g2, 1)
  {
    PawnFirstGroup(s, g1);
    PawnSecondGroup(s, g2);
    var p1 := EmitAtoms(EmptyProfile, g1, 1);
    var forward := Pending([], ["ff"], false, false, false, 0);
    ScanOther(s, 0, Cleared, EmptyProfile, forward);
    ScanOther(s, 1, forward, EmptyProfile, Pending([QUIET], ["ff"], false, false, false, 0));
    ScanAtom(s, 2, Pending([QUIET], ["ff"], false, false, false, 0), EmptyProfile, g1);
    ScanOther(s, 3, Cleared, p1, forward);
    ScanOther(s, 4, forward, p1, Pending([CAPTURE], ["ff"], false, false, false, 0));
    ScanAtom(s, 5, Pending([CAPTURE], ["ff"], false, false, false, 0), p1, g2);
  }

  /** A one-atom group writes the keys its atom selects. */
  lemma OneAtomKeys(g: Group, keys: set<int>)
    requires |g.atoms| == 1 && keys == SelectedKeys(g.atoms[0], AtomDirections(g, 0))
    ensures GroupKeys(g, 1) == keys
  {
  }

  /** A one-atom group restricted by "ff" filters its atom by "ff" alone. */
  lemma ForwardDirections(g: Group)
    requires |g.atoms| == 1 && g.directions == ["ff"]
    ensures AtomDirections(g, 0) == ["ff"]
  {
    ExpandedDoubled(g.directions, g.atoms[0].1 == 0);
  }

  /** A one-atom group restricted by "ff" writes the two forward images. */
  lemma ForwardGroupKeys(g: Group)
    requires |g.atoms| == 1 && g.directions == ["ff"]
    ensures GroupKeys(g, 1) == {g.atoms[0].0 * FILE_NB + g.atoms[0].1, g.atoms[0].0 * FILE_NB - g.atoms[0].1}
  {
    ForwardDirections(g);
    ForwardSelects(g.atoms[0], AtomDirections(g, 0));
    OneAtomKeys(g, {g.atoms[0].0 * FILE_NB + g.atoms[0].1, g.atoms[0].0 * FILE_NB - g.atoms[0].1});
  }

  lemma PawnFirstWrites(c1: MovementProfile, g1: Group)
    requires g1 == Group([(1, 0)], ["ff"], [QUIET], Steps, 0) && c1 == EmitAtoms(EmptyProfile, g1, 1)
    ensures forall f, m :: c1.Get(f, m) == if f == Steps && m == QUIET then map[8 := 0] else map[]
  {
    ForwardGroupKeys(g1);
    assert Assign(map[], {8}, 0) == map[8 := 0];
    GroupIntoEmptyAs(c1, g1, {8}, map[8 := 0]);
  }

  lemma PawnWrites(c: MovementProfile, c1: MovementProfile, g2: Group)
    requires g2 == Group([(1, 1)], ["ff"], [CAPTURE], Steps, 0) && c == EmitAtoms(c1, g2, 1)
    requires forall f, m :: c1.Get(f, m) == if f == Steps && m == QUIET then map[8 := 0] else map[]
    ensures c.Get(Steps, QUIET) == map[8 := 0]
    ensures c.Get(Steps, CAPTURE) == map[9 := 0, 7 := 0]
    ensures forall f, m :: f != Steps ==> c.Get(f, m) == map[]
  {
    ForwardGroupKeys(g2);
    assert Assign(map[], {9, 7}, 0) == map[9 := 0, 7 := 0];
    EmitAtomsEffect(c1, g2, 1);
  }

  /** The pawn of the source's examples: a quiet step forward and capturing
      steps diagonally forward. */
  lemma Pawn()
    ensures Compile("fmWfcF").Get(Steps, QUIET) == map[8 := 0]
    ensures Compile("fmWfcF").Get(Steps, CAPTURE) == map[9 := 0, 7 := 0]
    ensures forall f, m :: f != Steps ==> Compile("fmWfcF").Get(f, m) == map[]
  {
    PawnScan("fmWfcF", Group([(1, 0)], ["ff"], [QUIET], Steps, 0), Group([(1, 1)], ["ff"], [CAPTURE], Steps, 0));
    var g1 := Group([(1, 0)], ["ff"], [QUIET], Steps, 0);
    PawnFirstWrites(EmitAtoms(EmptyProfile, g1, 1), g1);
    PawnWrites(Compile("fmWfcF"), EmitAtoms(EmptyProfile, g1, 1), Group([(1, 1)], ["ff"], [CAPTURE], Steps, 0));
  }

  /** The eight images of the knight, each with distance code `d`. */
  function KnightMap(d: int): MoveMap {
    map[17 := d, -17 := d, 15 := d, -15 := d, 10 := d, -10 := d, 6 := d, -6 := d]
  }

  lemma KnightKeys(g: Group, d: int)
    requires g.atoms == [(2, 1)] && g.directions == []
    ensures GroupKeys(g, 1) == AtomImages((2, 1))
    ensures Assign(map[], GroupKeys(g, 1), d) == KnightMap(d)
  {
    OneAtomUnrestricted(g);
    assert AtomImages((2, 1)) == {17, -17, 15, -15, 10, -10, 6, -6};
  }

  /** A one-atom group without codes writes the eight images of its atom. */
  lemma OneAtomUnrestricted(g: Group)
    requires |g.atoms| == 1 && g.directions == []
    ensures GroupKeys(g, 1) == AtomImages(g.atoms[0])
  {
    assert AtomDirections(g, 0) == [];
    UnrestrictedSelectsAll(g.atoms[0], AtomDirections(g, 0));
  }

  lemma DoubledKnightLetters(s: string, g1: Group, g2: Group)
    requires s == "NN"
    requires g1 == Group([(2, 1)], [], [QUIET, CAPTURE], Slider, 0) && g2 == Group([(2, 1)], [], [QUIET, CAPTURE], Steps, 0)
    ensures IsAtomLetter(s[0]) && GroupAt(s, 0, Cleared) == g1
    ensures IsAtomLetter(s[1]) && GroupAt(s, 1, Cleared) == g2
  {
  }

  lemma DoubledKnightWrites(c: MovementProfile, g1: Group, g2: Group)
    requires g1 == Group([(2, 1)], [], [QUIET, CAPTURE], Slider, 0) && g2 == Group([(2, 1)], [], [QUIET, CAPTURE], Steps, 0)
    requires c == EmitAtoms(EmitAtoms(EmptyProfile, g1, 1), g2, 1)
    ensures forall m :: c.Get(Slider, m) == KnightMap(0) && c.Get(Steps, m) == KnightMap(0)
    ensures forall m :: c.Get(Hopper, m) == map[] && c.Get(Crooked, m) == map[]
  {
    KnightKeys(g1, 0);
    KnightKeys(g2, 0);
    GroupIntoEmpty(g1, GroupKeys(g1, 1));
    EmitAtomsEffect(EmitAtoms(EmptyProfile, g1, 1), g2, 1);
  }

  /** A doubled leaper letter: its first copy makes a knightrider, and the
      second copy, examined again on the next iteration, a knight. */
  lemma DoubledKnight()
    ensures forall m :: Compile("NN").Get(Slider, m) == KnightMap(0) && Compile("NN").Get(Steps, m) == KnightMap(0)
    ensures forall m :: Compile("NN").Get(Hopper, m) == map[] && Compile("NN").Get(Crooked, m) == map[]
  {
    var s := "NN";
    var g1 := Group([(2, 1)], [], [QUIET, CAPTURE], Slider, 0);
    var g2 := Group([(2, 1)], [], [QUIET, CAPTURE], Steps, 0);
    DoubledKnightLetters(s, g1, g2);
    ScanAtom(s, 0, Cleared, EmptyProfile, g1);
    ScanAtom(s, 1, Cleared, EmitAtoms(EmptyProfile, g1, 1), g2);
    DoubledKnightWrites(Compile(s), g1, g2);
  }

  lemma LameKnightLetters(s: string, g: Group)
    requires s == "nN" && g == Group([(2, 1)], [], [QUIET, CAPTURE], Steps, -1)
    ensures !IsAtomLetter(s[0]) && StepPending(s, 0, Cleared) == Cleared.(lame := true)
    ensures IsAtomLetter(s[1]) && GroupAt(s, 1, Cleared.(lame := true)) == g
  {
  }

  lemma LameKnightWrites(c: MovementProfile, g: Group)
    requires g == Group([(2, 1)], [], [QUIET, CAPTURE], Steps, -1) && c == EmitAtoms(EmptyProfile, g, 1)
    ensures forall m :: c.Get(Steps, m) == KnightMap(-1)
    ensures forall f, m :: f != Steps ==> c.Get(f, m) == map[]
  {
    KnightKeys(g, -1);
    GroupIntoEmpty(g, GroupKeys(g, 1));
  }

  /** A lame leaper stores the distance code -1. */
  lemma LameKnight()
    ensures forall m :: Compile("nN").Get(Steps, m) == KnightMap(-1)
    ensures forall f, m :: f != Steps ==> Compile("nN").Get(f, m) == map[]
  {
    var s := "nN";
    var g := Group([(2, 1)], [], [QUIET, CAPTURE], Steps, -1);
    LameKnightLetters(s, g);
    ScanOther(s, 0, Cleared, EmptyProfile, Cleared.(lame := true));
    ScanAtom(s, 1, Cleared.(lame := true), EmptyProfile, g);
    LameKnightWrites(Compile(s), g);
  }

  lemma BishopLetters(s: string, g: Group)
    requires s == "nF7" && g == Group([(1, 1)], [], [QUIET, CAPTURE], Slider, 7)
    ensures !IsAtomLetter(s[0]) && StepPending(s, 0, Cleared) == Cleared.(lame := true)
    ensures IsAtomLetter(s[1]) && GroupAt(s, 1, Cleared.(lame := true)) == g
    ensures !IsAtomLetter(s[2]) && StepPending(s, 2, Cleared) == Cleared
  {
  }

  lemma BishopWrites(c: MovementProfile, g: Group)
    requires g == Group([(1, 1)], [], [QUIET, CAPTURE], Slider, 7) && c == EmitAtoms(EmptyProfile, g, 1)
    ensures forall m :: c.Get(Slider, m) == map[9 := 7, -9 := 7, 7 := 7, -7 := 7]
    ensures forall f, m :: f != Slider ==> c.Get(f, m) == map[]
  {
    OneAtomUnrestricted(g);
    assert AtomImages((1, 1)) == {9, -9, 7, -7};
    GroupIntoEmpty(g, {9, -9, 7, -7});
    assert Assign(map[], {9, -9, 7, -7}, 7) == map[9 := 7, -9 := 7, 7 := 7, -7 := 7];
  }

  /** The bishop of the source's examples: the digit makes a rider bounded by
      seven, which overrides lameness, and is then itself ignored. */
  lemma Bishop()
    ensures forall m :: Compile("nF7").Get(Slider, m) == map[9 := 7, -9 := 7, 7 := 7, -7 := 7]
    ensures forall f, m :: f != Slider ==> Compile("nF7").Get(f, m) == map[]
  {
    var s := "nF7";
    var g := Group([(1, 1)], [], [QUIET, CAPTURE], Slider, 7);
    BishopLetters(s, g);
    ScanOther(s, 0, Cleared, EmptyProfile, Cleared.(lame := true));
    ScanAtom(s, 1, Cleared.(lame := true), EmptyProfile, g);
    ScanOther(s, 2, Cleared, EmitAtoms(EmptyProfile, g, 1), Cleared);
    BishopWrites(Compile(s), g);
  }

  lemma CrookedRookLetters(s: string, g: Group)
    requires s == "zpR" && g == Group([(1, 0)], [], [QUIET, CAPTURE], Crooked, 0)
    ensures !IsAtomLetter(s[0]) && StepPending(s, 0, Cleared) == Cleared.(crooked := true)
    ensures !IsAtomLetter(s[1]) && StepPending(s, 1, Cleared.(crooked := true)) == Cleared.(crooked := true, hopper := true)
    ensures IsAtomLetter(s[2]) && GroupAt(s, 2, Cleared.(crooked := true, hopper := true)) == g
  {
  }

  lemma RookKeys(g: Group)
    requires g.atoms == [(1, 0)] && g.directions == []
    ensures GroupKeys(g, 1) == {8, -8, 1, -1}
    ensures Assign(map[], GroupKeys(g, 1), g.distance) == map[8 := g.distance, -8 := g.distance, 1 := g.distance, -1 := g.distance]
  {
    OneAtomUnrestricted(g);
    assert AtomImages((1, 0)) == {8, -8, 1, -1};
  }

  lemma CrookedRookWrites(c: MovementProfile, g: Group)
    requires g == Group([(1, 0)], [], [QUIET, CAPTURE], Crooked, 0) && c == EmitAtoms(EmptyProfile, g, 1)
    ensures forall m :: c.Get(Crooked, m) == map[8 := 0, -8 := 0, 1 := 0, -1 := 0]
    ensures forall f, m :: f != Crooked ==> c.Get(f, m) == map[]
  {
    RookKeys(g);
    GroupIntoEmptyAs(c, g, {8, -8, 1, -1}, map[8 := 0, -8 := 0, 1 := 0, -1 := 0]);
    forall f, m | f != Crooked
      ensures c.Get(f, m) == map[]
    {
      assert f != g.family;
    }
  }

  /** Crooked takes precedence over hopper: everything goes to the crooked maps. */
  lemma CrookedRook()
    ensures forall m :: Compile("zpR").Get(Crooked, m) == map[8 := 0, -8 := 0, 1 := 0, -1 := 0]
    ensures forall f, m :: f != Crooked ==> Compile("zpR").Get(f, m) == map[]
  {
    var s := "zpR";
    var g := Group([(1, 0)], [], [QUIET, CAPTURE], Crooked, 0);
    CrookedRookLetters(s, g);
    ScanOther(s, 0, Cleared, EmptyProfile, Cleared.(crooked := true));
    ScanOther(s, 1, Cleared.(crooked := true), EmptyProfile, Cleared.(crooked := true, hopper := true));
    ScanAtom(s, 2, Cleared.(crooked := true, hopper := true), EmptyProfile, g);
    CrookedRookWrites(Compile(s), g);
  }

  lemma StormLetters(s: string, g: Group)
    requires s == "zW14" && g == Group([(1, 0)], [], [QUIET, CAPTURE], Crooked, 1)
    ensures !IsAtomLetter(s[0]) && StepPending(s, 0, Cleared) == Cleared.(crooked := true)
    ensures IsAtomLetter(s[1]) && GroupAt(s, 1, Cleared.(crooked := true)) == g
    ensures !IsAtomLetter(s[2]) && StepPending(s, 2, Cleared) == Cleared
    ensures !IsAtomLetter(s[3]) && StepPending(s, 3, Cleared) == Cleared
  {
  }

  lemma StormWrites(c: MovementProfile, g: Group)
    requires g == Group([(1, 0)], [], [QUIET, CAPTURE], Crooked, 1) && c == EmitAtoms(EmptyProfile, g, 1)
    ensures forall m :: c.Get(Crooked, m) == map[8 := 1, -8 := 1, 1 := 1, -1 := 1]
    ensures forall f, m :: f != Crooked ==> c.Get(f, m) == map[]
  {
    RookKeys(g);
    GroupIntoEmptyAs(c, g, {8, -8, 1, -1}, map[8 := 1, -8 := 1, 1 := 1, -1 := 1]);
    forall f, m | f != Crooked
      ensures c.Get(f, m) == map[]
    {
      assert f != g.family;
    }
  }

  /** The storm piece of the source's board setup: only the digit right after
      the atom is read, so `zW14` stores distance code 1, and the `4` is
      ignored. */
  lemma Storm()
    ensures forall m :: Compile("zW14").Get(Crooked, m) == map[8 := 1, -8 := 1, 1 := 1, -1 := 1]
    ensures forall f, m :: f != Crooked ==> Compile("zW14").Get(f, m) == map[]
  {
    var s := "zW14";
    var g := Group([(1, 0)], [], [QUIET, CAPTURE], Crooked, 1);
    StormLetters(s, g);
    ScanOther(s, 0, Cleared, EmptyProfile, Cleared.(crooked := true));
    ScanAtom(s, 1, Cleared.(crooked := true), EmptyProfile, g);
    ScanOther(s, 2, Cleared, EmitAtoms(EmptyProfile, g, 1), Cleared);
    ScanOther(s, 3, Cleared, EmitAtoms(EmptyProfile, g, 1), Cleared);
    StormWrites(Compile(s), g);
  }
}
