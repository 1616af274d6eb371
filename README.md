# Betza-notation pieces for Musketeer chess: a verified model

MusketeerChessPython describes the extra pieces of Musketeer chess in Betza
notation. For example, `fmWfcF` is a pawn, `nF7` a bishop limited to seven
squares, and `zF7` a zigzag piece of at most seven moves. This project models three parts of that program:

- **The notation compiler** `from_betza` (module `Betza`, file `betza.dfy`). It scans
  a notation string once from left to right and keeps pending state:
  - the modality letters `m` and `c`;
  - the two-letter direction codes;
  - the hopper, lame and crooked flags;
  - a distance code.

  At each atom letter it writes direction keys (`dx + 8*dy`) into one of
  four families (steps, slider, hopper, crooked), then clears the pending state.
  Each family has two maps, indexed by modality: 0 for quiet moves and 1 for
  captures. The model keeps the source's loop as a method over a `PieceInfo`
  object. It proves that method against a functional description of the scan
  (`PendingAt`, `ProfileAt`, `Compile`). The meaning of that description is
  then proved from the letters of each group.
- **The crooked path** of a base direction (`Betza.CrookedPath`) and the integer
  geometry it shares with the board (module `Geometry`):
  - `direction_in_2d`, including its rounding of halves;
  - the 2×2 integer system with determinant `dx² + dy²` that decomposes
    `target - start` into alternating base and perpendicular moves.

  The main lemma is that every accepted decomposition is a walk that ends on
  `target`. The converse is also proved: every such walk is found.
- **The board's path tests** (module `Board`, file `board.dfy`):
  - `is_slide_path`;
  - `is_crooked_path`;
  - the board's `crooked_path`, which returns the squares of the walk.

  The position enters as two sets of squares: `occupied` holds every piece and
  `own` holds the pieces of the side to move.

  Two defects of `is_slide_path` are recorded under "Findings". Each is modelled
  as written and next to a corrected test, and the intended property is proved
  about the corrected test.

The piece definitions (module `Piece`, file `piece.dfy`) cover:
- the rank stride `FILE_NB`;
- the compass directions;
- the compiled movement profile;
- the `PieceInfo` and `PieceMap` classes.

Where the code and its documentation disagree, the model follows the code:
- **Unrecognised characters are ignored.** The `7` after `F7`, or any other
  character, does not raise an error.
- **The lookahead character is read again.** In a `for` loop over a range, the
  `i += 1` after a direction pair or an atom's lookahead has no effect. The
  lookahead character is therefore examined again on the next iteration, so
  `NN` writes a knightrider and then a knight.

## Model

| member | source | states |
|---|---|---|
| Piece.PieceInfo.constructor | piece.py:16-22 | a fresh piece has empty name and notation and eight empty move maps |
| Piece.PieceInfo.Store | betza.py:110-119 | an assignment into the dictionary of one family and modality replaces exactly that map; name and notation are unchanged |
| Piece.PieceMap.constructor | piece.py:6-8 | a fresh registry has an empty name and no pieces |
| Piece.PieceMap.Add | piece.py:10-11 | after `add(t, info)` the entry for `t` is `info` (an earlier one is overwritten), the keys are the old keys plus `t`, every other entry and the name are unchanged |
| Geometry.DirectionIn2d | board.py:25-27 | the decoded pair recomposes the key (`dx + 8*dy == direction`), `dx` lies in -4..4, and `dx == ±4` only with even `dy` (halves rounded to even) |
| Geometry.DirectionIn2dUnique | board.py:25-27 | those three facts determine the decoded pair |
| Geometry.DirectionIn2dInverts | board.py:25-27 | decoding inverts the encoding `dx + 8*dy` whenever abs(dx) <= 3 |
| Geometry.CompassDirections | piece.py:30-39 | each of the eight compass constants decodes to its unit vector |
| Geometry.WalkStep | betza.py:45-47 | consecutive squares of a zigzag differ by the base at odd moves and by the perpendicular at even moves |
| Geometry.CrookedShapeSound | betza.py:24-48 | an accepted decomposition alternates base and a quarter-turned perpendicular, has `para - perp` equal to 0 or 1, is 1..distance moves long and ends on `target` |
| Geometry.CrookedShapeComplete | betza.py:31-44 | every decomposition `a*base + b*perp` of target - start within those limits is accepted, with the perpendicular mirrored exactly when b < 0 |
| Betza.LetterClasses | betza.py:3-22 | the letter classes used by the scan are exactly the keys of the leaper and rider tables and the letters of `verticals` and `horizontals` |
| Betza.AtomsOfInTable | betza.py:3-20 | every shape an atom letter stands for is one of the table's nine shapes |
| Betza.RowGuard | betza.py:117-133 | each of the eight source guards holds exactly when its row of the direction table is selected (no codes, or one of the row's codes present) |
| Betza.SelectedKeysWithinImages | betza.py:117-133 | whatever the codes, an atom (a0, a1) only writes keys among ±(8a0+a1), ±(8a0−a1), ±(8a1+a0), ±(8a1−a0) |
| Betza.UnrestrictedSelectsAll | betza.py:117-133 | with no direction codes all eight images are written |
| Betza.ForwardSelects | betza.py:117-133 | the code `ff` alone selects exactly the keys 8a0+a1 and 8a0−a1 |
| Betza.WriteMove | betza.py:117-133 | the eight guarded assignments add exactly the selected keys, each with the group's distance code, and keep every other entry |
| Betza.CrookedPath | betza.py:24-48 | the result is empty exactly when the decomposition is refused (target == start, non-integral, not alternating, too long); otherwise it has `para + perp + 1` squares, starts at `start`, ends at `target`, and consecutive squares differ by the base at odd moves and by the perpendicular at even moves |
| Betza.ExpandedUnsplit | betza.py:101-108 | without the lone-orthogonal-atom split the codes are kept as they are |
| Betza.ExpandedDoubled | betza.py:101-108 | doubled codes are never split |
| Betza.ExpandedSplit | betza.py:101-108 | after splitting every code is a doubled letter taken from one of the original codes, and both letters of every original code occur doubled |
| Betza.ExpandDirections | betza.py:101-108 | the loop builds exactly the expanded code list |
| Betza.EmitModalitiesEffect | betza.py:109-133 | writing for a list of modalities updates exactly the maps of the chosen family for those modalities, repetitions included |
| Betza.EmitAtomsEffect | betza.py:101-133 | a group writes all its keys with its distance code into the maps of its family and modalities and leaves every other map unchanged |
| Betza.GroupKeysWithinImages | betza.py:101-133 | every key a group writes is an image of one of its atoms |
| Betza.UnrestrictedGroupKeys | betza.py:101-133 | a group without codes writes every image of every atom |
| Betza.EmitShape | betza.py:109-133 | the modality loop for one atom updates the profile as the functional description says, name and notation unchanged |
| Betza.EmitGroup | betza.py:101-116 | the atom loop, with the family chosen by the source's if-chain (crooked over hopper over rider over steps), updates the profile as the functional description says |
| Betza.EmitAtom | betza.py:87-133 | the atom branch (its shapes, the rider flag and digit from the lookahead, the lame code -1, the default modalities) performs exactly the writes of the group the description assigns to that letter |
| Betza.FromBetza | betza.py:50-141 | the compiled piece is fresh, has empty name and notation, and its maps are `Compile(betza)` |
| Betza.StepKeepsProfile | betza.py:62-86 | a character other than an atom letter writes nothing |
| Betza.AtomClears | betza.py:134-140 | after an atom letter all pending state is cleared |
| Betza.PendingSinceLastAtom | betza.py:134-140 | the pending state is determined by the characters since the last atom letter |
| Betza.GroupSinceLastAtom | betza.py:87-140 | so the group an atom letter emits depends only on the characters since the previous atom and its own lookahead |
| Betza.ModalityLettersMembers | betza.py:65-69 | a modality is pending exactly when its letter occurs |
| Betza.PendingModalities | betza.py:65-69 | the pending modalities are the group's `m`/`c` letters in order |
| Betza.PendingFlags | betza.py:70-77 | the hopper flag is set exactly when p, g or j occurs, lame exactly when n occurs, crooked exactly when z occurs, and the pending distance is 1 exactly when g or j occurs, else 0 |
| Betza.PendingCodes | betza.py:78-86 | one pending code per direction letter of the group, in order: the letter with the next character when the two form a code (the same letter, or a vertical and a horizontal one), the letter doubled otherwise |
| Betza.GroupModalitiesFromLetters | betza.py:98-100 | a group uses both modalities when no m or c occurs, otherwise exactly those whose letter occurs |
| Betza.GroupFamilyFromLetters | betza.py:87-97 | family precedence crooked > hopper > rider > steps, and the distance code: the digit if one follows, -1 for a lame non-rider, 1 after g/j, 0 otherwise |
| Betza.GroupFromLetters | betza.py:62-116 | the whole group (shapes, direction codes, modalities, family, distance) stated by the letters of its window |
| Betza.AtomWrites | betza.py:87-140 | one atom letter writes its group's keys into its family's maps for its modalities and changes no other map |
| Betza.GroupDistanceBounds | betza.py:89-97 | a group's distance code lies in -1..9 |
| Betza.EmitWellFormed | betza.py:101-133 | writing a group of table atoms keeps every key an image of a table atom and every code in -1..9 |
| Betza.AtomWellFormed | betza.py:87-140 | one atom letter keeps the maps well formed |
| Betza.ScanWellFormed | betza.py:62-140 | every prefix of the scan leaves well-formed maps and a pending distance of 0 or 1 |
| Betza.CompileWellFormed | betza.py:50-141 | every notation string compiles to maps whose keys are images of table atoms and whose codes lie in -1..9 |
| Betza.CompiledKeysNonZero | betza.py:50-141 | no compiled direction key is 0, so the board never passes the key whose crooked determinant is 0 |
| Betza.ForwardFerz | betza.py:117-133 | `fF` compiles to quiet and capture steps {9:0, 7:0} and nothing else |
| Betza.Pawn | betza.py:149 | `fmWfcF` compiles to quiet steps {8:0} and capture steps {9:0, 7:0} and nothing else |
| Betza.DoubledKnight | betza.py:91-95 | `NN` writes the knight's eight keys into the slider maps and then, the second N being read again, into the steps maps |
| Betza.LameKnight | betza.py:96-97 | `nN` stores the code -1 under all eight knight keys |
| Betza.Bishop | betza.py:151 | `nF7` is a slider bounded by seven on the four diagonals; the digit overrides lameness and is then ignored |
| Betza.CrookedRook | betza.py:109-116 | in `zpR` the crooked flag beats the hopper flag: the four rook keys go to the crooked maps only |
| Betza.Storm | betza.py:87-100 | `zW14`, the storm piece of board.py:528, stores the four wazir keys with code 1 in the crooked maps only: only the digit right after the atom is read |
| Board.WalkSlide | board.py:153-157 | the walk loop reports a clear walk exactly when no square among the first k moves other than `target` is occupied, and then stops where the walk ends |
| Board.IsSlidePath | board.py:143-158 | on every input where the source does not divide by zero (a non-zero file component, and a non-zero rank component unless the file offset already fails the test), the method computes the as-written verdict: a decomposition into k moves, the length test that rejects abs(k) <= distance, a clear walk, and a final square not in `own` |
| Board.SlideStepsMeaning | board.py:144-150 | the decomposition finds k exactly when the file and rank offsets are k times the decoded components |
| Board.SlideOffLine | board.py:147-150 | when no such k exists the answer is false |
| Board.SlideFileOffsetRefused | board.py:147-148 | for a key decoding to (dx, 0), the test is defined only where the file offset is not a multiple of dx, and there it answers false |
| Board.SlideTwoFileExamples | board.py:147-148 | key 2 decodes to (2, 0); from 0 to 1 the answer is false, from 0 to 2 the test divides by zero |
| Board.SlideOnBoard | board.py:153-156 | between two board squares, for 0 <= j <= k the j-th walked square lies in 0..63 with file and rank advanced by j times the components (no wrap at an edge), and the k-th is `target` |
| Board.WalkClearBefore | board.py:153-157 | when the walk ends on `target`, "no square other than target occupied" means "every square strictly before target is empty" |
| Board.SlideMeaning | board.py:143-158 | for k moves: true exactly when abs(k) > distance and, for k > 0, every square before `target` is empty and `target` is not in `own`, or, for k <= 0, `start` is not in `own` |
| Board.SlideGuardInverted | board.py:151-152 | as written, the one-move diagonal step 0→9 with bound 1 is refused on an empty board while the two-move slide 0→18 is accepted |
| Board.OrthogonalDivisor | board.py:144-148 | every orthogonal compass direction decodes with a zero component, the divisor of the first test, so the test divides by zero for every start and target |
| Board.IsBoundedSlidePath | board.py:143-158 | the corrected test computes the intended verdict for every direction |
| Board.IntendedSlideStepsMeaning | board.py:144-150 | the corrected decomposition finds k exactly when the offsets are k times the components, orthogonal directions included |
| Board.BoundedSlideMeaning | board.py:143-158 | corrected: true exactly when 1 <= k, k <= distance unless distance is 0 (unbounded), every square before `target` is empty and `target` is not in `own` |
| Board.BoundedSlideExamples | board.py:151-152 | the corrected test accepts the diagonal step 0→9 and the rook step 0→8 with bound 1, and refuses 0→18 |
| Board.IsCrookedPath | board.py:163-188 | the method computes the verdict: false for target == start, a non-integral, non-alternating or too long decomposition; otherwise true exactly when no walked square other than `target` is occupied and `target` is not in `own` |
| Board.CrookedOpenMeaning | board.py:163-188 | a true answer means target != start and an alternating walk of 1..distance moves from `start` that ends on `target`, with no walked square other than `target` occupied, and `target` not in `own` |
| Board.CrookedNeedsDistance | board.py:181-182 | with distance 0, the code the compiler stores when no digit follows the atom and no g, j or n occurs, no crooked walk is accepted |
| Board.CrookedSingleMove | board.py:181-188 | with distance 1 the only accepted crooked walk is the single move along `direction` |
| Board.CrookedPath | board.py:190-209 | the result is the empty set when `is_crooked_path` says no; otherwise it is exactly the set of squares after moves 1..n of the walk, and it contains `target` |

## Findings

| source | as written | input that shows it | evidently intended | confidence | as-written member | corrected member |
|---|---|---|---|---|---|---|
| board.py:151-152 | `if abs(k) <= distance: return False` refuses every slide within the bound, and board.py:216-223 passes bound 1 for single steps | direction NORTH_EAST (9), start 0, target 9, distance 1, empty board: refused; target 18 with the same bound: accepted | refuse only slides of fewer than one move or longer than a non-zero bound (bound 0 is the unbounded slider the compiler writes by default) | medium, not executed | Board.SlideGuardInverted | Board.IsBoundedSlidePath |
| board.py:144-148 | `path_x % dir_x` and `path_y % dir_y` divide by a decoded component that is 0 for every orthogonal direction | direction NORTH (8) decodes to (0, 1), so `path_x % 0` raises for every start and target; EAST (1) decodes to (1, 0), every file offset is a multiple of 1, so `path_y % 0` raises for every start and target too | an orthogonal slide moves along one axis only, so the other offset must be 0 | high, not executed | Board.OrthogonalDivisor | Board.IsBoundedSlidePath |

## Left out

- Board.IsSlidePath: requires `SlideDefined`, because the source raises ZeroDivisionError when the decoded file component is 0, or when the rank component is 0 and the file offset is a multiple of the file component (see Findings). Keys that decode to (±2, 0) or (±3, 0) are modelled where the short-circuit `or` answers false first.
- Geometry.CrookedShape, Betza.CrookedPath, Board.IsCrookedPath and Board.CrookedPath: require `target == start || direction != 0`, because for key 0 the determinant is 0 and betza.py:34 and board.py:172 raise ZeroDivisionError. No compiled key is 0 (Betza.CompiledKeysNonZero), so the board never passes it.
- `is_hop_path` (board.py:160-161): a stub that always answers false; there is no hop rule to model.
- Bitboards: `occupied`, `occupied_co[turn]` and the returned path bitboard are sets of squares. python-chess and its board state are not part of this model.
- Board.IsCrookedPath and Board.CrookedPath: a walk square outside 0..63 is used only through set membership. Python would raise IndexError for squares past 63 and wrap negative indices; that is not modelled.
- Geometry.DirectionIn2d: floating-point division and `round` are modelled exactly on integers, ties to even included. Floating-point rounding error for huge keys is not modelled.
- Betza.FromBetza: `isdigit` is modelled for ASCII digits only; Python also accepts other Unicode digits, whose `ord` difference from `'0'` would be stored.
- Betza.FromBetza: the source's `PieceInfo` (piece.py:16-22) and `MoveModality` (piece.py:25-28) cannot run as written. The dictionaries are not indexed by modality, there is no `crooked` field, and `MoveModality` has no members at all, since piece.py:26-28 are bare annotations. The model uses four families, each with two maps, indexed 0 (quiet) and 1 (capture), which is how betza.py:109-116 and board.py:216-241 use them.
- Piece.PieceInfo.Store: the source mutates the dictionary it took from the piece; the model writes the updated map back. This is the same effect, because that dictionary is not shared with anything else.
- `PieceMap.clear_all` (piece.py:13-14): it lacks `self` and cannot be called.
- The rest of the board: custom-piece bookkeeping (board.py:89-141), `custom_attacks_mask` (211-242), move generation (245-394), FEN/SAN parsing and pushing (396-505). They depend on python-chess code that is not part of this model.
- Console output (`print_bb`, `__str__`, the input loop), the Flask server (index.py), the browser script (static/script.js) and PGN reading (pgn.py): input/output only.
- The dead `if (crooked): return` at betza.py:60 is not modelled, because `crooked` is always false there.
