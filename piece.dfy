/** Piece definitions: the rank stride, the compass directions, move modalities,
    the compiled movement profile of a piece and the registry of pieces by type. */
module Piece {

  /** Number of files on the board: the stride between ranks in every direction key. */
  const FILE_NB: int := 8

  /** The compass directions, each dx + FILE_NB * dy of a unit vector. */
  const NORTH: int := 8
  const EAST: int := 1
  const SOUTH: int := -NORTH
  const WEST: int := -EAST
  const NORTH_EAST: int := NORTH + EAST
  const SOUTH_EAST: int := SOUTH + EAST
  const SOUTH_WEST: int := SOUTH + WEST
  const NORTH_WEST: int := NORTH + WEST

  /** Piece types are the chess library's small integers. */
  type PieceType = int

  /** A move modality, used as the index of a family's two maps: 0 quiet, 1 capture. */
  type Modality = m: int | 0 <= m < 2
  const QUIET: Modality := 0
  const CAPTURE: Modality := 1

  /** Direction key (dx + FILE_NB * dy) to distance code: 0 by default, n for a
      bounded rider, 1 after g/j, -1 for a lame leaper. */
  type MoveMap = map<int, int>

  /** One family of a profile: the quiet map and the capture map. */
  datatype Moves = Moves(quiet: MoveMap, capture: MoveMap) {
    function At(m: Modality): MoveMap {
      if m == QUIET then quiet else capture
    }

    function With(m: Modality, move: MoveMap): (r: Moves)
      ensures r.At(m) == move
      ensures forall m': Modality :: m' != m ==> r.At(m') == At(m')
    {
      if m == QUIET then Moves(move, capture) else Moves(quiet, move)
    }
  }

  const NoMoves: Moves := Moves(map[], map[])

  /** The four families a notation string is compiled into. */
  datatype Family = Steps | Slider | Hopper | Crooked

  /** The value of a compiled piece: four families, each indexed by modality. */
  datatype MovementProfile = MovementProfile(steps: Moves, slider: Moves, hopper: Moves, crooked: Moves) {
    function Of(f: Family): Moves {
      match f
      case Steps => steps
      case Slider => slider
      case Hopper => hopper
      case Crooked => crooked
    }

    function Get(f: Family, m: Modality): MoveMap {
      Of(f).At(m)
    }

    /** Replaces the map of family `f` and modality `m`; every other map is kept. */
    function Put(f: Family, m: Modality, move: MoveMap): (r: MovementProfile)
      ensures forall f', m' :: r.Get(f', m') == if f' == f && m' == m then move else Get(f', m')
    {
      match f
      case Steps => this.(steps := steps.With(m, move))
      case Slider => this.(slider := slider.With(m, move))
      case Hopper => this.(hopper := hopper.With(m, move))
      case Crooked => this.(crooked := crooked.With(m, move))
    }
  }

  const EmptyProfile: MovementProfile := MovementProfile(NoMoves, NoMoves, NoMoves, NoMoves)

  /** A piece definition: its name, its notation and its compiled move maps. */
  class PieceInfo {
    var name: string
    var betza: string
    var steps: Moves
    var slider: Moves
    var hopper: Moves
    var crooked: Moves

    /** A fresh piece has no name, no notation and no moves. */
    constructor ()
      ensures name == "" && betza == ""
      ensures Profile() == EmptyProfile
    {
      name := "";
      betza := "";
      steps := NoMoves;
      slider := NoMoves;
      hopper := NoMoves;
      crooked := NoMoves;
    }

    function Profile(): MovementProfile
      reads this
    {
      MovementProfile(steps, slider, hopper, crooked)
    }

    /** Writes back the map of one family and modality, as assigning into the
        dictionary the piece holds does. */
    method Store(f: Family, m: Modality, move: MoveMap)
      modifies this
      ensures Profile() == old(Profile()).Put(f, m, move)
      ensures name == old(name) && betza == old(betza)
    {
      match f
      case Steps => steps := steps.With(m, move);
      case Slider => slider := slider.With(m, move);
      case Hopper => hopper := hopper.With(m, move);
      case Crooked => crooked := crooked.With(m, move);
    }
  }

  /** The registry of piece definitions by piece type. */
  class PieceMap {
    var name: string
    var pieces: map<PieceType, PieceInfo>

    constructor ()
      ensures name == "" && pieces == map[]
    {
      name := "";
      pieces := map[];
    }

    /** Registers `pieceInfo` under `pieceType`, replacing any earlier entry. */
    method Add(pieceType: PieceType, pieceInfo: PieceInfo)
      modifies this
      ensures pieceType in pieces && pieces[pieceType] == pieceInfo
      ensures pieces.Keys == old(pieces).Keys + {pieceType}
      ensures forall t :: t in old(pieces) && t != pieceType ==> pieces[t] == old(pieces)[t]
      ensures name == old(name)
    {
      pieces := pieces[pieceType := pieceInfo];
    }
  }
}
