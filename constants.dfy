/** Option, used wherever the game returns `null` for "nothing". */
module Wrappers {
  datatype Option<+T> = None | Some(value: T)
}

/**
 * The constant tables of the game: board size, tile markers, phases, the
 * skill catalog with its cost keys, the default cost table and game
 * settings, and the two direction sets.
 */
module Constants {

  const BOARD_SIZE: int := 9

  /** The five tile markers; each is stored in the grid as one character. */
  datatype Marker = Empty | Stone | Bomb | Ice | Fountain

  function MarkerChar(m: Marker): char
  {
    match m
    case Empty => ' '
    case Stone => 'S'
    case Bomb => 'B'
    case Ice => 'I'
    case Fountain => 'F'
  }

  /** The five marker characters are pairwise distinct. */
  lemma MarkerCharsDistinct()
    ensures forall a: Marker, b: Marker :: MarkerChar(a) == MarkerChar(b) ==> a == b
  {
  }

  /** The phases of the game (the unused replay phase is not modelled). */
  datatype Phase =
    | StartScreen | Settings | SkillSelection | Roll | Move | Place
    | DrillTarget | SkillTarget | GameOver

  /** The eight special skills. */
  datatype Skill =
    | IceSkill | BombSkill | Domination | Sniper
    | Suriashi | Hitokiri | Meteor | Momonga

  /** The identifier string of each skill. */
  function SkillId(s: Skill): string
  {
    match s
    case IceSkill => "ice_skill"
    case BombSkill => "bomb_skill"
    case Domination => "domination_skill"
    case Sniper => "sniper_skill"
    case Suriashi => "suriashi_skill"
    case Hitokiri => "hitokiri_skill"
    case Meteor => "meteor_skill"
    case Momonga => "momonga_skill"
  }

  /** The order in which the selection screen lists the skills. */
  const SKILL_ORDER: seq<Skill> :=
    [IceSkill, BombSkill, Domination, Sniper, Suriashi, Hitokiri, Meteor, Momonga]

  /** The cost key of each skill's catalog entry. */
  function SkillCostKey(s: Skill): string
  {
    match s
    case IceSkill => "ice"
    case BombSkill => "bomb"
    case Domination => "domination"
    case Sniper => "sniper"
    case Suriashi => "suriashi"
    case Hitokiri => "hitokiri"
    case Meteor => "meteor"
    case Momonga => "momonga"
  }

  /** The default cost table, keyed by cost name. */
  const SKILL_COSTS: map<string, int> := map[
    "bomb" := 50, "drill" := 100, "ice" := 20, "diagonal_move" := 10,
    "stock" := 20, "domination" := 100, "sniper" := 100, "suriashi" := 50,
    "hitokiri" := 100, "meteor" := 200, "momonga" := 50]

  /** The keys every cost table has; the settings panel only rewrites values. */
  const COST_KEYS: set<string> := {
    "bomb", "drill", "ice", "diagonal_move", "stock", "domination",
    "sniper", "suriashi", "hitokiri", "meteor", "momonga"}

  /** A usable cost table: every key present, every cost non-negative. */
  predicate CostsOk(costs: map<string, int>)
  {
    COST_KEYS <= costs.Keys && forall k :: k in COST_KEYS ==> costs[k] >= 0
  }

  /** The tunable game settings. */
  datatype GameSettings = GameSettings(turnBonus: int, maxPointsDisplay: int, fountainPickup: int)

  const GAME_SETTINGS: GameSettings := GameSettings(10, 500, 100)

  predicate SettingsOk(s: GameSettings)
  {
    s.turnBonus >= 0 && s.maxPointsDisplay >= 0 && s.fountainPickup >= 0
  }

  /** A unit step on the board. */
  datatype Dir = Dir(dr: int, dc: int)

  /** Whether the move resolver walks straight or diagonally. */
  datatype DirectionType = Cross | Diagonal

  const CROSS_DIRECTIONS: seq<Dir> := [Dir(0, 1), Dir(0, -1), Dir(1, 0), Dir(-1, 0)]

  const DIAGONAL_DIRECTIONS: seq<Dir> := [Dir(-1, -1), Dir(-1, 1), Dir(1, -1), Dir(1, 1)]

  function Abs(x: int): nat
  {
    if x < 0 then -x else x
  }

  /** A unit step: each component in -1..1 and not both zero. */
  predicate IsUnit(d: Dir)
  {
    -1 <= d.dr <= 1 && -1 <= d.dc <= 1 && (d.dr != 0 || d.dc != 0)
  }

  predicate DistinctDirs(dirs: seq<Dir>)
  {
    forall i, j :: 0 <= i < j < |dirs| ==> dirs[i] != dirs[j]
  }

  /** The direction set used by a move mode. */
  function Directions(mode: DirectionType): (dirs: seq<Dir>)
    ensures |dirs| == 4 && DistinctDirs(dirs)
    ensures forall d :: d in dirs ==> IsUnit(d)
  {
    if mode == Diagonal then DIAGONAL_DIRECTIONS else CROSS_DIRECTIONS
  }

  /** CROSS_DIRECTIONS are exactly the four orthogonal unit steps. */
  lemma CrossDirectionsAreOrthogonalSteps()
    ensures |CROSS_DIRECTIONS| == 4 && DistinctDirs(CROSS_DIRECTIONS)
    ensures forall d: Dir :: d in CROSS_DIRECTIONS <==> Abs(d.dr) + Abs(d.dc) == 1
  {
  }

  /** DIAGONAL_DIRECTIONS are exactly the four diagonal unit steps. */
  lemma DiagonalDirectionsAreDiagonalSteps()
    ensures |DIAGONAL_DIRECTIONS| == 4 && DistinctDirs(DIAGONAL_DIRECTIONS)
    ensures forall d: Dir :: d in DIAGONAL_DIRECTIONS <==> Abs(d.dr) == 1 && Abs(d.dc) == 1
  {
  }

  /** SKILL_ORDER lists each of the eight skills exactly once. */
  lemma SkillOrderListsEverySkillOnce()
    ensures |SKILL_ORDER| == 8
    ensures forall s: Skill :: s in SKILL_ORDER
    ensures forall i, j :: 0 <= i < j < |SKILL_ORDER| ==> SKILL_ORDER[i] != SKILL_ORDER[j]
    ensures forall i, j :: 0 <= i < j < |SKILL_ORDER| ==> SkillId(SKILL_ORDER[i]) != SkillId(SKILL_ORDER[j])
  {
    forall s: Skill ensures s in SKILL_ORDER {
      match s
      case IceSkill => assert SKILL_ORDER[0] == s;
      case BombSkill => assert SKILL_ORDER[1] == s;
      case Domination => assert SKILL_ORDER[2] == s;
      case Sniper => assert SKILL_ORDER[3] == s;
      case Suriashi => assert SKILL_ORDER[4] == s;
      case Hitokiri => assert SKILL_ORDER[5] == s;
      case Meteor => assert SKILL_ORDER[6] == s;
      case Momonga => assert SKILL_ORDER[7] == s;
    }
  }

  /** Every skill's cost key is a key of the cost table. */
  lemma SkillCostKeysAreCostTableKeys()
    ensures forall s: Skill :: SkillCostKey(s) in SKILL_COSTS && SkillCostKey(s) in COST_KEYS
  {
  }

  /** The default costs and settings are usable: all keys, all values non-negative. */
  lemma DefaultsAreNonNegative()
    ensures SKILL_COSTS.Keys == COST_KEYS && CostsOk(SKILL_COSTS)
    ensures SettingsOk(GAME_SETTINGS)
  {
  }
}
