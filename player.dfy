/**
 * One player's mutable record: position, points, and the members the game
 * relies on beyond position and points (dice queue, stocked die, chosen
 * skill with its confirmation flag, domination counter).
 */
module Players {
  import opened Wrappers
  import opened Constants
  import opened Boards

  /** A value snapshot of every field of a player. */
  datatype PlayerState = PlayerState(
    row: int, col: int, points: int, specialSkill: Option<Skill>,
    diceQueue: seq<int>, stock: Option<int>, skillConfirmed: bool,
    dominationTurnsLeft: int)

  class Player {
    const playerNum: int
    var row: int
    var col: int
    var points: int
    var specialSkill: Option<Skill>
    // The members below are those the game calls on a player beyond
    // position and points; they carry exactly the behaviour the game uses.
    /** The current die and the two upcoming ones. */
    var diceQueue: seq<int>
    /** The single banked die value, if any. */
    var stock: Option<int>
    var skillConfirmed: bool
    /** Turns of domination left; positive means locked out of skills and drill. */
    var dominationTurnsLeft: int

    ghost function State(): PlayerState
      reads this
    {
      PlayerState(row, col, points, specialSkill, diceQueue, stock, skillConfirmed, dominationTurnsLeft)
    }

    constructor (playerNum: int, startRow: int, startCol: int)
      ensures this.playerNum == playerNum
      ensures State() == PlayerState(startRow, startCol, 0, None, [], None, false, 0)
    {
      this.playerNum := playerNum;
      row := startRow;
      col := startCol;
      points := 0;
      specialSkill := None;
      diceQueue := [];
      stock := None;
      skillConfirmed := false;
      dominationTurnsLeft := 0;
    }

    method MoveTo(row: int, col: int)
      modifies this`row, this`col
      ensures State() == old(State()).(row := row, col := col)
    {
      this.row := row;
      this.col := col;
    }

    method AddPoints(amount: int)
      modifies this`points
      ensures State() == old(State()).(points := old(points) + amount)
    {
      points := points + amount;
    }

    /** Pays `amount` when the player can afford it; otherwise changes nothing. */
    method DeductPoints(amount: int) returns (ok: bool)
      modifies this`points
      ensures ok == old(CanAfford(amount))
      ensures State() == old(State()).(points := if ok then old(points) - amount else old(points))
      ensures old(points) >= 0 ==> points >= 0
    {
      if points >= amount {
        points := points - amount;
        return true;
      }
      return false;
    }

    predicate CanAfford(cost: int)
      reads this
    {
      points >= cost
    }

    function GetPosition(): Pos
      reads this
    {
      Pos(row, col)
    }

    /** Back to the start cell with no points and no skill. */
    method Reset(startRow: int, startCol: int)
      modifies this`row, this`col, this`points, this`specialSkill
      ensures State() == old(State()).(row := startRow, col := startCol, points := 0, specialSkill := None)
    {
      row := startRow;
      col := startCol;
      points := 0;
      specialSkill := None;
    }

    /** Fills the queue with three generated dice (the generator's values are passed in). */
    method InitDiceQueue(values: seq<int>)
      requires |values| == 3
      modifies this`diceQueue
      ensures State() == old(State()).(diceQueue := values)
    {
      diceQueue := values;
    }

    /** Pops the front die and appends a newly generated one. */
    method ShiftDiceQueue(next: int) returns (front: int)
      requires |diceQueue| > 0
      modifies this`diceQueue
      ensures front == old(diceQueue[0])
      ensures |diceQueue| == old(|diceQueue|)
      ensures State() == old(State()).(diceQueue := old(diceQueue[1..]) + [next])
    {
      front := diceQueue[0];
      diceQueue := diceQueue[1..] + [next];
    }

    /** Banks a die value, replacing any earlier one. */
    method StockDice(value: int)
      modifies this`stock
      ensures State() == old(State()).(stock := Some(value))
    {
      stock := Some(value);
    }

    /** Takes the banked die value and empties the stock slot. */
    method UseStock() returns (value: int)
      requires stock.Some?
      modifies this`stock
      ensures value == old(stock.value)
      ensures State() == old(State()).(stock := None)
    {
      value := stock.value;
      stock := None;
    }

    predicate HasStock()
      reads this
    {
      stock.Some?
    }

    predicate IsDominated()
      reads this
    {
      dominationTurnsLeft > 0
    }

    /** Records the chosen skill and confirms the choice. */
    method SetSpecialSkill(skill: Skill)
      modifies this`specialSkill, this`skillConfirmed
      ensures State() == old(State()).(specialSkill := Some(skill), skillConfirmed := true)
    {
      specialSkill := Some(skill);
      skillConfirmed := true;
    }
  }
}
