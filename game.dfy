/** The selection cursor of the playing field: a box two cells wide whose left
    cell is (x, y), moved one cell at a time by the arrow keys and kept on the
    board by setters that silently drop out-of-range values. Besides the
    logical cell it keeps the pixel offset of its frame, with row 0 drawn at
    the bottom of the screen. */
module Game {

  /** The block palette, in order; a colour index is a position in it. */
  const BlockTypes: seq<string> := ["red", "yellow", "green", "blue", "purple"]

  /** The keys the keydown handler tells apart; every other key is `Other`. */
  datatype Key = ArrowUp | ArrowDown | ArrowLeft | ArrowRight | Other

  /** Board dimensions in cells and the size of one cell in pixels. */
  datatype Board = Board(width: int, height: int, size: int)

  /** A cursor's logical cell and the pixel offset of its frame. */
  datatype Spot = Spot(x: int, y: int, viewX: int, viewY: int)

  /** Decodes the `key` name of a keydown event. */
  function KeyOf(name: string): (k: Key)
    ensures k == ArrowUp <==> name == "ArrowUp"
    ensures k == ArrowDown <==> name == "ArrowDown"
    ensures k == ArrowLeft <==> name == "ArrowLeft"
    ensures k == ArrowRight <==> name == "ArrowRight"
  {
    match name
    case "ArrowUp" => ArrowUp
    case "ArrowDown" => ArrowDown
    case "ArrowLeft" => ArrowLeft
    case "ArrowRight" => ArrowRight
    case _ => Other
  }

  /** The cursor invariant: the box lies on the board, and the frame offset is
      in step with the cell, the y offset flipped so that row 0 is the bottom row. */
  predicate Fits(b: Board, s: Spot) {
    && 0 <= s.x <= b.width - 2
    && 0 <= s.y <= b.height - 1
    && s.viewX == s.x * b.size
    && s.viewY == (b.height - s.y - 1) * b.size
  }

  /** The `x` setter on values: a column outside [0, width-2] is dropped. */
  function WithX(b: Board, s: Spot, val: int): (r: Spot) {
    if val < 0 || val >= b.width - 1 then s
    else s.(x := val, viewX := val * b.size)
  }

  /** The `y` setter on values: a row outside [0, height-1] is dropped. */
  function WithY(b: Board, s: Spot, val: int): (r: Spot) {
    if val < 0 || val >= b.height then s
    else s.(y := val, viewY := (b.height - val - 1) * b.size)
  }

  /** One keydown event: each arrow asks the matching setter for a one-cell
      move; any other key does nothing. */
  function Press(b: Board, s: Spot, k: Key): (r: Spot)
    ensures Fits(b, s) ==> Fits(b, r)
    ensures (k.ArrowUp? || k.ArrowDown?) ==> r.x == s.x && r.viewX == s.viewX
    ensures (k.ArrowLeft? || k.ArrowRight?) ==> r.y == s.y && r.viewY == s.viewY
    ensures k.Other? ==> r == s
  {
    match k
    case ArrowUp => WithY(b, s, s.y + 1)
    case ArrowDown => WithY(b, s, s.y - 1)
    case ArrowLeft => WithX(b, s, s.x - 1)
    case ArrowRight => WithX(b, s, s.x + 1)
    case Other => s
  }

  /** Each arrow moves the box one cell in its direction unless the box is
      already at that edge, where the key changes nothing. */
  lemma ArrowMoves(b: Board, s: Spot)
    requires Fits(b, s)
    ensures Press(b, s, ArrowUp) ==
      if s.y < b.height - 1 then s.(y := s.y + 1, viewY := s.viewY - b.size) else s
    ensures Press(b, s, ArrowDown) ==
      if s.y > 0 then s.(y := s.y - 1, viewY := s.viewY + b.size) else s
    ensures Press(b, s, ArrowLeft) ==
      if s.x > 0 then s.(x := s.x - 1, viewX := s.viewX - b.size) else s
    ensures Press(b, s, ArrowRight) ==
      if s.x < b.width - 2 then s.(x := s.x + 1, viewX := s.viewX + b.size) else s
  {
    assert (b.height - (s.y + 1) - 1) * b.size == (b.height - s.y - 1) * b.size - b.size;
    assert (b.height - (s.y - 1) - 1) * b.size == (b.height - s.y - 1) * b.size + b.size;
    assert (s.x - 1) * b.size == s.x * b.size - b.size;
    assert (s.x + 1) * b.size == s.x * b.size + b.size;
  }

  /** ArrowRight then ArrowLeft puts the box back where it was, unless it
      started at the right edge. */
  lemma RightThenLeft(b: Board, s: Spot)
    requires Fits(b, s) && s.x < b.width - 2
    ensures Press(b, Press(b, s, ArrowRight), ArrowLeft) == s
  {
  }

  /** ArrowUp then ArrowDown puts the box back where it was, unless it
      started in the top row. */
  lemma UpThenDown(b: Board, s: Spot)
    requires Fits(b, s) && s.y < b.height - 1
    ensures Press(b, Press(b, s, ArrowUp), ArrowDown) == s
  {
  }

  /** At the right edge the round trip does not restore the column: the right
      move is dropped and the left move is not, once the board is at least
      three cells wide. */
  lemma RightThenLeftAtEdge(b: Board, s: Spot)
    requires Fits(b, s) && s.x == b.width - 2 && b.width >= 3
    ensures Press(b, Press(b, s, ArrowRight), ArrowLeft).x == s.x - 1
  {
  }

  /** The monotonicity step ViewInRange needs for the products x*size and
      (height-y-1)*size. */
  lemma MulMonotone(a: int, c: int, k: int)
    requires 0 <= a <= c && 0 <= k
    ensures 0 <= a * k <= c * k
  {
    assert c * k - a * k == (c - a) * k;
  }

  /** With a non-negative cell size, the frame stays within the board's pixel
      area: viewX in [0, (width-2)*size] and viewY in [0, (height-1)*size]. */
  lemma ViewInRange(b: Board, s: Spot)
    requires Fits(b, s) && b.size >= 0
    ensures 0 <= s.viewX <= (b.width - 2) * b.size
    ensures 0 <= s.viewY <= (b.height - 1) * b.size
  {
    MulMonotone(s.x, b.width - 2, b.size);
    MulMonotone(b.height - s.y - 1, b.height - 1, b.size);
  }

  /** The state after a run of keydown events, handled in order. */
  function PressAll(b: Board, s: Spot, keys: seq<Key>): (r: Spot)
    decreases |keys|
  {
    if keys == [] then s else PressAll(b, Press(b, s, keys[0]), keys[1..])
  }

  /** No sequence of keydown events can take the box off the board or put the
      frame out of step with it. */
  lemma {:induction false} PressAllKeepsFits(b: Board, s: Spot, keys: seq<Key>)
    requires Fits(b, s)
    ensures Fits(b, PressAll(b, s, keys))
    decreases |keys|
  {
    if keys != [] {
      PressAllKeepsFits(b, Press(b, s, keys[0]), keys[1..]);
    }
  }

  /** Horizontal keys alone never change the row, and vertical keys alone
      never change the column. */
  lemma {:induction false} PressAllIndependent(b: Board, s: Spot, keys: seq<Key>)
    ensures (forall i :: 0 <= i < |keys| ==> !keys[i].ArrowUp? && !keys[i].ArrowDown?) ==>
      PressAll(b, s, keys).y == s.y && PressAll(b, s, keys).viewY == s.viewY
    ensures (forall i :: 0 <= i < |keys| ==> !keys[i].ArrowLeft? && !keys[i].ArrowRight?) ==>
      PressAll(b, s, keys).x == s.x && PressAll(b, s, keys).viewX == s.viewX
    decreases |keys|
  {
    if keys != [] {
      PressAllIndependent(b, Press(b, s, keys[0]), keys[1..]);
    }
  }

  /** The cursor object: its cell and frame offset change in place through the
      setters; the board dimensions and cell size are fixed at construction. */
  class Cursor {
    var x: int
    var y: int
    var viewX: int
    var viewY: int
    const width: int
    const height: int
    const size: int

    function Dims(): (b: Board) {
      Board(width, height, size)
    }

    function State(): (s: Spot)
      reads this
    {
      Spot(x, y, viewX, viewY)
    }

    ghost predicate Valid()
      reads this
    {
      Fits(Dims(), State())
    }

    /** Starts at (0, 0): the fields and the frame offset begin at zero, then
        both setters are asked for 0. */
    constructor (width: int, height: int, size: int)
      ensures this.width == width && this.height == height && this.size == size
      ensures x == 0 && y == 0 && viewX == 0
      ensures viewY == if height >= 1 then (height - 1) * size else 0
      ensures width >= 2 && height >= 1 ==> Valid()
    {
      this.width, this.height, this.size := width, height, size;
      x, y := 0, 0;
      viewX, viewY := 0, 0;
      new;
      SetX(0);
      SetY(0);
    }

    /** The `x` setter: accepts `val` exactly when 0 <= val <= width-2, and then
        moves the frame with it; otherwise nothing changes. */
    method SetX(val: int)
      modifies this
      ensures 0 <= val <= width - 2 ==> x == val && viewX == val * size
      ensures !(0 <= val <= width - 2) ==> x == old(x) && viewX == old(viewX)
      ensures y == old(y) && viewY == old(viewY)
      ensures State() == WithX(Dims(), old(State()), val)
      ensures old(Valid()) ==> Valid()
    {
      if val < 0 || val >= width - 1 {
        return;
      }
      x := val;
      viewX := val * size;
    }

    /** The `y` setter: accepts `val` exactly when 0 <= val <= height-1, and then
        moves the frame with it (row 0 at the bottom); otherwise nothing changes. */
    method SetY(val: int)
      modifies this
      ensures 0 <= val <= height - 1 ==> y == val && viewY == (height - val - 1) * size
      ensures !(0 <= val <= height - 1) ==> y == old(y) && viewY == old(viewY)
      ensures x == old(x) && viewX == old(viewX)
      ensures State() == WithY(Dims(), old(State()), val)
      ensures old(Valid()) ==> Valid()
    {
      if val < 0 || val >= height {
        return;
      }
      y := val;
      viewY := (height - val - 1) * size;
    }

    /** The keydown handler: an arrow key steps the matching coordinate by one
        through its setter; any other key changes nothing. */
    method HandleKey(k: Key)
      modifies this
      ensures State() == Press(Dims(), old(State()), k)
      ensures old(Valid()) ==> Valid()
    {
      match k
      case ArrowUp => SetY(y + 1);
      case ArrowDown => SetY(y - 1);
      case ArrowLeft => SetX(x - 1);
      case ArrowRight => SetX(x + 1);
      case Other =>
    }
  }
}
