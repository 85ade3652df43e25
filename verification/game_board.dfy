/**
 * The board view's arithmetic: which property and which players sit on a square, the
 * labels of the special squares, and where `renderBoard` puts each of the forty squares
 * on the 11 x 11 grid (columns and rows counted from 1, as CSS grid lines are).
 */
module GameBoard {
  import opened Wrappers
  import opened GameTypes

  /** `BOARD_SIZE`: the grid is 11 columns by 11 rows. */
  const BoardSize: nat := 11

  /** Squares are numbered 0 (GO) to 39 (Boardwalk). */
  const Squares: nat := 40

  // ---------------------------------------------------------------- lookups

  /** `getPropertyAtPosition`: the first property on the square, if any. */
  function PropertyAt(props: seq<Property>, position: nat): (r: Option<Property>)
    ensures r.Some? ==> r.value in props && r.value.position == position
    ensures r.Some? ==> exists k :: 0 <= k < |props| && props[k] == r.value &&
                          forall j :: 0 <= j < k ==> props[j].position != position
    ensures r.None? <==> forall k :: 0 <= k < |props| ==> props[k].position != position
  {
    match PropertyIndex(props, AtPosition(position))
    case None => None
    case Some(k) => Some(props[k])
  }

  /** `getPlayersAtPosition`: the players on the square, in the order of the list. */
  function PlayersAt(players: seq<Player>, position: nat): (r: seq<Player>)
    ensures |r| <= |players|
    ensures forall p :: p in r <==> p in players && p.position == position
    decreases |players|
  {
    if players == [] then []
    else if players[0].position == position then [players[0]] + PlayersAt(players[1..], position)
    else PlayersAt(players[1..], position)
  }

  /** Filtering distributes over concatenation, so the original order is kept. */
  lemma {:induction false} PlayersAtConcat(a: seq<Player>, b: seq<Player>, position: nat)
    ensures PlayersAt(a + b, position) == PlayersAt(a, position) + PlayersAt(b, position)
    decreases |a|
  {
    if a != [] {
      assert (a + b)[1..] == a[1..] + b;
      PlayersAtConcat(a[1..], b, position);
    } else {
      assert a + b == b;
    }
  }

  /** Players on the square are kept whole; players elsewhere are dropped entirely. */
  lemma {:induction false} PlayersAtKeepsAll(players: seq<Player>, position: nat)
    ensures (forall k :: 0 <= k < |players| ==> players[k].position == position) ==>
              PlayersAt(players, position) == players
    ensures (forall k :: 0 <= k < |players| ==> players[k].position != position) ==>
              PlayersAt(players, position) == []
    decreases |players|
  {
    if players != [] {
      PlayersAtKeepsAll(players[1..], position);
      assert forall k :: 1 <= k < |players| ==> players[1..][k - 1] == players[k];
    }
  }

  // ---------------------------------------------------------------- labels

  /** The label if-chain for the special squares, in the order the source tests them. */
  function SpecialLabel(position: nat): (r: Option<string>)
    ensures r.Some? <==> position in {0, 2, 4, 7, 10, 17, 20, 22, 30, 33, 36, 38}
    ensures r.Some? ==> r.value != []
  {
    if position == 0 then Some("GO")
    else if position == 10 then Some("JAIL")
    else if position == 20 then Some("FREE PARKING")
    else if position == 30 then Some("GO TO JAIL")
    else if position in [2, 17, 33] then Some("COMMUNITY CHEST")
    else if position in [7, 22, 36] then Some("CHANCE")
    else if position == 4 then Some("INCOME TAX")
    else if position == 38 then Some("LUXURY TAX")
    else None
  }

  predicate IsSpecial(position: nat) {
    SpecialLabel(position).Some?
  }

  /** The special squares are exactly these twelve, and each has its own label. */
  lemma SpecialSquares(position: nat)
    ensures IsSpecial(position) <==> position in {0, 2, 4, 7, 10, 17, 20, 22, 30, 33, 36, 38}
    ensures position in {0, 2, 4, 7, 10, 17, 20, 22, 30, 33, 36, 38} ==>
      SpecialLabel(position) == Some(
        if position == 0 then "GO"
        else if position == 10 then "JAIL"
        else if position == 20 then "FREE PARKING"
        else if position == 30 then "GO TO JAIL"
        else if position in {2, 17, 33} then "COMMUNITY CHEST"
        else if position in {7, 22, 36} then "CHANCE"
        else if position == 4 then "INCOME TAX"
        else "LUXURY TAX")
  {
  }

  /** `cellLabel`: a special label first, else the property's name, else empty. */
  function CellLabel(props: seq<Property>, position: nat): (r: string)
    ensures IsSpecial(position) ==> Some(r) == SpecialLabel(position)
    ensures !IsSpecial(position) && PropertyAt(props, position).Some? ==>
              r == PropertyAt(props, position).value.name
    ensures !IsSpecial(position) && PropertyAt(props, position).None? ==> r == ""
  {
    match SpecialLabel(position)
    case Some(special) => special
    case None =>
      match PropertyAt(props, position)
      case Some(p) => p.name
      case None => ""
  }

  /** What `renderBoardCell` shows: the label, the property's price, the tokens present. */
  datatype Cell = Cell(position: nat, caption: string, price: Option<nat>, occupants: seq<Player>)

  function RenderCell(props: seq<Property>, players: seq<Player>, position: nat): (r: Cell)
    ensures r.position == position && r.caption == CellLabel(props, position)
    ensures r.price.Some? <==> PropertyAt(props, position).Some?
    ensures r.price.Some? ==> r.price.value == PropertyAt(props, position).value.price
    ensures forall p :: p in r.occupants <==> p in players && p.position == position
  {
    var property := PropertyAt(props, position);
    Cell(position, CellLabel(props, position),
         if property.Some? then Some(property.value.price) else None,
         PlayersAt(players, position))
  }

  // ---------------------------------------------------------------- placement

  /** A grid box: the `gridColumn` and `gridRow` of one rendered square. */
  datatype Placed = Placed(column: int, row: int, cell: Cell)

  /** The column and row the four loops of `renderBoard` give a square. */
  function Placement(position: nat): (p: (int, int))
    requires position < Squares
    ensures 1 <= p.0 <= BoardSize && 1 <= p.1 <= BoardSize
    ensures p.0 == 1 || p.0 == BoardSize || p.1 == 1 || p.1 == BoardSize
  {
    if 20 <= position <= 30 then (31 - position, 1)
    else if 31 <= position then (11, position - 29)
    else if 10 <= position then (position - 9, 11)
    else (1, 11 - position)
  }

  /** Every square lands inside the grid and on its border. */
  lemma PlacementOnBorder(position: nat)
    requires position < Squares
    ensures var (c, r) := Placement(position);
      && 1 <= c <= BoardSize && 1 <= r <= BoardSize
      && (c == 1 || c == BoardSize || r == 1 || r == BoardSize)
  {
  }

  /**
   * The placement is not one-to-one: GO and JAIL share the bottom-left box, and the
   * bottom-right box is never used.
   */
  lemma PlacementCollides()
    ensures Placement(0) == Placement(10) == (1, 11)
    ensures forall p :: 0 <= p < Squares ==> Placement(p) != (11, 11)
  {
  }

  /** Apart from GO and JAIL, different squares get different boxes. */
  lemma PlacementOtherwiseDistinct(p: nat, q: nat)
    requires p < q < Squares && Placement(p) == Placement(q)
    ensures p == 0 && q == 10
  {
  }

  /** The square drawn at index `k` of the returned array: 20..30, 31..39, 10..19, 0..9. */
  function SquareAt(k: nat): (position: nat)
    requires k < Squares
    ensures position < Squares
  {
    if k < 20 then k + 20
    else if k < 30 then k - 10
    else k - 30
  }

  /** The index at which a square is drawn; the inverse of `SquareAt`. */
  function IndexOf(position: nat): (k: nat)
    requires position < Squares
    ensures k < Squares && SquareAt(k) == position
  {
    if position >= 20 then position - 20
    else if position >= 10 then position + 10
    else position + 30
  }

  /** Each of the forty squares is drawn exactly once. */
  lemma SquareAtIsBijective(k: nat, m: nat)
    requires k < Squares && m < Squares
    ensures SquareAt(k) == SquareAt(m) ==> k == m
    ensures IndexOf(SquareAt(k)) == k
  {
  }

  function Box(props: seq<Property>, players: seq<Player>, position: nat): Placed
    requires position < Squares
  {
    var (c, r) := Placement(position);
    Placed(c, r, RenderCell(props, players, position))
  }

  /**
   * `renderBoard`: the top row, right column, bottom row and left column built by four
   * loops and concatenated.
   */
  method RenderBoard(props: seq<Property>, players: seq<Player>) returns (board: seq<Placed>)
    ensures |board| == Squares
    ensures forall k :: 0 <= k < Squares ==> board[k] == Box(props, players, SquareAt(k))
    ensures forall p :: 0 <= p < Squares ==> board[IndexOf(p)].cell.position == p
  {
    var topRow: seq<Placed> := [];
    for i := 20 to 31
      invariant |topRow| == i - 20
      invariant forall k :: 0 <= k < |topRow| ==> topRow[k] == Placed(11 - k, 1, RenderCell(props, players, k + 20))
    {
      topRow := topRow + [Placed(31 - i, 1, RenderCell(props, players, i))];
    }
    var rightColumn: seq<Placed> := [];
    for i := 31 to 40
      invariant |rightColumn| == i - 31
      invariant forall k :: 0 <= k < |rightColumn| ==> rightColumn[k] == Placed(11, k + 2, RenderCell(props, players, k + 31))
    {
      rightColumn := rightColumn + [Placed(11, i - 29, RenderCell(props, players, i))];
    }
    var bottomRow: seq<Placed> := [];
    for i := 10 to 20
      invariant |bottomRow| == i - 10
      invariant forall k :: 0 <= k < |bottomRow| ==> bottomRow[k] == Placed(k + 1, 11, RenderCell(props, players, k + 10))
    {
      bottomRow := bottomRow + [Placed(i - 9, 11, RenderCell(props, players, i))];
    }
    var leftColumn: seq<Placed> := [];
    for i := 0 to 10
      invariant |leftColumn| == i
      invariant forall k :: 0 <= k < |leftColumn| ==> leftColumn[k] == Placed(1, 11 - k, RenderCell(props, players, k))
    {
      leftColumn := leftColumn + [Placed(1, 11 - i, RenderCell(props, players, i))];
    }
    board := topRow + rightColumn + bottomRow + leftColumn;
    Assembled(props, players, topRow, rightColumn, bottomRow, leftColumn);
  }

  /** The four strips, joined in order, draw square `SquareAt(k)` at index `k`. */
  lemma Assembled(props: seq<Property>, players: seq<Player>,
                  top: seq<Placed>, right: seq<Placed>, bottom: seq<Placed>, left: seq<Placed>)
    requires |top| == 11 && |right| == 9 && |bottom| == 10 && |left| == 10
    requires forall k :: 0 <= k < |top| ==> top[k] == Placed(11 - k, 1, RenderCell(props, players, k + 20))
    requires forall k :: 0 <= k < |right| ==> right[k] == Placed(11, k + 2, RenderCell(props, players, k + 31))
    requires forall k :: 0 <= k < |bottom| ==> bottom[k] == Placed(k + 1, 11, RenderCell(props, players, k + 10))
    requires forall k :: 0 <= k < |left| ==> left[k] == Placed(1, 11 - k, RenderCell(props, players, k))
    ensures var board := top + right + bottom + left;
      && |board| == Squares
      && (forall k :: 0 <= k < Squares ==> board[k] == Box(props, players, SquareAt(k)))
      && (forall p :: 0 <= p < Squares ==> board[IndexOf(p)].cell.position == p)
  {
    var board := top + right + bottom + left;
    forall k | 0 <= k < Squares
      ensures board[k] == Box(props, players, SquareAt(k))
    {
      if k < 11 {
        assert board[k] == top[k];
      } else if k < 20 {
        assert board[k] == right[k - 11];
      } else if k < 30 {
        assert board[k] == bottom[k - 20];
      } else {
        assert board[k] == left[k - 30];
      }
    }
  }
}
