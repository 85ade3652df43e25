/**
 * `parseVoiceCommand`: a sentence is lower-cased and matched against the keyword branches
 * `move`, `pay`, `collect` and `buy`, in that order; each branch reads its fields with the
 * patterns below and either returns or falls through to the next branch. The ledger
 * snapshot the source reads from the global store is a parameter.
 */
module CommandParser {
  import opened Wrappers
  import opened Text
  import opened Patterns
  import opened GameTypes

  /** `ParsedCommand`: one variant per command type; ids are kept as the captured digits. */
  datatype ParsedCommand =
    | Move(playerId: string, position: nat)
    | Pay(playerId: string, amount: nat, targetId: Option<string>)
    | Collect(playerId: string, amount: nat, targetId: Option<string>)
    | Buy(playerId: string, propertyId: nat)
    | Unknown(error: string)

  // ---------------------------------------------------------------- patterns

  const PlayerNumber: Pattern := [Word("player"), Blanks, Number]      // player\s*(\d+)
  const PositionNumber: Pattern := [Word("position"), Blanks, Number]  // position\s*(\d+)
  const ToNumber: Pattern := [Word("to"), Blanks, Number]              // to\s*(\d+)
  const PlayerPays: Pattern := [Word("player"), Blanks, Number, Blanks, Word("pays")]
  const PaysAmount: Pattern := [Word("pays"), Blanks, Number]
  const ToPlayer: Pattern := [Word("to"), Blanks, Word("player"), Blanks, Number]
  const PlayerCollects: Pattern := [Word("player"), Blanks, Number, Blanks, Word("collects")]
  const CollectsAmount: Pattern := [Word("collects"), Blanks, Number]
  const FromPlayer: Pattern := [Word("from"), Blanks, Word("player"), Blanks, Number]

  /** `kw\s*(\d+)` reads as it is written when the keyword starts with a letter. */
  lemma KeywordNumberSeparated(kw: string)
    requires kw != [] && !IsBlank(kw[0]) && !IsDigit(kw[0])
    ensures Separated([Word(kw), Blanks, Number])
  {
    assert [Number][1..] == [] && [Blanks, Number][1..] == [Number];
    assert Separated([Blanks, Number]);
    assert [Word(kw), Blanks, Number][1..] == [Blanks, Number];
  }

  /** `a\s*(\d+)\s*b` likewise. */
  lemma NumberBetweenSeparated(a: string, b: string)
    requires a != [] && b != [] && !IsBlank(b[0]) && !IsDigit(b[0])
    ensures Separated([Word(a), Blanks, Number, Blanks, Word(b)])
  {
    assert [Word(b)][1..] == [] && [Blanks, Word(b)][1..] == [Word(b)];
    assert Separated([Blanks, Word(b)]);
    assert [Number, Blanks, Word(b)][1..] == [Blanks, Word(b)];
    assert Separated([Number, Blanks, Word(b)]);
    assert [Blanks, Number, Blanks, Word(b)][1..] == [Number, Blanks, Word(b)];
    assert Separated([Blanks, Number, Blanks, Word(b)]);
    assert [Word(a), Blanks, Number, Blanks, Word(b)][1..] == [Blanks, Number, Blanks, Word(b)];
  }

  /** `a\s*b\s*(\d+)` likewise. */
  lemma TwoKeywordsSeparated(a: string, b: string)
    requires b != [] && !IsBlank(b[0])
    ensures Separated([Word(a), Blanks, Word(b), Blanks, Number])
  {
    assert [Number][1..] == [] && [Blanks, Number][1..] == [Number];
    assert Separated([Blanks, Number]);
    assert [Word(b), Blanks, Number][1..] == [Blanks, Number];
    assert [Blanks, Word(b), Blanks, Number][1..] == [Word(b), Blanks, Number];
    assert Separated([Blanks, Word(b), Blanks, Number]);
    assert [Word(a), Blanks, Word(b), Blanks, Number][1..] == [Blanks, Word(b), Blanks, Number];
  }

  /** Every digit pattern has one group, and the engine's match is the plain reading's. */
  lemma PatternsSeparated()
    ensures Separated(PlayerNumber) && Separated(PositionNumber) && Separated(ToNumber)
    ensures Separated(PlayerPays) && Separated(PaysAmount) && Separated(ToPlayer)
    ensures Separated(PlayerCollects) && Separated(CollectsAmount) && Separated(FromPlayer)
  {
    KeywordNumberSeparated("player");
    KeywordNumberSeparated("position");
    KeywordNumberSeparated("to");
    KeywordNumberSeparated("pays");
    KeywordNumberSeparated("collects");
    NumberBetweenSeparated("player", "pays");
    NumberBetweenSeparated("player", "collects");
    TwoKeywordsSeparated("to", "player");
    TwoKeywordsSeparated("from", "player");
  }

  // ---------------------------------------------------------------- messages

  const NoPlayerError := "No player specified in the command"
  const NotRecognizedError := "Command not recognized"

  function NoSuchPlayerError(playerId: string): string {
    "Player " + playerId + " does not exist"
  }

  /** Shared with `executeCommand`, which repeats the text. */
  function InvalidPositionError(position: nat): string {
    "Invalid position: " + NatToString(position) + ". Position must be between 0 and 39."
  }

  function NoSuchPropertyError(name: string): string {
    "Property \"" + name + "\" not found"
  }

  // ---------------------------------------------------------------- player ids

  /** How a player id typed as digits is compared with the ledger's numeric ids. */
  datatype IdEquality =
    | Strict  // `===`, as the source writes it: a string never equals a number
    | Loose   // `==`: the digits are read as a number first

  /** `players.find(p => p.id <eq> id)`, as an index. */
  function FindPlayer(eq: IdEquality, players: seq<Player>, id: string): (r: Option<nat>)
    ensures r.Some? ==> eq == Loose && id != [] && IsDigits(id)
    ensures r.Some? ==> r.value < |players| && players[r.value].id == DigitsValue(id)
    ensures r.Some? ==> forall j :: 0 <= j < r.value ==> players[j].id != DigitsValue(id)
    ensures r.None? && eq == Loose && id != [] && IsDigits(id) ==>
              forall j :: 0 <= j < |players| ==> players[j].id != DigitsValue(id)
  {
    if eq == Loose && id != [] && IsDigits(id) then PlayerIndex(players, DigitsValue(id)) else None
  }

  /**
   * The comparison as written finds nobody, even when a player's id is exactly the number
   * the digits spell.
   */
  lemma StrictFindsNobody(players: seq<Player>, id: string)
    ensures FindPlayer(Strict, players, id).None?
  {
  }

  lemma StrictMissesExistingPlayer(p: Player)
    requires p.id == 1
    ensures FindPlayer(Loose, [p], "1") == Some(0)
    ensures FindPlayer(Strict, [p], "1") == None
  {
    assert DigitsValue("1") == DigitsValue("") * 10 + 1;
  }

  // ---------------------------------------------------------------- branches

  /** `positionMatch`: `position N` if present, else `to N`. */
  function MovePosition(s: string): (r: Option<string>)
    ensures Find(s, PositionNumber).Some? ==> r == Find(s, PositionNumber)
    ensures Find(s, PositionNumber).None? ==> r == Find(s, ToNumber)
    ensures r.Some? ==> r.value != [] && IsDigits(r.value)
    ensures r.None? <==> Find(s, PositionNumber).None? && Find(s, ToNumber).None?
  {
    assert Number in PositionNumber && Number in ToNumber;
    if Find(s, PositionNumber).Some? then Find(s, PositionNumber) else Find(s, ToNumber)
  }

  /** The first property whose lower-cased name is the lower-cased, trimmed group. */
  function PropertyNamed(props: seq<Property>, group: string): (r: Option<nat>)
    ensures r.Some? ==> r.value < |props| && Lower(props[r.value].name) == Lower(Trim(group))
    ensures r.Some? ==> forall j :: 0 <= j < r.value ==> Lower(props[j].name) != Lower(Trim(group))
    ensures r.None? ==> forall j :: 0 <= j < |props| ==> Lower(props[j].name) != Lower(Trim(group))
  {
    PropertyIndex(props, ByName(Trim(group)))
  }

  /**
   * The `move` branch of the sentence `s` (already lower-cased); None when it falls
   * through: a known player and neither a number nor a name after `to`.
   */
  function ParseMove(eq: IdEquality, s: string, g: GameState): (r: Option<ParsedCommand>)
    ensures r.Some? ==> r.value.Move? || (r.value.Unknown? && r.value.error != [])
    ensures r.Some? && r.value.Move? ==>
      && Find(s, PlayerNumber) == Some(r.value.playerId)
      && FindPlayer(eq, g.players, r.value.playerId).Some?
      && (r.value.position <= 39 ||
          exists k :: 0 <= k < |g.properties| && g.properties[k].position == r.value.position)
    ensures r.None? <==>
      && Find(s, PlayerNumber).Some?
      && FindPlayer(eq, g.players, Find(s, PlayerNumber).value).Some?
      && MovePosition(s).None? && FindName(s, "to").None?
  {
    var player := Find(s, PlayerNumber);
    if player.None? then Some(Unknown(NoPlayerError))
    else if FindPlayer(eq, g.players, player.value).None? then
      Some(Unknown(NoSuchPlayerError(player.value)))
    else if MovePosition(s).Some? then
      var position := DigitsValue(MovePosition(s).value);
      if position > 39 then Some(Unknown(InvalidPositionError(position)))
      else Some(Move(player.value, position))
    else if FindName(s, "to").Some? then
      var group := FindName(s, "to").value;
      var k := PropertyNamed(g.properties, group);
      if k.Some? then Some(Move(player.value, g.properties[k.value].position))
      else Some(Unknown(NoSuchPropertyError(Trim(group))))
    else None
  }

  /** The `pay` branch: a result only when both the payer and the amount are present. */
  function ParsePay(s: string): (r: Option<ParsedCommand>)
    ensures r.Some? <==> Find(s, PlayerPays).Some? && Find(s, PaysAmount).Some?
    ensures r.Some? ==> r.value.Pay? && r.value.targetId == Find(s, ToPlayer)
  {
    assert Number in PaysAmount;
    var payer, amount := Find(s, PlayerPays), Find(s, PaysAmount);
    if payer.Some? && amount.Some? then Some(Pay(payer.value, DigitsValue(amount.value), Find(s, ToPlayer)))
    else None
  }

  /** The `collect` branch, with `from player M` as the counterparty. */
  function ParseCollect(s: string): (r: Option<ParsedCommand>)
    ensures r.Some? <==> Find(s, PlayerCollects).Some? && Find(s, CollectsAmount).Some?
    ensures r.Some? ==> r.value.Collect? && r.value.targetId == Find(s, FromPlayer)
  {
    assert Number in CollectsAmount;
    var payee, amount := Find(s, PlayerCollects), Find(s, CollectsAmount);
    if payee.Some? && amount.Some? then Some(Collect(payee.value, DigitsValue(amount.value), Find(s, FromPlayer)))
    else None
  }

  /** The `buy` branch: a player number and a name after `buys` that names a property. */
  function ParseBuy(s: string, g: GameState): (r: Option<ParsedCommand>)
    ensures r.Some? <==>
      && Find(s, PlayerNumber).Some? && FindName(s, "buys").Some?
      && PropertyNamed(g.properties, FindName(s, "buys").value).Some?
    ensures r.Some? ==> r.value.Buy? && Some(r.value.playerId) == Find(s, PlayerNumber)
    ensures r.Some? ==> exists k :: 0 <= k < |g.properties| && g.properties[k].id == r.value.propertyId
  {
    var player, group := Find(s, PlayerNumber), FindName(s, "buys");
    if player.Some? && group.Some? && PropertyNamed(g.properties, group.value).Some? then
      Some(Buy(player.value, g.properties[PropertyNamed(g.properties, group.value).value].id))
    else None
  }

  /** Each branch: its keyword test, then its fields; None when it does not decide. */
  function MoveBranch(eq: IdEquality, s: string, g: GameState): Option<ParsedCommand> {
    if Contains(s, "move") || Contains(s, "moves to") then ParseMove(eq, s, g) else None
  }

  function PayBranch(s: string): Option<ParsedCommand> {
    if Contains(s, "pay") || Contains(s, "pays") then ParsePay(s) else None
  }

  function CollectBranch(s: string): Option<ParsedCommand> {
    if Contains(s, "collect") || Contains(s, "collects") then ParseCollect(s) else None
  }

  function BuyBranch(s: string, g: GameState): Option<ParsedCommand> {
    if Contains(s, "buy") || Contains(s, "buys") then ParseBuy(s, g) else None
  }

  /** `parseVoiceCommand`, with the id comparison as a parameter. */
  function ParseWith(eq: IdEquality, command: string, g: GameState): (r: ParsedCommand)
    ensures r.Unknown? ==> r.error != []
    ensures r.Move? ==> FindPlayer(eq, g.players, r.playerId).Some?
    ensures r.Buy? ==> exists k :: 0 <= k < |g.properties| && g.properties[k].id == r.propertyId
  {
    var s := Lower(command);
    if MoveBranch(eq, s, g).Some? then MoveBranch(eq, s, g).value
    else if PayBranch(s).Some? then PayBranch(s).value
    else if CollectBranch(s).Some? then CollectBranch(s).value
    else if BuyBranch(s, g).Some? then BuyBranch(s, g).value
    else Unknown(NotRecognizedError)
  }

  /** The interpreter's parser, with ids compared as numbers. */
  function Parse(command: string, g: GameState): (r: ParsedCommand)
    ensures r.Move? ==> FindPlayer(Loose, g.players, r.playerId).Some?
    ensures r.Unknown? ==> r.error != []
  {
    ParseWith(Loose, command, g)
  }

  // ---------------------------------------------------------------- properties

  /** A longer keyword test is subsumed by its prefix: `moves to` by `move`, `pays` by `pay`. */
  lemma KeywordSubsumed(s: string, w: string, x: string)
    ensures Contains(s, w + x) ==> Contains(s, w)
  {
    if Contains(s, w + x) {
      var i :| 0 <= i <= |s| && MatchesAt(s, i, w + x);
      assert s[i..i + |w|] == s[i..i + |w + x|][..|w|];
      assert MatchesAt(s, i, w);
    }
  }

  /** Each branch's second keyword test is redundant. */
  lemma BranchKeywords(eq: IdEquality, s: string, g: GameState)
    ensures MoveBranch(eq, s, g) == if Contains(s, "move") then ParseMove(eq, s, g) else None
    ensures PayBranch(s) == if Contains(s, "pay") then ParsePay(s) else None
    ensures CollectBranch(s) == if Contains(s, "collect") then ParseCollect(s) else None
    ensures BuyBranch(s, g) == if Contains(s, "buy") then ParseBuy(s, g) else None
  {
    KeywordSubsumed(s, "move", "s to");
    assert "move" + "s to" == "moves to";
    KeywordSubsumed(s, "pay", "s");
    assert "pay" + "s" == "pays";
    KeywordSubsumed(s, "collect", "s");
    assert "collect" + "s" == "collects";
    KeywordSubsumed(s, "buy", "s");
    assert "buy" + "s" == "buys";
  }

  /**
   * The branches are tried in the order move, pay, collect, buy; a branch decides the
   * result exactly when its keyword occurs and it does not fall through, and a sentence
   * no branch decides is not recognized.
   */
  lemma KeywordPrecedence(command: string, g: GameState)
    ensures var s := Lower(command);
      var move := if Contains(s, "move") then ParseMove(Loose, s, g) else None;
      var pay := if Contains(s, "pay") then ParsePay(s) else None;
      var collect := if Contains(s, "collect") then ParseCollect(s) else None;
      var buy := if Contains(s, "buy") then ParseBuy(s, g) else None;
      && (move.Some? ==> Parse(command, g) == move.value)
      && (move.None? && pay.Some? ==> Parse(command, g) == pay.value)
      && (move.None? && pay.None? && collect.Some? ==> Parse(command, g) == collect.value)
      && (move.None? && pay.None? && collect.None? && buy.Some? ==> Parse(command, g) == buy.value)
      && (move.None? && pay.None? && collect.None? && buy.None? ==>
            Parse(command, g) == Unknown(NotRecognizedError))
  {
    BranchKeywords(Loose, Lower(command), g);
  }

  /** Every unrecognized or rejected sentence carries a message; none is empty. */
  lemma UnknownHasError(eq: IdEquality, command: string, g: GameState)
    ensures ParseWith(eq, command, g).Unknown? ==> ParseWith(eq, command, g).error != []
  {
    ParseKinds(eq, command, g);
  }

  /**
   * What a sentence containing `move` yields: the errors for a missing `player N`, for a
   * player the ledger does not know, for a position beyond the board and for a name no
   * property has; otherwise a move to the position or to the named property's square.
   * Only a known player with neither a position nor a name falls through.
   */
  lemma MoveOutcomes(command: string, g: GameState)
    requires Contains(Lower(command), "move")
    ensures var s := Lower(command);
      var player := Find(s, PlayerNumber);
      && (player.None? ==> Parse(command, g) == Unknown(NoPlayerError))
      && (player.Some? && FindPlayer(Loose, g.players, player.value).None? ==>
            Parse(command, g) == Unknown(NoSuchPlayerError(player.value)))
      && (player.Some? && FindPlayer(Loose, g.players, player.value).Some? && MovePosition(s).Some? ==>
            var position := DigitsValue(MovePosition(s).value);
            Parse(command, g) == if position > 39 then Unknown(InvalidPositionError(position))
                                 else Move(player.value, position))
      && (player.Some? && FindPlayer(Loose, g.players, player.value).Some? && MovePosition(s).None?
          && FindName(s, "to").Some? ==>
            var group := FindName(s, "to").value;
            match PropertyNamed(g.properties, group)
            case Some(k) => Parse(command, g) == Move(player.value, g.properties[k].position)
            case None => Parse(command, g) == Unknown(NoSuchPropertyError(Trim(group))))
  {
    BranchKeywords(Loose, Lower(command), g);
  }

  /** Which branch produced a result can be read off its kind. */
  lemma ParseKinds(eq: IdEquality, command: string, g: GameState)
    ensures var s := Lower(command);
      var r := ParseWith(eq, command, g);
      && (r.Move? ==> MoveBranch(eq, s, g) == Some(r))
      && (r.Pay? ==> MoveBranch(eq, s, g).None? && PayBranch(s) == Some(r))
      && (r.Collect? ==> MoveBranch(eq, s, g).None? && PayBranch(s).None? && CollectBranch(s) == Some(r))
      && (r.Unknown? ==> MoveBranch(eq, s, g) == Some(r) || r == Unknown(NotRecognizedError))
  {
    BranchResults(eq, Lower(command), g);
  }

  /** Each branch decides only commands of its own kind; the `move` branch also rejects. */
  lemma BranchResults(eq: IdEquality, s: string, g: GameState)
    ensures MoveBranch(eq, s, g).Some? ==> MoveBranch(eq, s, g).value.Move? || MoveBranch(eq, s, g).value.Unknown?
    ensures PayBranch(s).Some? ==> PayBranch(s).value.Pay?
    ensures CollectBranch(s).Some? ==> CollectBranch(s).value.Collect?
    ensures BuyBranch(s, g).Some? ==> BuyBranch(s, g).value.Buy?
  {
    var move, pay := MoveBranch(eq, s, g), PayBranch(s);
    var collect, buy := CollectBranch(s), BuyBranch(s, g);
    assert move.Some? ==> move == ParseMove(eq, s, g);
    assert pay.Some? ==> pay == ParsePay(s);
    assert collect.Some? ==> collect == ParseCollect(s);
    assert buy.Some? ==> buy == ParseBuy(s, g);
  }

  /**
   * A move names a player the ledger knows, and goes to a square within 0..39 or to the
   * square of a property in the table.
   */
  lemma MoveTargets(command: string, g: GameState)
    ensures Parse(command, g).Move? ==>
      && FindPlayer(Loose, g.players, Parse(command, g).playerId).Some?
      && (Parse(command, g).position <= 39 ||
          exists k :: 0 <= k < |g.properties| && g.properties[k].position == Parse(command, g).position)
  {
    ParseKinds(Loose, command, g);
  }

  /** With every property on the board, every move stays on the board. */
  lemma MoveInRange(command: string, g: GameState)
    requires forall k :: 0 <= k < |g.properties| ==> g.properties[k].position <= 39
    ensures Parse(command, g).Move? ==> Parse(command, g).position <= 39
  {
    MoveTargets(command, g);
  }

  /**
   * A payment is parsed exactly when the `move` branch does not decide, the sentence
   * contains `pay`, and both `player N pays` and `pays A` occur; the payer's existence
   * is not checked, and the payee is set only by `to player M`.
   */
  lemma PayOutcome(command: string, g: GameState)
    ensures var s := Lower(command);
      && (Parse(command, g).Pay? <==>
            && MoveBranch(Loose, s, g).None? && Contains(s, "pay")
            && Find(s, PlayerPays).Some? && Find(s, PaysAmount).Some?)
      && (Parse(command, g).Pay? ==>
            && Parse(command, g).playerId == Find(s, PlayerPays).value
            && Parse(command, g).amount == DigitsValue(Find(s, PaysAmount).value)
            && Parse(command, g).targetId == Find(s, ToPlayer))
  {
    var s := Lower(command);
    BranchKeywords(Loose, s, g);
    assert Number in PaysAmount;
  }

  /** The same for a collection, with `player N collects`, `collects A` and `from player M`. */
  lemma CollectOutcome(command: string, g: GameState)
    ensures var s := Lower(command);
      && (Parse(command, g).Collect? <==>
            && MoveBranch(Loose, s, g).None? && PayBranch(s).None? && Contains(s, "collect")
            && Find(s, PlayerCollects).Some? && Find(s, CollectsAmount).Some?)
      && (Parse(command, g).Collect? ==>
            && Parse(command, g).playerId == Find(s, PlayerCollects).value
            && Parse(command, g).amount == DigitsValue(Find(s, CollectsAmount).value)
            && Parse(command, g).targetId == Find(s, FromPlayer))
  {
    var s := Lower(command);
    BranchKeywords(Loose, s, g);
    assert Number in CollectsAmount;
  }

  /**
   * A purchase is parsed exactly when no earlier branch decides, the sentence contains
   * `buy`, a `player N` occurs and the name after `buys` names a property; the result
   * carries the id of the first property with that name, and the buyer is not checked.
   */
  lemma BuyOutcome(command: string, g: GameState)
    ensures var s := Lower(command);
      && (Parse(command, g).Buy? <==>
            && MoveBranch(Loose, s, g).None? && PayBranch(s).None? && CollectBranch(s).None?
            && Contains(s, "buy") && Find(s, PlayerNumber).Some? && FindName(s, "buys").Some?
            && PropertyNamed(g.properties, FindName(s, "buys").value).Some?)
      && (Parse(command, g).Buy? ==>
            && Parse(command, g).playerId == Find(s, PlayerNumber).value
            && Parse(command, g).propertyId ==
                 g.properties[PropertyNamed(g.properties, FindName(s, "buys").value).value].id)
  {
    BranchKeywords(Loose, Lower(command), g);
  }

  /**
   * A property whose name has a character outside `[a-zA-Z &]` (such as the dot of
   * "St. Charles Place") is never the one a name group selects.
   */
  lemma PunctuatedNameNeverSelected(props: seq<Property>, k: nat, s: string, kw: string)
    requires k < |props| && exists c :: c in props[k].name && !IsNameChar(c)
    requires FindName(s, kw).Some?
    ensures PropertyNamed(props, FindName(s, kw).value) != Some(k)
  {
    var group := FindName(s, kw).value;
    var c :| c in props[k].name && !IsNameChar(c);
    var i :| 0 <= i < |props[k].name| && props[k].name[i] == c;
    var t := Trim(group);
    assert !IsNameChar(Lower(props[k].name)[i]);
    assert forall j :: 0 <= j < |t| ==> IsNameChar(Lower(t)[j]) by {
      forall j | 0 <= j < |t| ensures IsNameChar(Lower(t)[j]) {
        assert t[j] in t;
      }
    }
  }

  /**
   * With ids compared as written, a sentence with `move` and a `player N` is always
   * rejected as naming a player who does not exist, whatever the ledger holds.
   */
  lemma StrictMoveRejected(command: string, g: GameState)
    requires Contains(Lower(command), "move") && Find(Lower(command), PlayerNumber).Some?
    ensures ParseWith(Strict, command, g) ==
              Unknown(NoSuchPlayerError(Find(Lower(command), PlayerNumber).value))
  {
    BranchKeywords(Strict, Lower(command), g);
  }

  /** With ids compared as written, no sentence is parsed as a move. */
  lemma StrictNeverMoves(command: string, g: GameState)
    ensures !ParseWith(Strict, command, g).Move?
  {
    var s := Lower(command);
    assert MoveBranch(Strict, s, g).Some? ==> !MoveBranch(Strict, s, g).value.Move?;
  }
}
