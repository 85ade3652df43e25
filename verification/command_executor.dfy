/**
 * `executeCommand`: the parsed sentence is checked against the ledger and turned into a
 * short sequence of reducer calls and one reply. `Apply` is the specification: the state
 * after the calls and the reply, as functions of the state before. `ExecuteCommand`
 * performs the same calls one at a time on a store. The clock (`Date.now()` and
 * `new Date()`) is the parameter `now`.
 */
module CommandExecutor {
  import opened Wrappers
  import opened Text
  import opened GameTypes
  import opened GameSlice
  import opened CommandParser

  /** The ledger after the command and the text shown to the user. */
  datatype Reply = Reply(state: GameState, message: string)

  function FallbackMessage(command: string): (r: string)
    ensures |r| > 5 && r[..5] == "Error"
  {
    "Error processing command: " + command
  }

  function UnrecognizedMessage(command: string): (r: string)
    ensures |r| > 7 && r[..7] == "Command"
  {
    "Command not recognized: " + command
  }

  function MovedMessage(playerId: string, position: nat): (r: string)
    ensures |r| > 6 && r[..6] == "Player"
  {
    "Player " + playerId + " moved to position " + NatToString(position)
  }

  function PaidMessage(playerId: string, amount: nat, payee: Option<string>): (r: string)
    ensures |r| > 6 && r[..6] == "Player"
  {
    "Player " + playerId + " paid $" + NatToString(amount) + " to " +
    (if payee.Some? then "Player " + payee.value else "the bank")
  }

  function CollectedMessage(playerId: string, amount: nat, payer: Option<string>): (r: string)
    ensures |r| > 6 && r[..6] == "Player"
  {
    "Player " + playerId + " collected $" + NatToString(amount) + " from " +
    (if payer.Some? then "Player " + payer.value else "the bank")
  }

  function BoughtMessage(buyer: nat, name: string, price: nat): (r: string)
    ensures |r| > 6 && r[..6] == "Player"
  {
    "Player " + NatToString(buyer) + " bought " + name + " for $" + NatToString(price)
  }

  /** The counterparty named by `targetId`, when it is non-empty and the ledger knows it. */
  function Counterparty(eq: IdEquality, players: seq<Player>, targetId: Option<string>): (r: Option<string>)
    ensures r.Some? ==> targetId == r && FindPlayer(eq, players, r.value).Some?
    ensures r.None? ==> targetId.None? || FindPlayer(eq, players, targetId.value).None?
  {
    if targetId.Some? && targetId.value != [] && FindPlayer(eq, players, targetId.value).Some? then targetId
    else None
  }

  /**
   * What every command leaves alone: the cards, the number of players and properties, the
   * player ids and every transaction already recorded (at most one is appended).
   */
  predicate Keeps(g: GameState, r: GameState) {
    && r.cards == g.cards
    && |r.players| == |g.players| && |r.properties| == |g.properties|
    && (forall j :: 0 <= j < |g.players| ==> r.players[j].id == g.players[j].id)
    && (r.transactions == g.transactions ||
        (|r.transactions| == |g.transactions| + 1 && r.transactions[..|g.transactions|] == g.transactions))
  }

  /** The index of the player a known id names. */
  function Seat(eq: IdEquality, players: seq<Player>, id: string): nat
    requires FindPlayer(eq, players, id).Some?
  {
    FindPlayer(eq, players, id).value
  }

  /**
   * The money moves of a payment (`paying`) or a collection: the subject pays or receives
   * `amount`; a known counterparty receives or pays it and one RENT entry, from payer to
   * payee, records it.
   */
  function Transfer(eq: IdEquality, g: GameState, subject: string, amount: nat,
                    counterparty: Option<string>, now: nat, paying: bool): (r: GameState)
    requires FindPlayer(eq, g.players, subject).Some?
    requires counterparty.Some? ==> FindPlayer(eq, g.players, counterparty.value).Some?
    ensures Keeps(g, r) && r.properties == g.properties
  {
    var s := DigitsValue(subject);
    var g1 := AfterUpdatePlayerMoney(g, s, if paying then -(amount as int) else amount);
    if counterparty.Some? then
      var c := DigitsValue(counterparty.value);
      var g2 := AfterUpdatePlayerMoney(g1, c, if paying then amount else -(amount as int));
      AfterAddTransaction(g2, Transaction(now, if paying then s else c, if paying then c else s, amount, now, Rent))
    else g1
  }

  /**
   * A transfer changes only money, and only the two players': the subject's by the amount
   * one way and a known counterparty's by the amount the other way.
   */
  lemma TransferMoves(eq: IdEquality, g: GameState, subject: string, amount: nat,
                      counterparty: Option<string>, now: nat, paying: bool)
    requires FindPlayer(eq, g.players, subject).Some?
    requires counterparty.Some? ==> FindPlayer(eq, g.players, counterparty.value).Some?
    ensures var r := Transfer(eq, g, subject, amount, counterparty, now, paying);
      forall j :: 0 <= j < |g.players| ==>
        && r.players[j] == g.players[j].(money := r.players[j].money)
        && r.players[j].money == g.players[j].money
             + (if j == Seat(eq, g.players, subject) then (if paying then -(amount as int) else amount) else 0)
             + (if counterparty.Some? && j == Seat(eq, g.players, counterparty.value)
                then (if paying then amount else -(amount as int)) else 0)
  {
    var s := DigitsValue(subject);
    var g1 := AfterUpdatePlayerMoney(g, s, if paying then -(amount as int) else amount);
    if counterparty.Some? {
      PlayerIndexByIds(g1.players, g.players, DigitsValue(counterparty.value));
    }
  }

  /**
   * The ledger side of a transfer: with a known counterparty exactly one RENT entry is
   * appended and the players' total is unchanged; with the bank nothing is recorded and
   * the total changes by the amount.
   */
  lemma TransferBalance(eq: IdEquality, g: GameState, subject: string, amount: nat,
                        counterparty: Option<string>, now: nat, paying: bool)
    requires FindPlayer(eq, g.players, subject).Some?
    requires counterparty.Some? ==> FindPlayer(eq, g.players, counterparty.value).Some?
    ensures var r := Transfer(eq, g, subject, amount, counterparty, now, paying);
      && (counterparty.None? ==> r.transactions == g.transactions)
      && (counterparty.Some? ==>
            var s, c := DigitsValue(subject), DigitsValue(counterparty.value);
            r.transactions == g.transactions +
              [Transaction(now, if paying then s else c, if paying then c else s, amount, now, Rent)])
      && TotalMoney(r.players) == TotalMoney(g.players) +
           (if counterparty.Some? then 0 else if paying then -(amount as int) else amount)
  {
    var s := DigitsValue(subject);
    var g1 := AfterUpdatePlayerMoney(g, s, if paying then -(amount as int) else amount);
    UpdatePlayerMoneyTotal(g, s, if paying then -(amount as int) else amount);
    if counterparty.Some? {
      var c := DigitsValue(counterparty.value);
      PlayerIndexByIds(g1.players, g.players, c);
      UpdatePlayerMoneyTotal(g1, c, if paying then amount else -(amount as int));
    }
  }

  /** The purchase itself, once the guards hold: pay the price, take the deed, record it. */
  function Acquire(g: GameState, buyer: nat, k: nat, now: nat): (r: GameState)
    requires buyer < |g.players| && k < |g.properties|
    ensures Keeps(g, r)
  {
    var player, property := g.players[buyer], g.properties[k];
    Bought(g, player.id, property.id, property.price, now)
  }

  /** The three reducers of a purchase, in order: price, owner, record. */
  function Bought(g: GameState, buyer: nat, propertyId: nat, price: nat, now: nat): (r: GameState)
    ensures r.transactions == g.transactions + [Transaction(now, buyer, 0, price, now, Purchase)]
    ensures r.cards == g.cards && |r.players| == |g.players| && |r.properties| == |g.properties|
  {
    AfterAddTransaction(
      AfterUpdatePropertyOwner(AfterUpdatePlayerMoney(g, buyer, -(price as int)), propertyId, buyer),
      Transaction(now, buyer, 0, price, now, Purchase))
  }

  /**
   * A purchase takes the price from the buyer (however little money is left), records the
   * buyer as owner both in the table and in the buyer's own list, and appends one
   * PURCHASE entry to the bank; no other player and no other property changes.
   */
  lemma AcquireEffect(g: GameState, buyer: nat, k: nat, now: nat)
    requires buyer < |g.players| && k < |g.properties|
    requires PlayerIndex(g.players, g.players[buyer].id) == Some(buyer)
    requires PropertyIndex(g.properties, ById(g.properties[k].id)) == Some(k)
    ensures var r := Acquire(g, buyer, k, now);
      var player, property := g.players[buyer], g.properties[k];
      && r.players[buyer] == player.(money := player.money - property.price,
                                     properties := player.properties + [Owned(property, player.id)])
      && (forall j :: 0 <= j < |g.players| && j != buyer ==> r.players[j] == g.players[j])
      && r.properties == g.properties[k := Owned(property, player.id)]
      && r.transactions == g.transactions + [Transaction(now, player.id, 0, property.price, now, Purchase)]
  {
    var player, property := g.players[buyer], g.properties[k];
    var g1 := AfterUpdatePlayerMoney(g, player.id, -(property.price as int));
    PlayerIndexByIds(g1.players, g.players, player.id);
    assert g1.properties == g.properties;
  }

  /** The price leaves the players' total: it goes to the bank. */
  lemma AcquireBalance(g: GameState, buyer: nat, k: nat, now: nat)
    requires buyer < |g.players| && k < |g.properties|
    requires PlayerIndex(g.players, g.players[buyer].id) == Some(buyer)
    ensures TotalMoney(Acquire(g, buyer, k, now).players) == TotalMoney(g.players) - g.properties[k].price
  {
    var player, property := g.players[buyer], g.properties[k];
    var g1 := AfterUpdatePlayerMoney(g, player.id, -(property.price as int));
    var g2 := AfterUpdatePropertyOwner(g1, property.id, player.id);
    assert Acquire(g, buyer, k, now).players == g2.players;
    UpdatePlayerMoneyTotal(g, player.id, -(property.price as int));
    UpdatePropertyOwnerTotal(g1, property.id, player.id);
  }

  /** The `MOVE` case: a known player and a square on the board. */
  function ApplyMove(eq: IdEquality, g: GameState, playerId: string, position: nat, command: string): (r: Reply)
    ensures Keeps(g, r.state)
  {
    if playerId != [] && FindPlayer(eq, g.players, playerId).Some? && position <= 39 then
      Reply(AfterUpdatePlayerPosition(g, DigitsValue(playerId), position), MovedMessage(playerId, position))
    else if playerId != [] && position > 39 then
      Reply(g, InvalidPositionError(position))
    else
      Reply(g, FallbackMessage(command))
  }

  /** The `PAY` (`paying`) and `COLLECT` cases: a non-zero amount and a known subject. */
  function ApplyTransfer(eq: IdEquality, g: GameState, playerId: string, amount: nat,
                         targetId: Option<string>, command: string, now: nat, paying: bool): (r: Reply)
    ensures Keeps(g, r.state)
  {
    if playerId != [] && amount != 0 && FindPlayer(eq, g.players, playerId).Some? then
      var other := Counterparty(eq, g.players, targetId);
      Reply(Transfer(eq, g, playerId, amount, other, now, paying),
            if paying then PaidMessage(playerId, amount, other) else CollectedMessage(playerId, amount, other))
    else
      Reply(g, FallbackMessage(command))
  }

  /** The `BUY` case: a known buyer and a property, by id, that nobody owns. */
  function ApplyBuy(eq: IdEquality, g: GameState, playerId: string, propertyId: nat,
                    command: string, now: nat): (r: Reply)
    ensures Keeps(g, r.state)
  {
    var buyer := FindPlayer(eq, g.players, playerId);
    var found := PropertyIndex(g.properties, ById(propertyId));
    if playerId != [] && propertyId != 0 && buyer.Some? && found.Some?
       && Unowned(g.properties[found.value]) then
      var property := g.properties[found.value];
      Reply(Acquire(g, buyer.value, found.value, now),
            BoughtMessage(g.players[buyer.value].id, property.name, property.price))
    else
      Reply(g, FallbackMessage(command))
  }

  /**
   * `executeCommand` on an already parsed command, with the id comparison as a parameter:
   * a rejection's message is returned as it is, with the ledger untouched.
   */
  function Apply(eq: IdEquality, g: GameState, cmd: ParsedCommand, command: string, now: nat): (r: Reply)
    ensures Keeps(g, r.state)
  {
    match cmd
    case Unknown(error) => Reply(g, if error != [] then error else UnrecognizedMessage(command))
    case Move(playerId, position) => ApplyMove(eq, g, playerId, position, command)
    case Pay(playerId, amount, targetId) => ApplyTransfer(eq, g, playerId, amount, targetId, command, now, true)
    case Collect(playerId, amount, targetId) => ApplyTransfer(eq, g, playerId, amount, targetId, command, now, false)
    case Buy(playerId, propertyId) => ApplyBuy(eq, g, playerId, propertyId, command, now)
  }

  /** `executeCommand`: parse the sentence against the ledger, then apply it. */
  function Execute(g: GameState, command: string, now: nat): (r: Reply)
    ensures Keeps(g, r.state)
    ensures Parse(command, g).Unknown? ==> r == Reply(g, Parse(command, g).error)
  {
    Apply(Loose, g, Parse(command, g), command, now)
  }

  // ---------------------------------------------------------------- properties

  /** A rejected or unrecognized sentence changes nothing and reports the parser's reason. */
  lemma RejectionChangesNothing(command: string, g: GameState, now: nat)
    ensures Parse(command, g).Unknown? ==>
              Execute(g, command, now) == Reply(g, Parse(command, g).error)
  {
    UnknownHasError(Loose, command, g);
  }

  /**
   * A move of a known player to a square on the board changes that player's position
   * and nothing else; a square beyond 39 is refused; any other move changes nothing.
   */
  lemma MoveEffect(eq: IdEquality, g: GameState, playerId: string, position: nat, command: string, now: nat)
    ensures var r := Apply(eq, g, Move(playerId, position), command, now);
      && (FindPlayer(eq, g.players, playerId).Some? && position <= 39 ==>
            var i := Seat(eq, g.players, playerId);
            && r.state.players[i] == g.players[i].(position := position)
            && (forall j :: 0 <= j < |g.players| && j != i ==> r.state.players[j] == g.players[j])
            && r.state.properties == g.properties && r.state.transactions == g.transactions
            && r.message == MovedMessage(playerId, position))
      && (FindPlayer(eq, g.players, playerId).None? || position > 39 ==> r.state == g)
      && (playerId != [] && position > 39 ==> r.message == InvalidPositionError(position))
  {
  }

  /**
   * A payment or collection by a known subject of a non-zero amount moves money as
   * `Transfer` does and reports the counterparty it used; otherwise nothing changes and
   * the generic error is returned.
   */
  lemma TransferEffect(eq: IdEquality, g: GameState, playerId: string, amount: nat,
                       targetId: Option<string>, command: string, now: nat, paying: bool)
    ensures var cmd := if paying then Pay(playerId, amount, targetId) else Collect(playerId, amount, targetId);
      var r := Apply(eq, g, cmd, command, now);
      var other := Counterparty(eq, g.players, targetId);
      && (amount == 0 || FindPlayer(eq, g.players, playerId).None? ==>
            r == Reply(g, FallbackMessage(command)))
      && (amount != 0 && FindPlayer(eq, g.players, playerId).Some? ==>
            && r.state.properties == g.properties
            && (forall j :: 0 <= j < |g.players| ==>
                  && r.state.players[j] == g.players[j].(money := r.state.players[j].money)
                  && r.state.players[j].money == g.players[j].money
                       + (if j == Seat(eq, g.players, playerId) then (if paying then -(amount as int) else amount) else 0)
                       + (if other.Some? && j == Seat(eq, g.players, other.value)
                          then (if paying then amount else -(amount as int)) else 0))
            && TotalMoney(r.state.players) == TotalMoney(g.players) +
                 (if other.Some? then 0 else if paying then -(amount as int) else amount)
            && r.state.transactions ==
                 (if other.None? then g.transactions
                  else var s, c := DigitsValue(playerId), DigitsValue(other.value);
                       g.transactions + [Transaction(now, if paying then s else c, if paying then c else s, amount, now, Rent)])
            && r.message == if paying then PaidMessage(playerId, amount, other)
                            else CollectedMessage(playerId, amount, other))
  {
    if amount != 0 && FindPlayer(eq, g.players, playerId).Some? {
      var other := Counterparty(eq, g.players, targetId);
      TransferMoves(eq, g, playerId, amount, other, now, paying);
      TransferBalance(eq, g, playerId, amount, other, now, paying);
    }
  }

  /**
   * A purchase of an unowned property by a known buyer has the effect `AcquireEffect`
   * describes; a property that is owned, missing, or a buyer that is unknown leaves the
   * ledger as it was.
   */
  lemma BuyEffect(eq: IdEquality, g: GameState, playerId: string, propertyId: nat, command: string, now: nat)
    ensures var r := Apply(eq, g, Buy(playerId, propertyId), command, now);
      var buyer := FindPlayer(eq, g.players, playerId);
      var found := PropertyIndex(g.properties, ById(propertyId));
      && (propertyId != 0 && buyer.Some? && found.Some? && Unowned(g.properties[found.value]) ==>
            var player, property := g.players[buyer.value], g.properties[found.value];
            && r.state.players[buyer.value] ==
                 player.(money := player.money - property.price,
                         properties := player.properties + [Owned(property, player.id)])
            && (forall j :: 0 <= j < |g.players| && j != buyer.value ==> r.state.players[j] == g.players[j])
            && r.state.properties == g.properties[found.value := Owned(property, player.id)]
            && r.state.transactions ==
                 g.transactions + [Transaction(now, player.id, 0, property.price, now, Purchase)]
            && TotalMoney(r.state.players) == TotalMoney(g.players) - property.price
            && r.message == BoughtMessage(player.id, property.name, property.price))
      && (propertyId == 0 || buyer.None? || found.None? || !Unowned(g.properties[found.value]) ==>
            r == Reply(g, FallbackMessage(command)))
  {
    var buyer := FindPlayer(eq, g.players, playerId);
    var found := PropertyIndex(g.properties, ById(propertyId));
    if propertyId != 0 && buyer.Some? && found.Some? && Unowned(g.properties[found.value]) {
      AcquireEffect(g, buyer.value, found.value, now);
      AcquireBalance(g, buyer.value, found.value, now);
    }
  }

  /**
   * A property is bought at most once: after a purchase by a player whose id is not 0,
   * the same purchase, by anyone, is refused and changes nothing.
   */
  lemma BuyOnce(eq: IdEquality, g: GameState, playerId: string, propertyId: nat, other: string,
                command: string, now: nat, later: nat)
    requires propertyId != 0 && FindPlayer(eq, g.players, playerId).Some?
    requires g.players[FindPlayer(eq, g.players, playerId).value].id != 0
    requires PropertyIndex(g.properties, ById(propertyId)).Some?
    ensures var g' := Apply(eq, g, Buy(playerId, propertyId), command, now).state;
      Apply(eq, g', Buy(other, propertyId), command, later) == Reply(g', FallbackMessage(command))
  {
    var buyer := FindPlayer(eq, g.players, playerId).value;
    var k := PropertyIndex(g.properties, ById(propertyId)).value;
    var g' := Apply(eq, g, Buy(playerId, propertyId), command, now).state;
    BuyEffect(eq, g, playerId, propertyId, command, now);
    if Unowned(g.properties[k]) {
      var property := g.properties[k];
      var owned := Owned(property, g.players[buyer].id);
      assert g'.properties == g.properties[k := owned];
      PropertyIndexKept(g.properties, k, owned, ById(propertyId));
      assert !Unowned(g'.properties[k]);
    }
    BuyEffect(eq, g', other, propertyId, command, later);
  }

  /**
   * With ids compared as written no sentence changes the ledger: every player lookup
   * fails, so moves, payments, collections and purchases all end in an error.
   */
  lemma StrictExecutionChangesNothing(command: string, g: GameState, now: nat)
    ensures Apply(Strict, g, ParseWith(Strict, command, g), command, now).state == g
  {
    var cmd := ParseWith(Strict, command, g);
    StrictNeverMoves(command, g);
    match cmd
    case Unknown(_) =>
    case Move(_, _) =>
    case Pay(playerId, _, _) => StrictFindsNobody(g.players, playerId);
    case Collect(playerId, _, _) => StrictFindsNobody(g.players, playerId);
    case Buy(playerId, _) => StrictFindsNobody(g.players, playerId);
  }

  // ---------------------------------------------------------------- the store

  /** The `MOVE` case of `executeCommand`, dispatched to the store. */
  method MoveOnStore(store: GameStore, playerId: string, position: nat, command: string, now: nat)
    returns (message: string)
    modifies store
    ensures var r := ApplyMove(Loose, old(store.State()), playerId, position, command);
      store.State() == r.state && message == r.message
  {
    var state := store.State();
    if playerId != [] {
      var player := FindPlayer(Loose, state.players, playerId);
      if player.Some? && position <= 39 {
        store.UpdatePlayerPosition(DigitsValue(playerId), position);
        return MovedMessage(playerId, position);
      } else if position > 39 {
        return InvalidPositionError(position);
      }
    }
    return FallbackMessage(command);
  }

  /**
   * The `PAY` (`paying`) and `COLLECT` cases. Both lookups read the snapshot taken before
   * the first update, so the counterparty is settled before any money moves.
   */
  method TransferOnStore(store: GameStore, playerId: string, amount: nat, targetId: Option<string>,
                         command: string, now: nat, paying: bool)
    returns (message: string)
    modifies store
    ensures var r := ApplyTransfer(Loose, old(store.State()), playerId, amount, targetId, command, now, paying);
      store.State() == r.state && message == r.message
  {
    var state := store.State();
    if playerId != [] && amount != 0 {
      var player := FindPlayer(Loose, state.players, playerId);
      if player.Some? {
        var other := None;
        if targetId.Some? && targetId.value != [] {
          var target := FindPlayer(Loose, state.players, targetId.value);
          if target.Some? {
            other := targetId;
          }
        }
        assert other == Counterparty(Loose, state.players, targetId);
        MoveMoney(store, playerId, amount, other, now, paying);
        return if paying then PaidMessage(playerId, amount, other) else CollectedMessage(playerId, amount, other);
      }
    }
    return FallbackMessage(command);
  }

  /**
   * The store calls of a transfer: the subject's money first, then the counterparty's
   * and the RENT record.
   */
  method MoveMoney(store: GameStore, subject: string, amount: nat, counterparty: Option<string>, now: nat, paying: bool)
    requires FindPlayer(Loose, store.players, subject).Some?
    requires counterparty.Some? ==> FindPlayer(Loose, store.players, counterparty.value).Some?
    modifies store
    ensures store.State() == Transfer(Loose, old(store.State()), subject, amount, counterparty, now, paying)
  {
    var s := DigitsValue(subject);
    store.UpdatePlayerMoney(s, if paying then -(amount as int) else amount);
    if counterparty.Some? {
      var c := DigitsValue(counterparty.value);
      store.UpdatePlayerMoney(c, if paying then amount else -(amount as int));
      store.AddTransaction(Transaction(now, if paying then s else c, if paying then c else s, amount, now, Rent));
    }
  }

  /** The purchase on the store: price, owner, record, in that order. */
  method AcquireOnStore(store: GameStore, buyer: nat, k: nat, now: nat)
    requires buyer < |store.players| && k < |store.properties|
    modifies store
    ensures store.State() == Acquire(old(store.State()), buyer, k, now)
  {
    var g := store.State();
    var player, property := g.players[buyer], g.properties[k];
    var t := Transaction(now, player.id, 0, property.price, now, Purchase);
    ghost var g1 := AfterUpdatePlayerMoney(g, player.id, -(property.price as int));
    ghost var g2 := AfterUpdatePropertyOwner(g1, property.id, player.id);
    assert Acquire(g, buyer, k, now) == AfterAddTransaction(g2, t);
    store.UpdatePlayerMoney(player.id, -(property.price as int));
    assert store.State() == g1;
    store.UpdatePropertyOwner(property.id, player.id);
    assert store.State() == g2;
    store.AddTransaction(t);
  }

  /** The `BUY` case: a known buyer and an unowned property found by id. */
  method BuyOnStore(store: GameStore, playerId: string, propertyId: nat, command: string, now: nat)
    returns (message: string)
    modifies store
    ensures var r := ApplyBuy(Loose, old(store.State()), playerId, propertyId, command, now);
      store.State() == r.state && message == r.message
  {
    var state := store.State();
    if playerId != [] && propertyId != 0 {
      var player := FindPlayer(Loose, state.players, playerId);
      var found := PropertyIndex(state.properties, ById(propertyId));
      if player.Some? && found.Some? && Unowned(state.properties[found.value]) {
        var property := state.properties[found.value];
        AcquireOnStore(store, player.value, found.value, now);
        return BoughtMessage(state.players[player.value].id, property.name, property.price);
      }
    }
    return FallbackMessage(command);
  }

  /** `executeCommand` against the store: parse the snapshot, then run the command's case. */
  method ExecuteCommand(store: GameStore, command: string, now: nat) returns (message: string)
    modifies store
    ensures store.State() == Execute(old(store.State()), command, now).state
    ensures message == Execute(old(store.State()), command, now).message
  {
    var cmd := Parse(command, store.State());
    match cmd {
      case Unknown(error) =>
        message := if error != [] then error else UnrecognizedMessage(command);
      case Move(playerId, position) =>
        message := MoveOnStore(store, playerId, position, command, now);
      case Pay(playerId, amount, targetId) =>
        message := TransferOnStore(store, playerId, amount, targetId, command, now, true);
      case Collect(playerId, amount, targetId) =>
        message := TransferOnStore(store, playerId, amount, targetId, command, now, false);
      case Buy(playerId, propertyId) =>
        message := BuyOnStore(store, playerId, propertyId, command, now);
    }
  }
}
