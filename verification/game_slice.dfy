/**
 * The `game` slice of the store. Each reducer updates the state in place; the class
 * GameStore holds the three collections (and the unused card list) as fields and each
 * method is one reducer. The functions `After...` give the state a reducer leaves
 * behind, stated against the state it started from, and are what the methods are
 * proved against and what the interpreter's specification is built from.
 */
module GameSlice {
  import opened Wrappers
  import opened GameTypes

  // ---------------------------------------------------------------- specifications

  /** `addPlayer`: the payload is appended; nothing else moves. */
  function AfterAddPlayer(g: GameState, p: Player): (r: GameState)
    ensures |r.players| == |g.players| + 1 && r.players[|g.players|] == p
    ensures r.players[..|g.players|] == g.players
    ensures r.properties == g.properties && r.transactions == g.transactions && r.cards == g.cards
    ensures TotalMoney(r.players) == TotalMoney(g.players) + p.money
  {
    TotalMoneyAppend(g.players, p);
    g.(players := g.players + [p])
  }

  /**
   * `updatePlayerMoney`: the first player with the id gets the signed amount added,
   * with no lower bound; an unknown id changes nothing.
   */
  function AfterUpdatePlayerMoney(g: GameState, playerId: nat, amount: int): (r: GameState)
    ensures r.properties == g.properties && r.transactions == g.transactions && r.cards == g.cards
    ensures |r.players| == |g.players|
    ensures forall j :: 0 <= j < |g.players| ==> r.players[j].id == g.players[j].id
    ensures PlayerIndex(g.players, playerId).None? ==> r == g
    ensures PlayerIndex(g.players, playerId).Some? ==>
      var i := PlayerIndex(g.players, playerId).value;
      && r.players[i] == g.players[i].(money := g.players[i].money + amount)
      && forall j :: 0 <= j < |g.players| && j != i ==> r.players[j] == g.players[j]
  {
    match PlayerIndex(g.players, playerId)
    case None => g
    case Some(i) => g.(players := g.players[i := g.players[i].(money := g.players[i].money + amount)])
  }

  /** `updatePlayerMoney` changes the players' total by the amount exactly when the id is found. */
  lemma UpdatePlayerMoneyTotal(g: GameState, playerId: nat, amount: int)
    ensures TotalMoney(AfterUpdatePlayerMoney(g, playerId, amount).players) ==
      TotalMoney(g.players) + if PlayerIndex(g.players, playerId).Some? then amount else 0
  {
    match PlayerIndex(g.players, playerId)
    case None =>
    case Some(i) =>
      TotalMoneyUpdate(g.players, i, g.players[i].(money := g.players[i].money + amount));
  }

  /** `addTransaction`: exactly one entry is appended; earlier entries are kept as they were. */
  function AfterAddTransaction(g: GameState, t: Transaction): (r: GameState)
    ensures |r.transactions| == |g.transactions| + 1 && r.transactions[|g.transactions|] == t
    ensures r.transactions[..|g.transactions|] == g.transactions
    ensures r.players == g.players && r.properties == g.properties && r.cards == g.cards
  {
    g.(transactions := g.transactions + [t])
  }

  /**
   * `updatePlayerPosition`: the first player with the id moves to the position, with no
   * range check; an unknown id changes nothing.
   */
  function AfterUpdatePlayerPosition(g: GameState, playerId: nat, position: nat): (r: GameState)
    ensures r.properties == g.properties && r.transactions == g.transactions && r.cards == g.cards
    ensures |r.players| == |g.players|
    ensures PlayerIndex(g.players, playerId).None? ==> r == g
    ensures PlayerIndex(g.players, playerId).Some? ==>
      var i := PlayerIndex(g.players, playerId).value;
      && r.players[i] == g.players[i].(position := position)
      && forall j :: 0 <= j < |g.players| && j != i ==> r.players[j] == g.players[j]
  {
    match PlayerIndex(g.players, playerId)
    case None => g
    case Some(i) => g.(players := g.players[i := g.players[i].(position := position)])
  }

  /** The record `updatePropertyOwner` leaves in the table and appends to the owner's list. */
  function Owned(p: Property, ownerId: nat): Property {
    p.(owner := Some(ownerId))
  }

  /**
   * `updatePropertyOwner`: a found property gets the owner, and the owner (when found)
   * gets that updated record appended to its list; a missing property changes nothing;
   * a missing player leaves every list as it was.
   */
  function AfterUpdatePropertyOwner(g: GameState, propertyId: nat, ownerId: nat): (r: GameState)
    ensures r.transactions == g.transactions && r.cards == g.cards
    ensures |r.players| == |g.players| && |r.properties| == |g.properties|
    ensures forall j :: 0 <= j < |g.players| ==> r.players[j].id == g.players[j].id
    ensures forall j :: 0 <= j < |g.players| ==> r.players[j].money == g.players[j].money
    ensures PropertyIndex(g.properties, ById(propertyId)).None? ==> r == g
    ensures PropertyIndex(g.properties, ById(propertyId)).Some? ==>
      var k := PropertyIndex(g.properties, ById(propertyId)).value;
      var owned := Owned(g.properties[k], ownerId);
      && r.properties[k] == owned
      && (forall j :: 0 <= j < |g.properties| && j != k ==> r.properties[j] == g.properties[j])
      && (PlayerIndex(g.players, ownerId).None? ==> r.players == g.players)
      && (PlayerIndex(g.players, ownerId).Some? ==>
            var i := PlayerIndex(g.players, ownerId).value;
            && r.players[i] == g.players[i].(properties := g.players[i].properties + [owned])
            && forall j :: 0 <= j < |g.players| && j != i ==> r.players[j] == g.players[j])
  {
    match PropertyIndex(g.properties, ById(propertyId))
    case None => g
    case Some(k) =>
      var owned := Owned(g.properties[k], ownerId);
      var g' := g.(properties := g.properties[k := owned]);
      match PlayerIndex(g.players, ownerId)
      case None => g'
      case Some(i) => g'.(players := g.players[i := g.players[i].(properties := g.players[i].properties + [owned])])
  }

  /** Recording an owner moves no money. */
  lemma UpdatePropertyOwnerTotal(g: GameState, propertyId: nat, ownerId: nat)
    ensures TotalMoney(AfterUpdatePropertyOwner(g, propertyId, ownerId).players) == TotalMoney(g.players)
  {
    var r := AfterUpdatePropertyOwner(g, propertyId, ownerId);
    if PropertyIndex(g.properties, ById(propertyId)).Some? && PlayerIndex(g.players, ownerId).Some? {
      var i := PlayerIndex(g.players, ownerId).value;
      TotalMoneyUpdate(g.players, i, r.players[i]);
      assert r.players == g.players[i := r.players[i]];
    }
  }

  /** `initializeProperties`: the property table is replaced wholesale. */
  function AfterInitializeProperties(g: GameState, props: seq<Property>): (r: GameState)
    ensures r.properties == props
    ensures r.players == g.players && r.transactions == g.transactions && r.cards == g.cards
  {
    g.(properties := props)
  }

  /**
   * The ownership reducer appends one record per call and never looks for an earlier
   * entry: recording the same purchase twice lists the property twice.
   */
  lemma OwnerRecordedTwice(g: GameState, propertyId: nat, ownerId: nat)
    requires PropertyIndex(g.properties, ById(propertyId)).Some?
    requires PlayerIndex(g.players, ownerId).Some?
    ensures
      var k := PropertyIndex(g.properties, ById(propertyId)).value;
      var i := PlayerIndex(g.players, ownerId).value;
      var owned := Owned(g.properties[k], ownerId);
      var r := AfterUpdatePropertyOwner(AfterUpdatePropertyOwner(g, propertyId, ownerId), propertyId, ownerId);
      r.players[i].properties == g.players[i].properties + [owned, owned]
  {
    var k := PropertyIndex(g.properties, ById(propertyId)).value;
    var owned := Owned(g.properties[k], ownerId);
    var g1 := AfterUpdatePropertyOwner(g, propertyId, ownerId);
    assert g1.properties == g.properties[k := owned];
    PropertyIndexKept(g.properties, k, owned, ById(propertyId));
    PlayerIndexByIds(g1.players, g.players, ownerId);
    assert Owned(g1.properties[k], ownerId) == owned;
  }

  // ---------------------------------------------------------------- the store

  /** The store's `game` state, changed in place by the reducers. */
  class GameStore {
    var players: seq<Player>
    var properties: seq<Property>
    var transactions: seq<Transaction>
    var cards: seq<Card>

    function State(): GameState
      reads this
    {
      GameState(players, properties, transactions, cards)
    }

    /** The slice's `initialState`. */
    constructor ()
      ensures State() == InitialState
    {
      players, properties, transactions, cards := [], [], [], [];
    }

    /** A store started from a previously saved state. */
    constructor Preloaded(g: GameState)
      ensures State() == g
    {
      players, properties, transactions, cards := g.players, g.properties, g.transactions, g.cards;
    }

    method AddPlayer(p: Player)
      modifies this
      ensures State() == AfterAddPlayer(old(State()), p)
    {
      players := players + [p];
    }

    method UpdatePlayerMoney(playerId: nat, amount: int)
      modifies this
      ensures State() == AfterUpdatePlayerMoney(old(State()), playerId, amount)
    {
      var found := PlayerIndex(players, playerId);
      if found.Some? {
        var i := found.value;
        players := players[i := players[i].(money := players[i].money + amount)];
      }
    }

    method AddTransaction(t: Transaction)
      modifies this
      ensures State() == AfterAddTransaction(old(State()), t)
    {
      transactions := transactions + [t];
    }

    method UpdatePlayerPosition(playerId: nat, position: nat)
      modifies this
      ensures State() == AfterUpdatePlayerPosition(old(State()), playerId, position)
    {
      var found := PlayerIndex(players, playerId);
      if found.Some? {
        var i := found.value;
        players := players[i := players[i].(position := position)];
      }
    }

    method UpdatePropertyOwner(propertyId: nat, ownerId: nat)
      modifies this
      ensures State() == AfterUpdatePropertyOwner(old(State()), propertyId, ownerId)
    {
      var found := PropertyIndex(properties, ById(propertyId));
      if found.Some? {
        var k := found.value;
        var owned := Owned(properties[k], ownerId);
        properties := properties[k := owned];
        var owner := PlayerIndex(players, ownerId);
        if owner.Some? {
          var i := owner.value;
          players := players[i := players[i].(properties := players[i].properties + [owned])];
        }
      }
    }

    method InitializeProperties(props: seq<Property>)
      modifies this
      ensures State() == AfterInitializeProperties(old(State()), props)
    {
      properties := props;
    }
  }
}
