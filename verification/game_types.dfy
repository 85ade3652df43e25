/**
 * The game ledger's records (players, properties, transactions, cards) and the
 * `Array.prototype.find` lookups the reducers, the interpreter and the board use.
 * Ids are numbers: a player's id and a transaction's id come from the clock.
 */
module GameTypes {
  import opened Wrappers
  import opened Text

  datatype TransactionType = Rent | Purchase | ChanceTransaction | Tax

  datatype CardType = Chance | CommunityChest

  datatype Card = Card(id: nat, kind: CardType, description: string)

  /** `owner` is the owning player's id, or None for `null`. */
  datatype Property = Property(
    id: nat,
    name: string,
    price: nat,
    rent: nat,
    owner: Option<nat>,
    position: nat,
    color: Option<string>)

  /** `properties` holds whole Property records, as the ownership reducer appends them. */
  datatype Player = Player(
    id: nat,
    name: string,
    money: int,
    position: nat,
    properties: seq<Property>,
    cards: seq<Card>,
    token: Option<string>,
    tokenIcon: Option<string>,
    color: Option<string>)

  /** `from` and `to` are player ids; the bank is 0. */
  datatype Transaction = Transaction(
    id: nat,
    from: nat,
    to: nat,
    amount: nat,
    timestamp: nat,
    kind: TransactionType)

  datatype GameState = GameState(
    players: seq<Player>,
    properties: seq<Property>,
    transactions: seq<Transaction>,
    cards: seq<Card>)

  /** The store's initial state: every collection empty. */
  const InitialState := GameState([], [], [], [])

  /** `!property.owner`: null and the id 0 are both falsy. */
  predicate Unowned(p: Property) {
    p.owner == None || p.owner == Some(0)
  }

  // ---------------------------------------------------------------- players

  /** Index of the first player at or after `from` whose id is `id`. */
  function PlayerIndexFrom(players: seq<Player>, id: nat, from: nat): (r: Option<nat>)
    requires from <= |players|
    ensures r.Some? ==> from <= r.value < |players| && players[r.value].id == id
    ensures r.Some? ==> forall j :: from <= j < r.value ==> players[j].id != id
    ensures r.None? ==> forall j :: from <= j < |players| ==> players[j].id != id
    decreases |players| - from
  {
    if from == |players| then None
    else if players[from].id == id then Some(from)
    else PlayerIndexFrom(players, id, from + 1)
  }

  /** `players.find(p => p.id === id)`, as an index. */
  function PlayerIndex(players: seq<Player>, id: nat): (r: Option<nat>)
    ensures r.Some? ==> r.value < |players| && players[r.value].id == id
    ensures r.Some? ==> forall j :: 0 <= j < r.value ==> players[j].id != id
    ensures r.None? ==> forall j :: 0 <= j < |players| ==> players[j].id != id
  {
    PlayerIndexFrom(players, id, 0)
  }

  /** The first index is determined by the ids alone. */
  lemma PlayerIndexByIds(a: seq<Player>, b: seq<Player>, id: nat)
    requires |a| == |b|
    requires forall j :: 0 <= j < |a| ==> a[j].id == b[j].id
    ensures PlayerIndex(a, id) == PlayerIndex(b, id)
  {
    var ra, rb := PlayerIndex(a, id), PlayerIndex(b, id);
    if ra.Some? && rb.Some? {
      assert !(ra.value < rb.value) && !(rb.value < ra.value);
    }
  }

  // ---------------------------------------------------------------- properties

  /** The three ways the source looks a property up. */
  datatype PropertyKey =
    | ById(id: nat)                 // p.id === id
    | ByName(name: string)          // p.name.toLowerCase() === name.toLowerCase()
    | AtPosition(position: nat)     // p.position === position

  predicate KeyMatches(p: Property, key: PropertyKey) {
    match key
    case ById(id) => p.id == id
    case ByName(name) => Lower(p.name) == Lower(name)
    case AtPosition(pos) => p.position == pos
  }

  function PropertyIndexFrom(props: seq<Property>, key: PropertyKey, from: nat): (r: Option<nat>)
    requires from <= |props|
    ensures r.Some? ==> from <= r.value < |props| && KeyMatches(props[r.value], key)
    ensures r.Some? ==> forall j :: from <= j < r.value ==> !KeyMatches(props[j], key)
    ensures r.None? ==> forall j :: from <= j < |props| ==> !KeyMatches(props[j], key)
    decreases |props| - from
  {
    if from == |props| then None
    else if KeyMatches(props[from], key) then Some(from)
    else PropertyIndexFrom(props, key, from + 1)
  }

  /** `properties.find(...)` with the given test, as an index. */
  function PropertyIndex(props: seq<Property>, key: PropertyKey): (r: Option<nat>)
    ensures r.Some? ==> r.value < |props| && KeyMatches(props[r.value], key)
    ensures r.Some? ==> forall j :: 0 <= j < r.value ==> !KeyMatches(props[j], key)
    ensures r.None? ==> forall j :: 0 <= j < |props| ==> !KeyMatches(props[j], key)
  {
    PropertyIndexFrom(props, key, 0)
  }

  /** Changing a record in a way the key does not look at keeps the first match. */
  lemma PropertyIndexKept(props: seq<Property>, k: nat, p: Property, key: PropertyKey)
    requires k < |props|
    requires KeyMatches(p, key) == KeyMatches(props[k], key)
    ensures PropertyIndex(props[k := p], key) == PropertyIndex(props, key)
  {
    var a, b := PropertyIndex(props[k := p], key), PropertyIndex(props, key);
    assert forall j :: 0 <= j < |props| ==> KeyMatches(props[k := p][j], key) == KeyMatches(props[j], key);
    if a.Some? && b.Some? {
      assert !(a.value < b.value) && !(b.value < a.value);
    }
  }

  // ---------------------------------------------------------------- money

  /** All the money the players hold. */
  function TotalMoney(players: seq<Player>): int
    decreases |players|
  {
    if players == [] then 0 else players[0].money + TotalMoney(players[1..])
  }

  /** Changing one player's money by `d` changes the total by `d`. */
  lemma {:induction false} TotalMoneyUpdate(players: seq<Player>, i: nat, p: Player)
    requires i < |players|
    ensures TotalMoney(players[i := p]) == TotalMoney(players) + p.money - players[i].money
    decreases |players|
  {
    if i > 0 {
      assert players[i := p][1..] == players[1..][i - 1 := p];
      TotalMoneyUpdate(players[1..], i - 1, p);
    } else {
      assert players[i := p][1..] == players[1..];
    }
  }

  lemma {:induction false} TotalMoneyAppend(players: seq<Player>, p: Player)
    ensures TotalMoney(players + [p]) == TotalMoney(players) + p.money
    decreases |players|
  {
    if players != [] {
      assert (players + [p])[1..] == players[1..] + [p];
      TotalMoneyAppend(players[1..], p);
    } else {
      assert [p][1..] == [];
    }
  }
}
