/**
 * The "Add Player" dialog: the only place a player record is made. The dialog keeps the
 * typed name, the chosen token and whether it is open; adding dispatches `addPlayer` to
 * the store and then clears the name and closes the dialog. The player's id is the clock
 * reading, passed in as `now`.
 */
module PlayerManagement {
  import opened Wrappers
  import opened Text
  import opened GameTypes
  import opened GameSlice

  /** A playing piece: its key, the icon shown on the board and its colour. */
  datatype Token = Token(id: string, icon: string, color: string)

  /** `playerTokens`: the eight pieces, the car first. */
  const PlayerTokens: seq<Token> := [
    Token("car", "\U{1F697}", "#FF5722"),
    Token("ship", "\U{1F6A2}", "#2196F3"),
    Token("hat", "\U{1F3A9}", "#9C27B0"),
    Token("dog", "\U{1F415}", "#795548"),
    Token("iron", "\U{1F45E}", "#607D8B"),
    Token("thimble", "\U{1F9F5}", "#00BCD4"),
    Token("wheelbarrow", "\U{1F6D2}", "#4CAF50"),
    Token("cannon", "\U{1F4B0}", "#FFC107")
  ]

  /** Every player starts with this much money. */
  const StartingMoney: nat := 1500

  /** The record `handleAddPlayer` dispatches: the name as typed, on GO, with nothing owned. */
  function NewPlayer(name: string, token: Token, now: nat): (p: Player)
    ensures p.id == now && p.name == name
    ensures p.money == StartingMoney && p.position == 0
    ensures p.properties == [] && p.cards == []
    ensures p.token == Some(token.id) && p.tokenIcon == Some(token.icon) && p.color == Some(token.color)
  {
    Player(now, name, StartingMoney, 0, [], [], Some(token.id), Some(token.icon), Some(token.color))
  }

  /**
   * A newcomer whose id some player already has is shadowed: every lookup by that id
   * still finds the earlier player, so no command can reach the newcomer.
   */
  lemma NewcomerShadowed(g: GameState, name: string, token: Token, now: nat)
    requires PlayerIndex(g.players, now).Some?
    ensures PlayerIndex(AfterAddPlayer(g, NewPlayer(name, token, now)).players, now) ==
              PlayerIndex(g.players, now)
  {
    var players := AfterAddPlayer(g, NewPlayer(name, token, now)).players;
    var i := PlayerIndex(g.players, now).value;
    assert players[i] == g.players[i];
    assert forall j :: 0 <= j < i ==> players[j] == g.players[j];
  }

  /** A newcomer with a fresh id is found by it, at the end of the list. */
  lemma NewcomerFound(g: GameState, name: string, token: Token, now: nat)
    requires PlayerIndex(g.players, now).None?
    ensures PlayerIndex(AfterAddPlayer(g, NewPlayer(name, token, now)).players, now) == Some(|g.players|)
  {
    var players := AfterAddPlayer(g, NewPlayer(name, token, now)).players;
    assert forall j :: 0 <= j < |g.players| ==> players[j] == g.players[j];
  }

  /** The dialog's state. */
  class PlayerDialog {
    var open: bool
    var playerName: string
    var selectedToken: Token

    /** Closed, with no name typed and the first token chosen. */
    constructor ()
      ensures !open && playerName == "" && selectedToken == PlayerTokens[0]
    {
      open, playerName, selectedToken := false, "", PlayerTokens[0];
    }

    /**
     * `handleAddPlayer`: a name that is not blank adds a player and resets the dialog;
     * a blank one changes nothing. The name is neither trimmed nor checked for repeats.
     */
    method HandleAddPlayer(store: GameStore, now: nat)
      modifies this, store
      ensures Trim(old(playerName)) != [] ==>
        && store.State() == AfterAddPlayer(old(store.State()), NewPlayer(old(playerName), old(selectedToken), now))
        && playerName == "" && !open && selectedToken == old(selectedToken)
      ensures Trim(old(playerName)) == [] ==>
        store.State() == old(store.State()) && unchanged(this)
    {
      if Trim(playerName) != [] {
        store.AddPlayer(NewPlayer(playerName, selectedToken, now));
        playerName := "";
        open := false;
      }
    }
  }
}
