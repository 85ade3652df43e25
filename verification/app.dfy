/**
 * The game screen: on mount it loads the catalog into the ledger, and every sentence the
 * voice panel forwards is executed once against the store, its reply shown as the
 * notification. The lemmas below are what the catalog guarantees the interpreter once it
 * is the property table.
 */
module App {
  import opened Wrappers
  import opened Text
  import opened GameTypes
  import opened GameSlice
  import opened CommandParser
  import opened CommandExecutor
  import opened Catalog
  import opened Patterns

  /** The screen's own state: the notification text and whether it is shown. */
  class GameContent {
    var notification: string
    var showNotification: bool

    constructor ()
      ensures notification == "" && !showNotification
    {
      notification, showNotification := "", false;
    }

    /** The mount effect: the catalog replaces the property table. */
    method Mount(store: GameStore)
      modifies store
      ensures store.State() == AfterInitializeProperties(old(store.State()), Properties)
    {
      store.InitializeProperties(Properties);
    }

    /** `handleVoiceCommand`: execute the sentence once and show the reply as it is. */
    method HandleVoiceCommand(store: GameStore, command: string, now: nat)
      modifies this, store
      ensures store.State() == Execute(old(store.State()), command, now).state
      ensures notification == Execute(old(store.State()), command, now).message && showNotification
    {
      var result := ExecuteCommand(store, command, now);
      notification := result;
      showNotification := true;
    }
  }

  /** With the catalog loaded, every parsed move stays on the board. */
  lemma CatalogMovesInRange(command: string, g: GameState)
    requires g.properties == Properties
    ensures Parse(command, g).Move? ==> Parse(command, g).position <= 39
  {
    CatalogEntries();
    MoveInRange(command, g);
  }

  /**
   * With the catalog loaded, a parsed purchase names a square in 1..39 that the
   * interpreter will find by id.
   */
  lemma CatalogPurchaseFound(command: string, g: GameState)
    requires g.properties == Properties
    ensures Parse(command, g).Buy? ==>
      && 1 <= Parse(command, g).propertyId <= 39
      && PropertyIndex(g.properties, ById(Parse(command, g).propertyId)).Some?
  {
    CatalogEntries();
    if Parse(command, g).Buy? {
      BuyOutcome(command, g);
      var k := PropertyNamed(g.properties, FindName(Lower(command), "buys").value).value;
      assert KeyMatches(g.properties[k], ById(Parse(command, g).propertyId));
    }
  }

  /**
   * A property whose name has a character outside `[a-zA-Z &]`, and whose id no other
   * property shares, is never the target of a parsed purchase.
   */
  lemma PunctuatedNeverBought(command: string, g: GameState, k: nat)
    requires k < |g.properties| && exists c :: c in g.properties[k].name && !IsNameChar(c)
    requires forall j :: 0 <= j < |g.properties| && j != k ==> g.properties[j].id != g.properties[k].id
    ensures Parse(command, g).Buy? ==> Parse(command, g).propertyId != g.properties[k].id
  {
    if Parse(command, g).Buy? {
      BuyOutcome(command, g);
      PunctuatedNameNeverSelected(g.properties, k, Lower(command), "buys");
    }
  }

  /**
   * The two catalog names with a dot, "St. Charles Place" (square 11) and "St. James
   * Place" (square 16), can never be bought by voice: the name group stops at the dot.
   */
  lemma SaintsCannotBeBought(command: string, g: GameState)
    requires g.properties == Properties
    ensures Parse(command, g).Buy? ==> Parse(command, g).propertyId !in {11, 16}
  {
    DottedEntries();
    var props := g.properties;
    assert props[5].name[2] in props[5].name && props[8].name[2] in props[8].name;
    PunctuatedNeverBought(command, g, 5);
    PunctuatedNeverBought(command, g, 8);
  }
}
