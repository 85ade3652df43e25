/**
 * The voice panel's two ways of sending a sentence: the edited transcript
 * (`handleCommand`) and the quick form (`handleFormSubmit`), which writes a sentence
 * from six text fields. A sentence sent is returned to the caller, who passes it on to
 * `onCommand`; the speech recognizer itself is not part of this model.
 */
module VoiceRecognition {
  import opened Wrappers
  import opened Text
  import opened GameTypes

  /** The six form fields, all text as the inputs hold them. */
  datatype Form = Form(
    operationType: string,
    selectedPlayer: string,
    targetPlayer: string,
    amount: string,
    property: string,
    position: string)

  /** What the form is reset to after a sentence is sent. */
  const EmptyForm := Form("", "", "", "", "", "")

  /** `players.find(p => p.name === selectedPlayer)`: exact and case-sensitive, as an index. */
  function PlayerNamedFrom(players: seq<Player>, name: string, from: nat): (r: Option<nat>)
    requires from <= |players|
    ensures r.Some? ==> from <= r.value < |players| && players[r.value].name == name
    ensures r.Some? ==> forall j :: from <= j < r.value ==> players[j].name != name
    ensures r.None? ==> forall j :: from <= j < |players| ==> players[j].name != name
    decreases |players| - from
  {
    if from == |players| then None
    else if players[from].name == name then Some(from)
    else PlayerNamedFrom(players, name, from + 1)
  }

  function PlayerNamed(players: seq<Player>, name: string): (r: Option<nat>)
    ensures r.Some? ==> r.value < |players| && players[r.value].name == name
    ensures r.Some? ==> forall j :: 0 <= j < r.value ==> players[j].name != name
    ensures r.None? <==> forall j :: 0 <= j < |players| ==> players[j].name != name
  {
    PlayerNamedFrom(players, name, 0)
  }

  // ---------------------------------------------------------------- the sentences

  function MoveToPositionSentence(name: string, position: string): string {
    "Player " + name + " moves to position " + position
  }

  function MoveToPropertySentence(name: string, property: string): string {
    "Move player " + name + " to " + property
  }

  /** `pays {amount} to {target}` when `paying`, else `collects {amount} from {target}`. */
  function TransferSentence(name: string, amount: string, target: string, paying: bool): string {
    "Player " + name + (if paying then " pays " else " collects ") + amount
      + (if paying then " to " else " from ") + target
  }

  function BuySentence(name: string, property: string): string {
    "Player " + name + " buys " + property
  }

  /** The `switch` over the operation: the sentence, or `''` when none is written. */
  function Sentence(f: Form, name: string): (r: string)
    ensures r == [] <==>
      || f.operationType !in ["move", "pay", "collect", "buy"]
      || (f.operationType == "move" && f.position == [] && f.property == [])
      || (f.operationType in ["pay", "collect"] && f.targetPlayer == [])
  {
    if f.operationType == "move" then
      if f.position != "" then MoveToPositionSentence(name, f.position)
      else if f.property != "" then MoveToPropertySentence(name, f.property)
      else ""
    else if f.operationType == "pay" then
      if f.targetPlayer != "" then TransferSentence(name, f.amount, f.targetPlayer, true) else ""
    else if f.operationType == "collect" then
      if f.targetPlayer != "" then TransferSentence(name, f.amount, f.targetPlayer, false) else ""
    else if f.operationType == "buy" then BuySentence(name, f.property)
    else ""
  }

  /**
   * The sentence `handleFormSubmit` sends, if any. Nothing is sent unless a player has
   * exactly the selected name. A move sends the position sentence when a position is
   * given and the property sentence otherwise. A payment or collection needs a target,
   * which is written as it is typed. A purchase is always sent, even with no property.
   * Any other operation sends nothing.
   */
  function FormSentence(players: seq<Player>, f: Form): (r: Option<string>)
    ensures r.Some? ==> exists j :: 0 <= j < |players| && players[j].name == f.selectedPlayer
    ensures PlayerNamed(players, f.selectedPlayer).Some? ==>
      var name := f.selectedPlayer;
      && (f.operationType == "move" ==>
            r == if f.position != [] then Some(MoveToPositionSentence(name, f.position))
                 else if f.property != [] then Some(MoveToPropertySentence(name, f.property))
                 else None)
      && (f.operationType == "pay" ==>
            r == if f.targetPlayer != [] then Some(TransferSentence(name, f.amount, f.targetPlayer, true)) else None)
      && (f.operationType == "collect" ==>
            r == if f.targetPlayer != [] then Some(TransferSentence(name, f.amount, f.targetPlayer, false)) else None)
      && (f.operationType == "buy" ==> r == Some(BuySentence(name, f.property)))
      && (f.operationType !in ["move", "pay", "collect", "buy"] ==> r.None?)
  {
    match PlayerNamed(players, f.selectedPlayer)
    case None => None
    case Some(i) =>
      var command := Sentence(f, players[i].name);
      if command != "" then Some(command) else None
  }

  /** Every sentence the form sends contains its operation's keyword once lower-cased. */
  lemma FormSentenceKeyword(players: seq<Player>, f: Form)
    requires FormSentence(players, f).Some?
    ensures Contains(Lower(FormSentence(players, f).value), f.operationType)
  {
    var i := PlayerNamed(players, f.selectedPlayer).value;
    SentenceKeyword(f, players[i].name);
  }

  lemma SentenceKeyword(f: Form, name: string)
    requires Sentence(f, name) != ""
    ensures Contains(Lower(Sentence(f, name)), f.operationType)
  {
    if f.operationType == "move" {
      MoveKeyword(name, f.position, f.property);
    } else if f.operationType == "pay" || f.operationType == "collect" {
      TransferKeyword(name, f.amount, f.targetPlayer, f.operationType == "pay");
    } else {
      BuyKeyword(name, f.property);
    }
  }

  lemma MoveKeyword(name: string, position: string, property: string)
    ensures Contains(Lower(MoveToPositionSentence(name, position)), "move")
    ensures Contains(Lower(MoveToPropertySentence(name, property)), "move")
  {
    assert Lower(" moves to position ")[1..5] == "move";
    KeywordIn("Player " + name, " moves to position ", position, 1, "move");
    var rest := name + " to " + property;
    assert MoveToPropertySentence(name, property) == [] + "Move player " + rest;
    assert Lower("Move player ")[0..4] == "move";
    KeywordIn([], "Move player ", rest, 0, "move");
  }

  lemma TransferKeyword(name: string, amount: string, target: string, paying: bool)
    ensures Contains(Lower(TransferSentence(name, amount, target, paying)), if paying then "pay" else "collect")
  {
    var verb := if paying then " pays " else " collects ";
    var rest := amount + (if paying then " to " else " from ") + target;
    assert TransferSentence(name, amount, target, paying) == "Player " + name + verb + rest;
    KeywordIn("Player " + name, verb, rest, 1, if paying then "pay" else "collect");
  }

  lemma BuyKeyword(name: string, property: string)
    ensures Contains(Lower(BuySentence(name, property)), "buy")
  {
    assert Lower(" buys ")[1..4] == "buy";
    KeywordIn("Player " + name, " buys ", property, 1, "buy");
  }

  /** A keyword that the middle part shows at offset `k` once lower-cased is in the whole. */
  lemma KeywordIn(a: string, b: string, c: string, k: nat, w: string)
    requires k + |w| <= |b| && Lower(b)[k..k + |w|] == w
    ensures Contains(Lower(a + b + c), w)
  {
    LowerConcat(a + b, c);
    LowerConcat(a, b);
    var s := Lower(a) + Lower(b) + Lower(c);
    var i := |a| + k;
    assert s[i..i + |w|] == Lower(b)[k..k + |w|];
    assert MatchesAt(s, i, w);
  }

  // ---------------------------------------------------------------- the panel

  /** The panel's text state: the six form fields, the editable transcript and its mode. */
  class VoicePanel {
    var operationType: string
    var selectedPlayer: string
    var targetPlayer: string
    var amount: string
    var property: string
    var position: string
    var correctedText: string
    var isEditing: bool

    function Fields(): Form
      reads this
    {
      Form(operationType, selectedPlayer, targetPlayer, amount, property, position)
    }

    constructor ()
      ensures Fields() == EmptyForm && correctedText == "" && !isEditing
    {
      operationType, selectedPlayer, targetPlayer := "", "", "";
      amount, property, position := "", "", "";
      correctedText, isEditing := "", false;
    }

    /**
     * `handleFormSubmit`: send the form's sentence, if it makes one, and then clear all
     * six fields; when it makes none, nothing is sent and nothing is cleared.
     */
    method HandleFormSubmit(players: seq<Player>) returns (sent: Option<string>)
      modifies this
      ensures sent == FormSentence(players, old(Fields()))
      ensures sent.Some? ==> Fields() == EmptyForm
      ensures sent.None? ==> Fields() == old(Fields())
      ensures correctedText == old(correctedText) && isEditing == old(isEditing)
    {
      sent := FormSentence(players, Fields());
      if sent.Some? {
        operationType, selectedPlayer, targetPlayer := "", "", "";
        amount, property, position := "", "", "";
      }
    }

    /**
     * `handleCommand`: send the edited transcript when it is not empty, then clear it
     * and leave editing mode; an empty transcript sends nothing.
     */
    method HandleCommand() returns (sent: Option<string>)
      modifies this
      ensures old(correctedText) != [] ==> sent == Some(old(correctedText)) && correctedText == [] && !isEditing
      ensures old(correctedText) == [] ==> sent.None? && correctedText == old(correctedText) && isEditing == old(isEditing)
      ensures Fields() == old(Fields())
    {
      if correctedText != "" {
        sent := Some(correctedText);
        correctedText := "";
        isEditing := false;
      } else {
        sent := None;
      }
    }
  }
}
