# Monopoly voice automation: the command interpreter and its ledger, in Dafny

This project models the core of *monopoly-voice-automation*, a React/Redux helper for a
Monopoly game played at a table. A sentence such as `Player 1 pays 200 to player 2` comes
from speech, from an edited transcript, or from a quick form. `parseVoiceCommand`
classifies it into a command, and `executeCommand` applies that command to the game
ledger, which holds the players, the properties and the transaction log. The reply string
is shown as a notification.

The model consists of these modules:

- `Text`: characters, `toLowerCase`, `trim`, `includes` and decimal numerals.
- `Patterns`: the interpreter's regular expressions, as leftmost-match scanners.
  - `Find` handles the "keyword, blanks, digits" shapes. It is proved equal to the plain
    reading of the pattern.
  - `FindName` handles the backtracking property-name pattern.
- `GameTypes`: the records and the `find` lookups.
- `GameSlice`: the six reducers.
  - Each reducer is a function `After...` on a `GameState` value.
  - Each is also a method of the class `GameStore`, which updates its fields in place.
    The method is proved against the function.
- `Catalog`: the 28 properties loaded at start-up.
- `CommandParser`: `parseVoiceCommand`, pure, with the ledger snapshot as a parameter.
- `CommandExecutor`:
  - `Execute` is the specification of `executeCommand`.
  - The method `ExecuteCommand` dispatches the same updates, one by one, to a `GameStore`.
- `FormParsing`: what the parser makes of the sentences the quick form writes.
- `VoiceRecognition`: the quick form and the transcript forwarding.
- `PlayerManagement`: the "Add Player" dialog.
- `GameBoard`: the board's lookups, labels and grid placement.
- `App`: the mount effect, `handleVoiceCommand`, and what the catalog guarantees the
  interpreter.

Two parts of the source read a global store: the parser at
`src/utils/voiceCommandParser.ts:21` and the executor at line 144. In the model the
ledger is a parameter. The clock (`Date.now()`, `new Date()`) is the parameter `now`.

Player ids are numbers, but the parser captures them as digit strings. The source
compares the two with `===`, which never holds. The model keeps both readings:

- `Strict` is the comparison as written.
- `Loose` compares the digits read as a number. The interpreter uses this one.

See "## Findings".

Some behaviours of the interpreter are worth stating plainly:

- It does not check a buyer's balance, so money can go below zero.
- A property that is already owned gets the generic "Error processing command" reply.
- The buyer's list receives the whole updated property record.
- A purchase is recorded with the bank as the string `'0'` on the receiving side
  (`src/utils/voiceCommandParser.ts:255`). The model records it as the number 0.
- A sentence names players only by `player <digits>`, never by name.
- A payment's counterparty is a player only when the sentence says `to player <digits>`,
  and a collection's only when it says `from player <digits>`. Otherwise the other side is
  the bank.

In `executeCommand`, a payment or collection changes the subject's money before it looks
up the counterparty. That lookup reads the snapshot taken before the first update, so
`TransferOnStore` settles the counterparty first and then calls `MoveMoney`. The
resulting state is the same.

## Model

| member | source | states |
|---|---|---|
| GameTypes.PlayerIndex | src/store/gameSlice.ts:20 | `players.find` by id: the index found holds the id and no earlier player does; None means no player has it |
| GameTypes.PlayerIndexByIds | src/store/gameSlice.ts:20 | the first index with an id depends only on the ids, so money or position updates never change who a later lookup finds |
| GameTypes.PropertyIndex | src/utils/voiceCommandParser.ts:236 | `properties.find` by id, by lower-cased name or by position: the first match, or None exactly when nothing matches |
| GameTypes.PropertyIndexKept | src/store/gameSlice.ts:35-37 | changing a record in a way the lookup key does not read keeps the first match where it was |
| GameTypes.TotalMoneyUpdate | src/store/gameSlice.ts:22 | changing one player's money by d changes the players' total by d |
| GameTypes.TotalMoneyAppend | src/store/gameSlice.ts:17 | appending a player adds its money to the total |
| GameSlice.AfterAddPlayer | src/store/gameSlice.ts:16-18 | `addPlayer` appends the payload at the end; earlier players, properties, transactions and cards are unchanged; the total grows by the newcomer's money |
| GameSlice.AfterUpdatePlayerMoney | src/store/gameSlice.ts:19-24 | the first player with the id gets the signed amount added, with no lower bound; every other player and every other collection is unchanged; an unknown id changes nothing |
| GameSlice.UpdatePlayerMoneyTotal | src/store/gameSlice.ts:19-24 | `updatePlayerMoney` changes the players' total by the amount exactly when the id is found |
| GameSlice.AfterAddTransaction | src/store/gameSlice.ts:25-27 | exactly one entry is appended and every earlier entry is kept; players, properties and cards are unchanged |
| GameSlice.AfterUpdatePlayerPosition | src/store/gameSlice.ts:28-33 | the first player with the id gets the position, with no range check; all else unchanged; an unknown id changes nothing |
| GameSlice.AfterUpdatePropertyOwner | src/store/gameSlice.ts:34-44 | a found property gets the owner; the owner, if found, gets that record appended to its list; a missing property changes nothing; a missing owner leaves every list as it was; money and ids never change |
| GameSlice.UpdatePropertyOwnerTotal | src/store/gameSlice.ts:34-44 | recording an owner moves no money |
| GameSlice.AfterInitializeProperties | src/store/gameSlice.ts:45-47 | the property table is replaced wholesale; players, transactions and cards are untouched |
| GameSlice.OwnerRecordedTwice | src/store/gameSlice.ts:41 | recording the same owner twice lists the property twice in the owner's list |
| GameSlice.GameStore.constructor | src/store/gameSlice.ts:5-10 | the initial state has every collection empty |
| GameSlice.GameStore.Preloaded | src/store/store.ts:29-35 | a store started from a saved state holds exactly that state |
| GameSlice.GameStore.AddPlayer | src/store/gameSlice.ts:16-18 | the in-place `push` leaves the state `AfterAddPlayer` describes |
| GameSlice.GameStore.UpdatePlayerMoney | src/store/gameSlice.ts:19-24 | the in-place `money +=` leaves the state `AfterUpdatePlayerMoney` describes |
| GameSlice.GameStore.AddTransaction | src/store/gameSlice.ts:25-27 | the in-place `push` leaves the state `AfterAddTransaction` describes |
| GameSlice.GameStore.UpdatePlayerPosition | src/store/gameSlice.ts:28-33 | the in-place assignment leaves the state `AfterUpdatePlayerPosition` describes |
| GameSlice.GameStore.UpdatePropertyOwner | src/store/gameSlice.ts:34-44 | the two in-place updates leave the state `AfterUpdatePropertyOwner` describes |
| GameSlice.GameStore.InitializeProperties | src/store/gameSlice.ts:45-47 | the assignment leaves the state `AfterInitializeProperties` describes |
| Catalog.CatalogEntries | src/App.tsx:15-63 | the catalog has 28 entries; each has id equal to its square, no owner, a positive price and a square in 1..39 |
| Catalog.PositionsDistinct | src/App.tsx:15-63 | no two entries share a square |
| Catalog.NamesDistinct | src/App.tsx:15-63 | no two names are equal after lower-casing, so the case-insensitive lookup is unambiguous |
| Catalog.LookupByName | src/App.tsx:15-63 | looking up an entry by its own name, compared lower-cased, finds that entry and no earlier one |
| Catalog.LookupById | src/App.tsx:15-63 | looking up an id finds the same entry as looking up the square with that number, because each id is its square |
| Catalog.DottedEntries | src/App.tsx:26 | "St. Charles Place" (id 11) and "St. James Place" (id 16) contain a dot, which is outside `[a-zA-Z &]`, and no other entry has their ids |
| Catalog.NoEntryOnSpecialSquare | src/App.tsx:15-63 | no entry sits on one of the twelve special squares |
| Catalog.SquaresCovered | src/components/GameBoard/GameBoard.tsx:38-65 | a square holds a catalog entry exactly when the board does not label it as special: the catalog is the 40 squares minus the 12 special ones |
| Text.RunEnd | src/utils/voiceCommandParser.ts:25 | the end of the longest run of a character class: everything before it is in the class and the next character is not |
| Text.Lower | src/utils/voiceCommandParser.ts:20 | `toLowerCase` keeps the length, leaves no upper-case ASCII letter and keeps every other character where it was |
| Text.LowerIdempotent | src/utils/voiceCommandParser.ts:56 | lower-casing twice is lower-casing once |
| Text.Trim | src/utils/voiceCommandParser.ts:54 | `trim` leaves neither leading nor trailing blanks, keeps a string without them as it is, and empties an all-blank string |
| Text.ContainsByScan | src/utils/voiceCommandParser.ts:24 | the character scan decides `includes` |
| Text.NatToStringRoundTrip | src/utils/voiceCommandParser.ts:156 | parsing back a number printed by a template string gives the number |
| Text.DigitsRoundTrip | src/utils/voiceCommandParser.ts:41 | printing the value of a numeral without leading zeros gives the numeral back |
| Patterns.MatchAt | src/utils/voiceCommandParser.ts:25-26 | the engine's match at a position fits the pattern, and its group is a whole run of digits |
| Patterns.MatchAtComplete | src/utils/voiceCommandParser.ts:25-26 | for a pattern whose runs are never followed by their own class, the engine matches wherever some split fits |
| Patterns.FindMeaning | src/utils/voiceCommandParser.ts:25 | `match` fails exactly when the pattern fits nowhere in the sentence; otherwise its group is a whole number that occurs in the sentence |
| Patterns.FindAt | src/utils/voiceCommandParser.ts:25 | `match` reports the group of the leftmost start where the engine matches |
| Patterns.NameMatchAt | src/utils/voiceCommandParser.ts:27 | `to\s+([a-zA-Z &]+)(?:$\|\s)` at one start: the split found fits, and it is the engine's preferred one (longest blanks, then longest group) among all that fit |
| Patterns.NameGroupPreferred | src/utils/voiceCommandParser.ts:114 | every split that fits loses to the backtracking search's choice |
| Patterns.FindNameMeaning | src/utils/voiceCommandParser.ts:114 | the name pattern fails exactly when it fits nowhere, and otherwise reports the preferred split at the leftmost start |
| CommandParser.PatternsSeparated | src/utils/voiceCommandParser.ts:25-26 | each digit pattern is one the scanners read exactly: none of its runs can be followed by its own class |
| CommandParser.FindPlayer | src/utils/voiceCommandParser.ts:31 | with `Loose`, the index found holds the player whose id the digits spell, and no player has it when none is found; with `Strict`, nothing is ever found |
| CommandParser.StrictFindsNobody | src/utils/voiceCommandParser.ts:31 | comparing the captured string with `===` finds no player, whatever the ledger |
| CommandParser.StrictMissesExistingPlayer | src/utils/voiceCommandParser.ts:31 | a ledger with a player of id 1: `player 1` finds it when compared as a number, and not as written |
| CommandParser.MovePosition | src/utils/voiceCommandParser.ts:26 | the position is `position N` if present, else `to N`; it is absent exactly when neither occurs |
| CommandParser.PropertyNamed | src/utils/voiceCommandParser.ts:54-57 | the first property whose lower-cased name equals the lower-cased trimmed group, or none |
| CommandParser.ParseMove | src/utils/voiceCommandParser.ts:24-77 | the move branch yields a move or a non-empty error; a move names the first `player N`, which the ledger knows, and goes to a square in 0..39 or a property's square; it falls through exactly for a known player with no position and no name |
| CommandParser.ParsePay | src/utils/voiceCommandParser.ts:80-93 | a payment exactly when `player N pays` and `pays A` both occur; the payee is `to player M` or absent |
| CommandParser.ParseCollect | src/utils/voiceCommandParser.ts:96-109 | a collection exactly when `player N collects` and `collects A` both occur; the payer is `from player M` or absent |
| CommandParser.ParseBuy | src/utils/voiceCommandParser.ts:112-130 | a purchase exactly when `player N` occurs and the name after `buys` names a property; it carries that property's id |
| CommandParser.ParseWith | src/utils/voiceCommandParser.ts:19-133 | `parseVoiceCommand` for either id comparison: every UNKNOWN carries an error, a move names a player the ledger knows, and a purchase names a property the ledger has. The branch order, each branch's outcome and its exact messages are the lemmas KeywordPrecedence, ParseKinds, MoveOutcomes, PayOutcome, CollectOutcome and BuyOutcome |
| CommandParser.Parse | src/utils/voiceCommandParser.ts:19-133 | the parser with ids compared as numbers: a parsed move names a known player, and a rejection always carries its reason |
| CommandParser.BranchKeywords | src/utils/voiceCommandParser.ts:24 | the second keyword test of each branch (`moves to`, `pays`, `collects`, `buys`) adds nothing to the first |
| CommandParser.KeywordPrecedence | src/utils/voiceCommandParser.ts:19-133 | the branches are tried in the order move, pay, collect, buy; the first that decides gives the result, and otherwise it is "Command not recognized" |
| CommandParser.UnknownHasError | src/utils/voiceCommandParser.ts:132 | every UNKNOWN result carries a non-empty error |
| CommandParser.MoveOutcomes | src/utils/voiceCommandParser.ts:25-76 | a `move` sentence gives: no player, the missing-player error; an unknown player, "Player N does not exist"; a position past 39, "Invalid position"; a name no property has, "Property not found"; otherwise the move |
| CommandParser.ParseKinds | src/utils/voiceCommandParser.ts:19-133 | which branch produced the result can be read off its kind; an UNKNOWN comes from the move branch or is "not recognized" |
| CommandParser.BranchResults | src/utils/voiceCommandParser.ts:19-133 | each branch decides only commands of its own kind; only the move branch rejects |
| CommandParser.MoveTargets | src/utils/voiceCommandParser.ts:29-63 | a parsed move names a known player and a square within 0..39 or a property's square |
| CommandParser.MoveInRange | src/utils/voiceCommandParser.ts:42-52 | with every property on the board, every parsed move stays in 0..39 |
| CommandParser.PayOutcome | src/utils/voiceCommandParser.ts:80-93 | a payment is parsed exactly when the move branch does not decide, `pay` occurs, and both fields match; payer existence is not checked, and the payee is only `to player M` |
| CommandParser.CollectOutcome | src/utils/voiceCommandParser.ts:96-109 | the same for a collection, with `from player M` |
| CommandParser.BuyOutcome | src/utils/voiceCommandParser.ts:112-130 | a purchase is parsed exactly when no earlier branch decides and the name matches a property; it carries the first such property's id, and the buyer is not checked |
| CommandParser.PunctuatedNameNeverSelected | src/utils/voiceCommandParser.ts:27 | a property whose name has a character outside `[a-zA-Z &]` is never the one a name group selects |
| CommandParser.StrictMoveRejected | src/utils/voiceCommandParser.ts:31-38 | as written, a `move` sentence with `player N` is always rejected as naming a player who does not exist |
| CommandParser.StrictNeverMoves | src/utils/voiceCommandParser.ts:29-63 | as written, no sentence is parsed as a move |
| CommandExecutor.MovedMessage | src/utils/voiceCommandParser.ts:156 | a successful move's reply starts with `Player` |
| CommandExecutor.PaidMessage | src/utils/voiceCommandParser.ts:189-193 | a successful payment's reply starts with `Player` |
| CommandExecutor.CollectedMessage | src/utils/voiceCommandParser.ts:224-228 | a successful collection's reply starts with `Player` |
| CommandExecutor.BoughtMessage | src/utils/voiceCommandParser.ts:261 | a successful purchase's reply starts with `Player` |
| CommandExecutor.UnrecognizedMessage | src/utils/voiceCommandParser.ts:267 | the reply for a command of no known kind starts with `Command`, so no success reply can be mistaken for it |
| CommandExecutor.FallbackMessage | src/utils/voiceCommandParser.ts:270 | the reply for a command that falls out of the switch starts with `Error`, so no success reply can be mistaken for it |
| CommandExecutor.Counterparty | src/utils/voiceCommandParser.ts:172-174 | the counterparty is used only when it is non-empty and the ledger knows it |
| CommandExecutor.Transfer | src/utils/voiceCommandParser.ts:163-231 | a transfer keeps the cards, the property table, the sizes and the ids, and at most appends to the log |
| CommandExecutor.TransferMoves | src/utils/voiceCommandParser.ts:163-231 | a transfer changes only money: the subject's by the amount one way, a known counterparty's the other way, everyone else's not at all |
| CommandExecutor.TransferBalance | src/utils/voiceCommandParser.ts:163-231 | with a known counterparty exactly one RENT entry from payer to payee is appended and the total is unchanged; with the bank nothing is recorded and the total changes by the amount |
| CommandExecutor.Acquire | src/utils/voiceCommandParser.ts:238-259 | a purchase keeps the cards, the sizes and the ids, and at most appends to the log |
| CommandExecutor.Bought | src/utils/voiceCommandParser.ts:240-259 | the three purchase dispatches in order append exactly the PURCHASE record from the buyer to the bank (0), keep the cards and the sizes; AcquireEffect states the rest |
| CommandExecutor.AcquireEffect | src/utils/voiceCommandParser.ts:238-259 | a purchase takes the price from the buyer with no balance check, records the buyer in the table and in the buyer's list, and appends one PURCHASE entry to the bank (0); no other player or property changes |
| CommandExecutor.AcquireBalance | src/utils/voiceCommandParser.ts:240-243 | the price leaves the players' total |
| CommandExecutor.ApplyMove | src/utils/voiceCommandParser.ts:147-161 | the MOVE case keeps the cards, the sizes, the ids and the earlier log |
| CommandExecutor.ApplyTransfer | src/utils/voiceCommandParser.ts:163-231 | the PAY and COLLECT cases keep the cards, the sizes, the ids and the earlier log |
| CommandExecutor.ApplyBuy | src/utils/voiceCommandParser.ts:233-264 | the BUY case keeps the cards, the sizes, the ids and the earlier log |
| CommandExecutor.Apply | src/utils/voiceCommandParser.ts:136-271 | no command removes a player or a property, changes an id or the cards, or rewrites the log; at most one entry is appended |
| CommandExecutor.Execute | src/utils/voiceCommandParser.ts:136-271 | `executeCommand`: it keeps the cards, sizes, ids and earlier log, and a rejected sentence returns the parser's error with the ledger unchanged. Each command's effect on money, cards, log and reply is stated by MoveEffect, TransferEffect and BuyEffect, and RejectionChangesNothing restates the rejection case |
| CommandExecutor.RejectionChangesNothing | src/utils/voiceCommandParser.ts:139-141 | an UNKNOWN parse returns its error unchanged and leaves the ledger as it was |
| CommandExecutor.MoveEffect | src/utils/voiceCommandParser.ts:147-161 | a move of a known player within 0..39 changes only that player's position and reports it; a square past 39 is refused; any other move changes nothing |
| CommandExecutor.TransferEffect | src/utils/voiceCommandParser.ts:163-231 | amount 0 or an unknown subject changes nothing and gives "Error processing command"; otherwise money moves as `TransferMoves` says, the total changes only with the bank, the log gains one RENT record payer→payee when the counterparty is known and nothing when it is the bank, and the reply names the counterparty or the bank |
| CommandExecutor.BuyEffect | src/utils/voiceCommandParser.ts:233-264 | a known buyer and an unowned property give `AcquireEffect`'s state, the price leaves the total, and the reply is "bought"; a property id of 0, a missing or owned property (owner set and not 0) or an unknown buyer changes nothing and gives "Error processing command" |
| CommandExecutor.BuyOnce | src/utils/voiceCommandParser.ts:238 | after a purchase by a player whose id is not 0, any later purchase of the same property, by anyone, changes nothing and gives "Error processing command" |
| CommandExecutor.StrictExecutionChangesNothing | src/utils/voiceCommandParser.ts:149 | as written, no sentence changes the ledger |
| CommandExecutor.MoveOnStore | src/utils/voiceCommandParser.ts:147-161 | the store and the reply after the MOVE case are those `ApplyMove` gives |
| CommandExecutor.TransferOnStore | src/utils/voiceCommandParser.ts:163-231 | the store and the reply after the PAY or COLLECT case are those `ApplyTransfer` gives |
| CommandExecutor.MoveMoney | src/utils/voiceCommandParser.ts:167-187 | the two money updates and the record leave the state `Transfer` gives |
| CommandExecutor.AcquireOnStore | src/utils/voiceCommandParser.ts:240-259 | the three dispatches of a purchase leave the state `Acquire` gives |
| CommandExecutor.BuyOnStore | src/utils/voiceCommandParser.ts:233-264 | the store and the reply after the BUY case are those `ApplyBuy` gives |
| CommandExecutor.ExecuteCommand | src/utils/voiceCommandParser.ts:136-271 | dispatching the updates one by one leaves the store and reply `Execute` specifies |
| FormParsing.NoDigitsRejected | src/utils/voiceCommandParser.ts:25 | a sentence without a digit is never a command: the missing-player error if it contains `move`, else "not recognized" |
| FormParsing.MoveByNameRejected | src/components/VoiceRecognition/VoiceRecognition.tsx:106 | the form's move to a position, for a player name without digits, is always rejected for want of a player |
| FormParsing.MoveToPropertyRejected | src/components/VoiceRecognition/VoiceRecognition.tsx:108 | the form's move to a property, with names without digits, is always rejected for want of a player |
| FormParsing.BuyByNameRejected | src/components/VoiceRecognition/VoiceRecognition.tsx:122 | the form's purchase, with names without digits, is never a purchase |
| FormParsing.MoveToPositionRoundTrip | src/components/VoiceRecognition/VoiceRecognition.tsx:106 | for a player name and a position made of digits, the form's move parses to exactly that player and position: "does not exist" for an unknown player, "Invalid position" past 39, and otherwise the move |
| FormParsing.PayRoundTrip | src/components/VoiceRecognition/VoiceRecognition.tsx:113 | for a digit name and amount and a target with no digit and no `move`, the form's payment parses as a payment of the amount to the bank, because `to player M` cannot match |
| FormParsing.CollectRoundTrip | src/components/VoiceRecognition/VoiceRecognition.tsx:118 | likewise the form's collection parses as a collection from the bank |
| FormParsing.FormTransferWithBank | src/components/VoiceRecognition/VoiceRecognition.tsx:111-120 | executed, such a transfer moves only the player's money, records no transaction and replies with "the bank" |
| VoiceRecognition.PlayerNamed | src/components/VoiceRecognition/VoiceRecognition.tsx:100 | `players.find` by exact, case-sensitive name: the first player with the name, found exactly when some player has it |
| VoiceRecognition.Sentence | src/components/VoiceRecognition/VoiceRecognition.tsx:103-124 | the `switch` writes no sentence exactly for an unknown operation, a move with neither position nor property, or a payment or collection with no target; a purchase always gets one |
| VoiceRecognition.FormSentence | src/components/VoiceRecognition/VoiceRecognition.tsx:96-124 | nothing is sent unless a player has exactly the selected name. A move sends the position sentence when a position is given, else the property sentence, else nothing. A pay or collect needs a target. A buy is always sent. Any other operation sends nothing |
| VoiceRecognition.FormSentenceKeyword | src/components/VoiceRecognition/VoiceRecognition.tsx:103-124 | every sentence the form sends contains its operation's keyword once lower-cased, so it reaches that branch of the parser |
| VoiceRecognition.VoicePanel.constructor | src/components/VoiceRecognition/VoiceRecognition.tsx:29-40 | the six fields and the transcript start empty, not editing |
| VoiceRecognition.VoicePanel.HandleFormSubmit | src/components/VoiceRecognition/VoiceRecognition.tsx:96-136 | the sentence sent is `FormSentence`'s; when one is sent all six fields are cleared, otherwise nothing changes |
| VoiceRecognition.VoicePanel.HandleCommand | src/components/VoiceRecognition/VoiceRecognition.tsx:79-86 | a non-empty transcript is sent once, then cleared and editing ends; an empty one sends nothing and changes nothing |
| PlayerManagement.NewPlayer | src/components/PlayerManagement/PlayerManagement.tsx:33-43 | the new record has the clock reading as id, the name as typed, 1500 money, position 0, nothing owned and the chosen token |
| PlayerManagement.NewcomerShadowed | src/components/PlayerManagement/PlayerManagement.tsx:33-43 | with no check for repeats, a newcomer whose id some player already has is never found by that id |
| PlayerManagement.NewcomerFound | src/components/PlayerManagement/PlayerManagement.tsx:33-43 | a newcomer with a fresh id is found by it, at the end of the list |
| PlayerManagement.PlayerDialog.constructor | src/components/PlayerManagement/PlayerManagement.tsx:24-26 | the dialog starts closed, with no name and the first token |
| PlayerManagement.PlayerDialog.HandleAddPlayer | src/components/PlayerManagement/PlayerManagement.tsx:31-47 | a name that is not blank when trimmed adds the untrimmed name's player, clears the name and closes the dialog; a blank name changes nothing |
| App.GameContent.constructor | src/App.tsx:87-88 | no notification, not shown |
| App.GameContent.Mount | src/App.tsx:90-92 | the catalog replaces the property table |
| App.GameContent.HandleVoiceCommand | src/App.tsx:94-99 | the sentence is executed once; the store is `Execute`'s and the notification is its reply, shown unchanged |
| App.CatalogMovesInRange | src/App.tsx:15-63 | with the catalog loaded, every parsed move stays on the board |
| App.CatalogPurchaseFound | src/App.tsx:15-63 | with the catalog loaded, a parsed purchase names a square in 1..39 that the executor will find by id |
| App.PunctuatedNeverBought | src/utils/voiceCommandParser.ts:114 | a property with a character outside `[a-zA-Z &]` and an id of its own is never the target of a parsed purchase |
| App.SaintsCannotBeBought | src/App.tsx:26-31 | "St. Charles Place" and "St. James Place" can never be bought by voice |
| GameBoard.PropertyAt | src/components/GameBoard/GameBoard.tsx:19-21 | the first property on the square, or none exactly when no property is there |
| GameBoard.PlayersAt | src/components/GameBoard/GameBoard.tsx:24-26 | exactly the players on the square, no more than there are |
| GameBoard.PlayersAtConcat | src/components/GameBoard/GameBoard.tsx:24-26 | the filter distributes over concatenation, so the list's order is kept |
| GameBoard.PlayersAtKeepsAll | src/components/GameBoard/GameBoard.tsx:24-26 | when every player is on the square the list comes back whole; when none is, it comes back empty |
| GameBoard.SpecialLabel | src/components/GameBoard/GameBoard.tsx:38-61 | the label chain labels exactly the twelve special squares, each with a non-empty label; SpecialSquares gives the label of each |
| GameBoard.SpecialSquares | src/components/GameBoard/GameBoard.tsx:38-61 | the special squares are exactly {0,2,4,7,10,17,20,22,30,33,36,38}, with GO, JAIL, FREE PARKING, GO TO JAIL, COMMUNITY CHEST, CHANCE, INCOME TAX and LUXURY TAX |
| GameBoard.CellLabel | src/components/GameBoard/GameBoard.tsx:38-65 | a special label takes precedence over a property's name; no label without either |
| GameBoard.RenderCell | src/components/GameBoard/GameBoard.tsx:29-123 | a cell shows its label, the price exactly when a property is there, and exactly the players on the square |
| GameBoard.Placement | src/components/GameBoard/GameBoard.tsx:131-168 | the `gridColumn`/`gridRow` of the four loops put every square inside the 11x11 grid and on its border; PlacementCollides and PlacementOtherwiseDistinct say which squares share a box |
| GameBoard.PlacementOnBorder | src/components/GameBoard/GameBoard.tsx:131-168 | every square lands in columns and rows 1..11, on the border |
| GameBoard.PlacementCollides | src/components/GameBoard/GameBoard.tsx:152-168 | GO and JAIL share column 1, row 11, and column 11, row 11 holds no square |
| GameBoard.PlacementOtherwiseDistinct | src/components/GameBoard/GameBoard.tsx:131-168 | apart from GO and JAIL, different squares get different boxes |
| GameBoard.SquareAt | src/components/GameBoard/GameBoard.tsx:170 | the box at each of the 40 indices of the returned array draws a square in 0..39; with IndexOf, its inverse, each square is drawn once (SquareAtIsBijective) |
| GameBoard.IndexOf | src/components/GameBoard/GameBoard.tsx:170 | every square is drawn at an index of the returned array, and the box there is that square |
| GameBoard.SquareAtIsBijective | src/components/GameBoard/GameBoard.tsx:170 | each of the forty squares is drawn exactly once in the returned array |
| GameBoard.RenderBoard | src/components/GameBoard/GameBoard.tsx:127-171 | the four loops emit 40 boxes: square `SquareAt(k)` at index k, with its placement and cell, in the order 20..30, 31..39, 10..19, 0..9 |
| GameBoard.Assembled | src/components/GameBoard/GameBoard.tsx:170 | the four strips, joined in order, draw each square at its index |

## Left out

- Persistence: `src/store/store.ts` loads and saves the ledger in `localStorage`. That is
  I/O; only the start from a saved state is kept, as `GameStore.Preloaded`.
- `handleResetGame`: it needs a confirmation dialog and a page reload.
- Speech capture: the recognizer, the transcript effect, `handleStartListening`,
  `handleTextChange` and `toggleEditing`. The model starts from the text in the panel.
- Rendering: JSX, styling, colours, the owner's border, the avatars, tabs and the help
  dialog. A cell keeps only its label, price and occupants.
- `src/components/PlayerDashboard/PlayerDashboard.tsx` and `src/screens/GameContent.tsx`:
  display only.
- The notification's close handler is not modelled.
- Clocks: `Date.now()` and `new Date()` are the parameter `now`. A transaction's id and
  timestamp are both `now`, and a timestamp is a number, not a `Date`.
- JavaScript numbers: money, prices and ids are unbounded integers.
  - Floating point is not modelled.
  - `parseInt` is modelled only on digit strings. Precision loss above 2^53 is ignored.
- Text.Lower: maps only the ASCII letters A-Z. `toLowerCase` also maps other upper-case
  letters, so a sentence or name outside ASCII may lower-case differently.
- Regular expressions: only the interpreter's own patterns are modelled, as scanners.
  The `i` flag is not modelled, because every pattern runs on the lower-cased sentence.
- ParsedCommand: each variant carries only the fields its kind sets.
  - The executor's `playerId &&` tests are modelled as "non-empty".
  - The `position !== undefined` test always holds for a move.
  - A move's position is a natural number, so the `position < 0` tests cannot hold.
- Logging: the `console.log` of each received sentence (`src/App.tsx:95`) is output
  only and is not modelled.
- Text.NatToString: prints every digit of a number. A JavaScript template string prints
  numbers of 1e21 and above in exponent notation, so replies that quote such amounts or
  positions would differ.
- Cards: no reducer changes them. They are kept as a field so that every contract can
  say they are unchanged.

## Findings

| source | as written | input that shows it | evidently intended | confidence | as-written member | corrected member |
|---|---|---|---|---|---|---|
| src/utils/voiceCommandParser.ts:31 | `p.id === playerId` compares a numeric id with the captured digit string, which is never equal, so every player lookup fails (also the `find` calls at lines 149, 165, 173, 200, 208, 235). The same digit string, not a number, is also the `playerId` of the dispatched updates (lines 153, 168, 176, 203, 211, 241), and the `from`/`to` of the RENT records (lines 182-183, 217-218). The reducers compare these payloads with `===` against numeric ids (`src/store/gameSlice.ts:20`, 29). | a ledger holding a player with id 1 and the sentence `Player 1 moves to position 5`: the reply is "Player 1 does not exist" and the ledger is unchanged | convert the captured digits to a number once, before every use, so that `player 1` finds the player whose id is 1 and every dispatched update and record carries that number. The corrected model does exactly this: every lookup, every reducer payload and both sides of a RENT record use the numeric value. Converting only at the `find` calls would still leave the updates without effect: the reply "Player 1 moved to position 5" with the position unchanged, and a purchase that sets the owner and logs the record without debiting the buyer. | not executed | CommandParser.StrictMissesExistingPlayer | CommandParser.FindPlayer |
