# Monopoly turn engine, in Dafny

This project models the turn engine of a Monopoly simulator, written in Python, and proves properties of that model. It covers the `Player` state machine (player.py), the `Game` bookkeeping (game.py) and the round and turn loops of `main` (monopoly.py).

- **Players and property spaces are classes.** Their fields are updated in place, as in the source: cash, position, jail turns and cards, the bankrupt and monopoly flags, the property and monopoly lists, and the owner, building count and current rent of a space.
- **Each state change is also a function on values.** Every `Player` method ensures that the player's new state (`PlayerState`) is a function of the old one. Lemmas then prove what the source promises about those functions. Examples: cash is conserved by a payment, a move lands on the board, recounting monopolies is idempotent, and the jail strategy runs in priority order.
- **The monopoly count is a fold.** The walk of `count_monopolies` is written as a fold over the player's holdings (`Monopolies.Run`). An independent description says which groups end up credited (`Monopolies.Earned`: the size the first property of a group declares is at least one and at most the number held). Lemmas connect the fold to that description.
- **The game invariant.** The `Game` class keeps a per-round table of every player's cash, property count and monopoly count, as a map from (round, player id) to a row. It also keeps the remaining-player count. `Game.Valid` is the invariant the turn loop preserves:
  - players are numbered 1.. in list order;
  - every player is on the board;
  - every owner is a player;
  - every property a player lists is owned by that player.
- **Dice and coin are inputs.** Each turn receives its dice outcome and coin flip as a `Draw`: the roll's sum, whether it was a double, the running double count, and the coin of `visit_property`. `buy_building` receives the index of the option it buys.
- **Turns and rounds.** Every path of the turn loop ends the turn. `Turns.TakeTurn` states the outcome of each path on the game's objects (`Turns.TurnTaken`; `Turns.Resolved` says what the space dispatch leaves behind).
  - It also states the turn as a step on values. The game's snapshot (`Turns.Snapshot`) is every player's state by seat, every board property's state and the bank's cash. After the turn it is `Turns.TurnStep` of the snapshot before.
  - `Turns.Played` applies `TurnStep` to a run of (round, seat) turns in order.
  - `Turns.PlayRound` ties one round to `Played` over that round's turns in list order. `Turns.Play` ties the whole game to `Played` over the schedule of all its rounds, starting from the opening world.
- **Cash leaves the game.** Three debits credit no one, neither the bank nor another player, so the cash in the game is not conserved:
  - a purchase price (player.py:103);
  - a building cost (player.py:148);
  - the jail fine of 50 (player.py:202).

  `Turns.VisitCash` states the purchase case on values. Rent moves cash from payer to owner and keeps the total; a purchase lowers it by exactly the price.
- **The loop is bound by the round limit alone.** `main` never calls `Game.update`, so the count of remaining players keeps its initial value; this is modelled as written. Similarly, `Game` is built with its default of 10 rounds, whatever `main` is given.

## Model

| member | source | states |
|---|---|---|
| Monopolies.RunAt | player.py:112-129 | For one group: it ends up credited iff it was credited already or is earned by the holdings; it has a countdown iff it was uncredited and is held; an uncredited countdown equals the first declared size minus the number held |
| Monopolies.RunInvariant | player.py:112-129 | The same three facts for every group at once |
| Monopolies.RunExtends | player.py:115-126 | The walk only appends: the old monopoly list is a prefix of the new one, nothing appended was in it, and a list without repetitions stays without repetitions |
| Monopolies.RunCreditsNothingNew | player.py:114-126 | When every earned group is already credited the walk appends nothing |
| Monopolies.RunIdempotent | player.py:112-129 | A second walk over the same holdings, from the list the first produced, changes nothing |
| Monopolies.CreditedIffHoldsGroup | player.py:113-126 | When every property of a group declares the same size of at least one, an uncredited group is credited iff at least that many of its properties are held |
| Players.Player.constructor | player.py:17-27 | A new player has the given id, 1500 in cash, position 0, no properties, cards or monopolies, no jail turns and is not bankrupt |
| Players.Player.Move | player.py:31-49 | The new state is `Moved` of the old one, and for a position on the board and a roll of at most 40 the new position is (old + roll) mod 40, on the board |
| Players.MovedFacts | player.py:37-48 | A move lands on (position + roll) mod 40, earns exactly 200 iff position + roll reaches 40, and changes nothing but position and cash |
| Players.Player.VisitProperty | player.py:51-80 | The visit does what `Decide` selects: rent paid to the owner (a self-owned property nets to nothing), only the bankrupt flag on an unaffordable rent, the purchase with coin 1, and nothing otherwise; the owner changes at most in cash |
| Players.DecideCases | player.py:60-80 | Rent iff owned, unmortgaged and the quoted rent is affordable; bankruptcy iff owned, unmortgaged and unaffordable; purchase iff unowned, affordable and coin 1; decline iff unowned, affordable and a coin other than 1; no action in every other case |
| Players.Player.Pay | player.py:83-96 | When cash covers the payment the payer loses it and the recipient gains it (a payment to oneself nets to nothing); otherwise neither balance changes; the combined cash is conserved and the payer's other fields do not change |
| Players.Player.BuyProperty | player.py:98-110 | The new state is `Bought` of the old one and the property's owner becomes the buyer, the rest of the property unchanged |
| Players.BoughtFacts | player.py:102-106 | Buying appends exactly the property, debits its price with no affordability check, and otherwise only extends the monopoly record |
| Players.Player.CountMonopolies | player.py:112-129 | The new state is `Recounted` of the old one (the credited groups of the walk appended, the flag raised when any was) and the result is the length of the monopoly list |
| Players.RecountedFacts | player.py:112-129 | The recount keeps the old list as a prefix, appends only groups not credited before, never repeats a group, raises the monopoly flag only (and exactly when it appends), and credits exactly the earned groups |
| Players.RecountIdempotent | player.py:112-129 | Recounting a recounted state changes nothing |
| Players.RecountCreditsHeldGroup | player.py:113-126 | With a consistent group size of at least one, a recount credits an uncredited group iff the player holds at least that many of its properties |
| Players.Player.PurchaseOptions | player.py:136-142 | Returns the purchase options, `Options` of the property list, changing nothing |
| Players.OptionsMeaning | player.py:136-142 | A property is an option iff the player lists it, its group is credited, it is a street, its building cost is affordable and it has fewer than 5 buildings; a property list without repetitions gives options without repetitions |
| Players.Player.BuyBuilding | player.py:131-165 | With no option nothing changes; otherwise exactly the chosen option gets one more building (at most 5), its rent becomes the tier for the new count, cash drops by its building cost and stays at least 0, and no other property changes |
| Players.Player.GoToJail | player.py:170-176 | Position becomes 10 and jail turns 3, nothing else changes |
| Players.Player.ChooseJailStrategy | player.py:178-207 | The new state is `JailChoice` of the old one and the result says whether the player stays (no double, no card, cash below 50) |
| Players.JailChoiceOrder | player.py:187-207 | A double frees the player; else a card is spent; else 50 is paid; only otherwise one jail turn is served and cash and cards are kept; a player who leaves has no jail turns left; cash that was not negative stays not negative; position never changes |
| Players.Player.GoBankrupt | player.py:209-220 | Only the bankrupt flag is set; nothing goes to the creditor |
| Games.Game.constructor | game.py:19-38 | Round 0, no players or bank yet, an empty table (every cell of rows 1..max_rounds unset) and the given bound on rounds |
| Games.Game.GetPlayers | game.py:44-56 | Raises iff the count is outside 2..8, changing nothing; otherwise creates new players numbered 1..n in order, each as a new player starts, and sets the remaining count to n |
| Games.Game.GetBank | game.py:58-64 | Creates the bank and lowers its reserve by exactly 1500 per remaining player |
| Games.CashSumOfUniform | game.py:55-64 | Players that all hold the same amount hold that amount times their number |
| Games.NewGame | game.py:19-38 | Raises iff the player count is illegal or the number of rounds, the table's row count, is negative; otherwise seats the players, the bank holds its reserve less 1500 per player, and the bank's cash plus all players' cash equals the reserve |
| Games.Game.UpdateRound | game.py:101-107 | The round goes up by exactly 1, nothing else changes |
| Games.Game.Update | game.py:109-116 | Raises iff the current round is not a row of the table, after resetting the count; otherwise the remaining count is the number of players not bankrupt and the table is `Written`, the rows of the current round written in player order; the count is always between 0 and the number of players |
| Games.SolventExtremes | game.py:110-116 | The not-bankrupt count equals the number of players iff nobody is bankrupt, and is 0 iff everybody is |
| Games.WrittenKeys | game.py:111-114 | Writing a round keeps the cells of every other round, adds cells only in that round and only for players' ids, and gives every player a cell |
| Games.WrittenRowsAreSnapshots | game.py:111-114 | With distinct ids every player's cell holds that player's cash, property count and monopoly count |
| Games.WrittenFits | game.py:35-38 | A table with rows only in 1..max_rounds and columns only for players 1..n keeps that shape when a round in range is written |
| Turns.CourseFacts | monopoly.py:29-50 | A turn reaches the move iff the player is not bankrupt, it is not a third double, and the player is not one who stays in jail; a turn that moves lands on the board, out of jail, and cash that was not negative is not negative before the move |
| Turns.StaysValid | monopoly.py:44-61 | The game invariant survives a turn in which only the mover changed and at most one unowned property became the mover's, appended to its list |
| Turns.CashOnlyKeepsValid | monopoly.py:56-57 | The game invariant survives a payment of the mover to the bank |
| Turns.VisitKeepsValid | monopoly.py:60-61 | The game invariant survives a property visit |
| Turns.ResolveSpace | monopoly.py:52-61 | On a tax space the tax is paid to the bank if cash covers it (never a bankruptcy), on a property space the visit happens, on any other space nothing changes; no other object changes than those named; the invariant holds |
| Turns.MoveAndResolve | monopoly.py:49-61 | Moving and then resolving leaves `Resolved` of the moved state |
| Turns.LeaveJailAndMove | monopoly.py:43-61 | A jailed player who stays changes only by the jail choice and does not move; otherwise the player moves from the state after the jail choice and the space is resolved |
| Turns.TakeTurn | monopoly.py:29-68 | A bankrupt player's turn changes nothing; a third double sends the player to jail without moving; a player who stays in jail changes only by the jail choice; otherwise the player moves from the state after leaving jail and the space is resolved; only the objects named change; the invariant holds; the snapshot afterwards is `TurnStep` of the snapshot before, for the player's seat and the draw |
| Turns.TurnMatches | monopoly.py:29-68 | A turn whose objects changed as `TurnTaken` says changes the snapshot exactly as `TurnStep` does |
| Turns.TurnStepFrame | monopoly.py:29-61 | A turn on values keeps the number of seats and the set of board properties, changes the other seats at most in cash, never clears a bankruptcy, and never changes the owner of an owned property |
| Turns.PlayedFrame | monopoly.py:17-68 | Over any run of turns the seats and the board properties stay, a bankrupt player stays bankrupt, and an owned property keeps its owner |
| Turns.VisitCash | player.py:60-106 | Against the world in which the player has arrived, a property visit keeps the cash of bank and seats together, except a purchase, which lowers it by exactly the price |
| Turns.PlayedAppend | monopoly.py:17-23 | Playing two runs of turns one after the other is playing them joined |
| Turns.PlayRound | monopoly.py:19-68 | The round counter goes up by one, and the snapshot afterwards is the snapshot before played over the new round's turns, from the first seat to the last in list order; the invariant holds |
| Turns.NextRound | monopoly.py:19-68 | A game that is a world after rounds 1..k is, after one more round, that world after rounds 1..k+1 |
| Turns.PlayRounds | monopoly.py:17-71 | The loop plays no round unless more than one player remains, and otherwise stops after round `maxRounds`; the snapshot is the start after rounds 1..`round`, one after the other; the invariant holds |
| Turns.RoundsFollowSchedule | monopoly.py:17-23 | Playing rounds 1..k one after the other is playing their schedule |
| Turns.StartsValid | monopoly.py:14 | A freshly set-up game satisfies the turn loop's invariant |
| Turns.ScheduleOrder | monopoly.py:17-23 | The schedule holds exactly the (round, seat) pairs of rounds 1..n and seats 0..players-1, strictly in play order, rounds times players of them |
| Turns.Play | monopoly.py:11-71 | Raises iff the player count is illegal, leaving the board's properties as they were; otherwise the game has the default 10-round table bound, has played exactly `maxRounds` rounds, keeps its remaining count and its empty table, and satisfies the invariant; its snapshot is the opening world (new players, the board's properties as they were, the reserve less the players' cash) played over the schedule of rounds 1..`maxRounds`, each in list order |

## Left out

- Reading the board file (`get_board`, pandas) is not modelled: the board is a given sequence of 40 spaces, each a property space, a tax space or a space without effect in the turn loop.
- The pandas and numpy mechanics of the table (NaN initialisation, chained `.loc` assignment) are replaced by a map from (round, player id) to a row; a missing key is an unset cell.
- Randomness is not modelled: the coin flip of `visit_property`, the option index of `buy_building` and the dice are parameters.
- `pass_dice` and the `dice` field are left out, because dice.py is not part of this model; how `roll_sum`, `double` and `double_counter` are computed is not modelled.
- Turns.TakeTurn: requires a roll between 0 and 40 and a coin of 0 or 1 (`Plausible`), because the bounds of dice.py and of `np.random.randint(0, 2)` are not part of this model.
- `get_rent()` is modelled as a field (`quotedRent`) independent of `rent_now`, because spaces.py is not part of this model. The same holds for the other property fields: only those the core reads are declared.
- bank.py and config.py are not part of this model: the bank's reserve and the player count are parameters.
- Logging is left out, including the read of `recipient.id` in the log message of `pay`.
- The unreachable `allow_forgo_purchase == False` branch of `visit_property` and the empty creditor-type branches of `go_bankrupt` are not modelled.
- `Game` fields that the source sets to `None` before setup are modelled as an empty player list, a zero count and a null bank.
- Turns.Play: requires `maxRounds` of at least 1 for a legal player count, because with a smaller value the source's round loop never ends (an illegal count still raises); also requires a 40-space board whose properties are unowned at the start.
- Players.Player.BuyBuilding: requires the index to pick an option when there is one, the range `random.randint` draws from.
