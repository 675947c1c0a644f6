# Blackjack turn engine

A model of the game logic of a console blackjack client. The client gets its
cards from a deck-of-cards web service. It deals two cards to the player and
two to the dealer. The player then hits or stands; a player who goes over 21
loses at once. After a stand the dealer draws until reaching 17, and the two
totals are settled.

The model has four modules:

- `Cards` (cards.dfy): the card record and the points one card adds. An Ace adds
  11 and a King, Queen or Jack adds 10. Any other rank is read as a decimal
  number, and a rank that is not a decimal number adds 0. That includes the
  empty rank of the zero-value card that a failed draw returns.
- `Scoring` (scoring.dfy): hand scoring. `HandValue` is the scoring loop itself:
  it adds up the points and counts the Aces, then takes 10 off for one Ace at a
  time while the sum is over 21. It is proved equal to `Score`, a closed-form
  definition: the naive total (every Ace at 11) less 10 for each of
  `Downgrades(naive, aces)` Aces. That count is the smallest number of Aces
  that brings the total to 21 or below, or every Ace when that is not enough.
  The lemmas show this choice is greedy and minimal, and that each Ace ends up
  counting 11 or 1. The score is the best total not over 21 that the Aces allow,
  or the smallest total of all when every choice busts.
- `Settlement` (settlement.dfy): the final classification of the player total
  and the dealer total into five outcomes. The checks run in a fixed order:
  player bust, dealer bust, player higher, dealer higher, tie.
- `Turns` (turns.dfy): the two turn loops of the game and the game as a whole.
  The card source is a finite sequence of cards in draw order. A failed draw
  shows up in that sequence as the zero card. The player's commands are a finite
  sequence of already-trimmed lines. `PlayerPhase` and `DealerPhase` are the two
  loops. `Play` deals, runs the player's turn and, only after a stand, runs the
  dealer's turn and the settlement. Every way a game can stop is a `Finish`
  value. `BustScenario` and `StandScenario` are clients of `Play`'s contract.
  In the first, a player on 12 hits, takes a Queen and busts, and the contract
  alone shows that the dealer never plays. In the second, the player stands on
  18 and the dealer draws from 15 to 19, and the contract alone shows a
  dealer win.

The game's prompt tells the player to type `stop`, but the turn loop only
accepts `stand` and its Russian synonym `стоп`. The model keeps that behaviour:
`stop` is rejected like any unknown command (`AdvertisedStopIsRejected`).

The code scores a rank that is not a decimal number as 0 instead of reporting
an error, and so does the model.

## Model

| member | source | states |
|---|---|---|
| `Cards.ParseRank` | blackjack.go:54-56 | Reads a rank as a decimal number, or 0 when it is not one. Its meaning is proved in `Cards.ParseRankRoundTrip`: reading back the decimal rendering of any number gives that number. |
| `Cards.Points` | blackjack.go:47-57 | The points one card adds. Its meaning is proved in `Cards.RankPoints` and `Cards.NumberRankPoints`: Ace 11, King/Queen/Jack 10, a number rank its face value, anything else 0. |
| `Cards.RankPoints` | blackjack.go:47-57 | An Ace adds 11 and a King/Queen/Jack adds 10. A rank that is neither and is not a decimal number adds 0. The zero-value card of a failed draw adds 0. |
| `Cards.ParseRankRoundTrip` | blackjack.go:53-56 | Reading the decimal rendering of any number back as a rank gives that number. |
| `Cards.NumberRankPoints` | blackjack.go:53-56 | A card whose rank is the decimal rendering of n (the service's "2" … "10") adds exactly n. |
| `Scoring.AddCard` | blackjack.go:46-58 | Adding a card adds its points to the naive total, and adds one to the Ace count exactly when the card is an Ace. |
| `Scoring.HandValue` | blackjack.go:43-64 | The scoring loop (a points-and-Aces pass, then one 10-point downgrade per Ace while over 21) returns exactly `Score(hand)`, the closed-form greedy total. |
| `Scoring.Downgrades` | blackjack.go:59-62 | The number of Aces downgraded never exceeds the number of Aces. |
| `Scoring.DowngradesIsMinimal` | blackjack.go:59-62 | k is the downgrade count if and only if the k-th downgrade was needed (the total before it was over 21) and stopping at k is allowed (the total is at most 21, or no Ace is left). |
| `Scoring.NaiveSumCoversAces` | blackjack.go:46-58 | The naive total is at least 11 times the number of Aces. |
| `Scoring.ScoreDecomposes` | blackjack.go:59-62 | The score is the naive total less 10·m for some 0 ≤ m ≤ number of Aces. It lies between the all-Aces-at-1 total and the naive total, and it is never negative. |
| `Scoring.ScoreWithoutAces` | blackjack.go:59-62 | A hand without Aces scores its plain sum of points. |
| `Scoring.ScoreDowngradesGreedily` | blackjack.go:59-63 | A score over 21 means every Ace was downgraded. Any downgrade means the score plus 10 is over 21. |
| `Scoring.ScoreIsBestTotal` | blackjack.go:59-63 | For every attainable total (naive − 10k, k ≤ Aces): if it is at most 21, it is at most the score, and the score is at most 21. If the score is over 21, the score is at most that total. |
| `Scoring.ScoreExamples` | blackjack.go:43-64 | [ACE, ACE] scores 12, [ACE, KING] 21, [KING, QUEEN, JACK] 30 and [KING, 2, QUEEN] 22. |
| `Scoring.ScoreStandExamples` | blackjack.go:43-64 | [10, 8] scores 18, [10, 5] 15 and [10, 5, 4] 19. |
| `Settlement.Settle` | blackjack.go:156-167 | The ordered settlement checks. Their meaning is proved in `Settlement.SettleClassifies`: each outcome holds exactly under its own order-free condition on the two totals. |
| `Settlement.SettleClassifies` | blackjack.go:156-167 | Each of the five outcomes holds exactly under its own condition on the totals. Player bust means pt > 21. Dealer bust means pt ≤ 21 < dt. Player higher and dealer higher mean both totals are at most 21 and pt > dt or pt < dt. Tie means pt == dt ≤ 21. |
| `Settlement.SettleWinLoss` | blackjack.go:156-167 | The player wins exactly when pt ≤ 21 and the dealer is over 21 or lower. The player loses exactly when pt > 21 or the dealer is at most 21 and higher. Never both. |
| `Settlement.PlayerBustDecidesFirst` | blackjack.go:157-160 | When both totals are over 21, the outcome is the player's bust. |
| `Settlement.SettleExamples` | blackjack.go:161-166 | 18 against 19 is a dealer win, 20 against 20 a tie, 20 against 22 a dealer bust. |
| `Turns.IsHit` | blackjack.go:127 | Accepts "hit" and its Russian synonym "хит". `Turns.AdvertisedStopIsRejected` proves that "stop" is not accepted. |
| `Turns.IsStand` | blackjack.go:129 | Accepts "stand" and its Russian synonym "стоп". `Turns.AdvertisedStopIsRejected` proves that "stop" is not accepted. |
| `Turns.HitsAppend` | blackjack.go:127-128 | Reading one more command adds one to the hit count exactly when that command is a hit; every other command adds nothing. |
| `Turns.AdvertisedStopIsRejected` | blackjack.go:127-133 | "stop" is neither a hit nor a stand. Adding it to the commands adds no hit. |
| `Turns.PlayerPhase` | blackjack.go:113-134 | The final hand is the starting hand plus the next `drawn` cards, and `drawn` equals the number of hit commands read, so other commands change nothing. Every hit card was taken while the hand before it was at most 21. No stand comes before the last command read. The turn ends in a bust exactly when the final score is over 21, and then the last command read was the hit that busted (or none was read). A stand ends it on the last command read. It also ends when the input or the cards run out. |
| `Turns.DealerPhase` | blackjack.go:137-147 | The final hand is the starting hand plus the next `drawn` cards. Each card was taken while the hand before it scored below 17. The turn ends with a stand exactly when the final score is at least 17. Otherwise the cards ran out. |
| `Turns.DealerTurnThenSettle` | blackjack.go:136-167 | The dealer's turn runs first. The game settles only when the dealer reached 17, and the outcome is `Settle(player score, dealer score)`. Otherwise the cards ran out below 17. |
| `Turns.Play` | blackjack.go:98-167 | Fewer than four cards is exactly the failed deal. Otherwise the player holds cards 1-2 followed by the hit cards, which come right after the dealer's cards 3-4. The dealer holds cards 3-4 followed by the cards after the player's hits. The player's extra cards equal the hits read, and no stand precedes the last command read. Each player hit was taken at a total of at most 21. A bust ends the game with the dealer still on two cards, right after the hit that busted. The dealer draws only after a stand at a total of at most 21, and only below 17. A settled game has dealer ≥ 17, player ≤ 21, outcome `Settle(pt, dt)`, and never a player bust. |

## Left out

- The deck service is not modelled: `newDeck` and `draw` (blackjack.go:66-96) are HTTP requests and JSON decoding. The cards are a supplied sequence, and a failed draw is the zero card in that sequence. A failed deck creation (blackjack.go:99-103) ends the program before any game, so no game state exists to model.
- The unchecked `dr.Cards[0]` (blackjack.go:79) is not modelled. When the supplied sequence runs out, the model stops with `DealOutOfCards`, `PlayerOutOfCards` or `DealerOutOfCards`. What the real program does on an empty service reply is outside the model.
- Display is left out: `formatCard`, `printHand` and every printed message, including the Russian texts. The model has no output.
- Reading standard input and `strings.TrimSpace` are left out. Commands arrive already trimmed. At end of input the real program reads an empty line, rejects it and asks again without end. The model stops with `InputExhausted` instead.
- Cards.ParseRank: does not reproduce Go's `Sscanf("%d")`. The model reads only a non-empty string of decimal digits. A sign, leading spaces and trailing text after the digits ("10x" gives 10 in Go) all count 0 here. A string of digits too large for a Go `int` counts 0 in Go, because the failed conversion leaves the value at 0, but its full value in the model. The service only sends the ranks "2" to "10" and the four names.
- Integers are unbounded. The Go `int` sums cannot overflow for real hands, so no wrap-around is modelled.
- The dealer loop's termination under a real card source is not claimed. With a source that keeps returning zero cards the real loop never ends. The model terminates because the supplied card sequence is finite.
