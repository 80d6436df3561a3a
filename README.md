# Dasco1n wagering and settlement engine, in Dafny

This project models the core of Dasco1n, a betting and ladder system for
Twitch and Discord streams. Viewers stake the DSC coin on the winner and the
loser's score of a match. The model covers four parts.

- **The API routes of the web service.** They open, lock and score a match,
  place and refund bets, settle the channel's LOCKED match, record a result
  by player pair, and show the current match.
  - The database is a value `Ledger.Db`: tables of users, matches, bets and
    Elo audit rows.
  - Each route is a function from the store and the request to the response
    and the new store (`MatchRoutes`, `BetRoutes`, `Settlement`,
    `PairRecord`, `Snapshots`).
  - The class `Store.Store` holds the same tables as fields. Its methods
    update them in place, as the routes do, and each is proved equal to its
    function.
- **The payout formula and the coin prices.** `Payout` holds the payout
  formula. `Economy` holds the GPC price and the hidden-multiplier
  ("HM") price of a coin.
- **The Discord bot's commands.**
  - `DiscordLadder`: the ladder merge, sort and ranking.
  - `Chunking` and `Listing`: the message-chunking loops.
  - `Help`: the command-file filter.
  - `Dascoin`: the search for StreamElements points.
  - `DiscordIds`: mention and id parsing, and `!inputUser`.
  - `DeleteUser`: `!deleteuser`.
  - `StatsCommand`: `!stats`.
- **The Twitch bot and the chat-command dispatcher.** These are `TwitchBot`
  and `ChatCommands`. `LastBets` holds the last-bet map.

`Common` holds the shared vocabulary:

- a JSON value type;
- JavaScript's `Number()` conversion, with NaN and the infinities;
- ASCII case folding and `trim`;
- `split` and `join`;
- a stable insertion sort.

Routes find "the most recent match" with `orderBy: { openedAt: 'desc' }`.
The model takes that to be the match with the highest index in the match
table, because every route stamps `openedAt` with the current time when it
creates a row. A case-insensitive `findFirst` without an order is the first
row in table order.

Where the code and its written design disagree, the model follows the code:

- With an empty losing pool, `computePayout` uses 1 as the numerator of the
  pool ratio over `max(1, winning pool)`. It does not use a ratio of 1.
  `Payout.EmptyLosingPoolLosesStake` shows that a winner then gets back
  less than the stake.
- Channel settlement (`current/record`) pays stake + stake/winnersSum ×
  losersSum. It does not call `computePayout`.
- The `currentOpenMatch` helper counts only bets in status PLACED. The
  place route writes PENDING, so the helper's totals stay at 0
  (`Snapshots.RoutesNeverWritePlaced`). The `GET /api/matches/current`
  snapshot sums the stakes of bets in every status.
- `chunkAndSend` in the Discord ladder command does not reset a buffer that
  holds only white space. Its messages are therefore not bounded in length.
  The model states what it does promise: the messages followed by the
  leftover white space are the text, in order.

## Model

| member | source | states |
|---|---|---|
| Payout.Ratio | payout.ts:22 | the ratio is positive; with no losing pool it is at most 1 |
| Payout.ComboMultiplier | payout.ts:30 | the combo factor lies in [1, 1.15] |
| Payout.StepCapped | payout.ts:23-27 | for a non-negative stake the step-capped amount lies in [5% of the stake, 10 × the stake] |
| Payout.UncappedAtLeastFloor | payout.ts:27-32 | the combo factor and the doubling never push the amount below 5% of the stake |
| Payout.PayoutBounds | payout.ts:25-36 | for a non-negative stake the payout is an integer in [floor(5% of the stake), 10 × the stake] |
| Payout.NegativeStakeGetsMinimum | payout.ts:25-27 | for a negative stake the inverted clamp always yields 5% of the stake |
| Payout.RatioWithLosers | payout.ts:22 | with a positive losing pool, ratio × max(1, winning pool) = the losing pool |
| Payout.EmptyLosingPoolLosesStake | payout.ts:22-36 | with no losing pool and two or more on the winning side, the ratio is 1/winning pool and a non-perfect winner gets back less than the stake |
| Payout.ComboStacksClamped | payout.ts:30 | the combo factor is 1 + 0.015 · clamp(stacks, 0, 10); stacks above 10 pay as 10 and negative stacks as 0 |
| Payout.PerfectDoublesUnderCap | payout.ts:32-35 | `isPerfect` doubles the amount before the cap; the result stays ≤ 10 × the stake and is never below the non-perfect payout |
| Payout.UnderdogIgnored | payout.ts:9-36 | `isUnderdog` does not change the payout |
| Payout.Example200 | payout.ts:22-36 | stake 100 with pools 500 and 1000, no stacks, not perfect, pays 200 |
| Ledger.Latest | app/api/matches/current/lock/route.ts:11 | the most recent match satisfying the query: it satisfies it, no later match does, and `None` exactly when no match does |
| Ledger.FindUser | app/api/_utils/users.ts:3-6 | the first user whose name equals the given name ignoring case; `None` exactly when there is none |
| Ledger.FindBet | app/api/bets/current/place/route.ts:37 | a bet of that user on that match; `None` exactly when there is none |
| Ledger.OpenCountZero | app/api/matches/open/route.ts:25 | a channel has no OPEN match exactly when the OPEN-match lookup finds nothing |
| Ledger.OpenCountAppend | app/api/matches/open/route.ts:28-30 | an inserted match adds one to its channel's OPEN count exactly when it is OPEN |
| Ledger.OpenCountUpdate | app/api/matches/open/route.ts:26 | updating one match changes the count by what the old and new rows contribute |
| BetRoutes.UsernameSource | app/api/bets/current/place/route.ts:12-14 | a non-blank `x-username` header wins; otherwise the body's `username`, trimmed |
| BetRoutes.PlaceValidation | app/api/bets/current/place/route.ts:21-28 | 400 exactly for an empty username, a choice not 1 or 2, a loser score not an integer in 0..9, or an amount not finite and positive; every error changes nothing |
| BetRoutes.FractionalAmountAccepted | app/api/bets/current/place/route.ts:26 | any positive stake is valid, fractions included; 0, a missing amount and `null` are not |
| BetRoutes.PlaceForCodes | app/api/bets/current/place/route.ts:33-45 | once the user is found, the only errors are 409s, and they change nothing |
| BetRoutes.PlaceNeedsOpenMatch | app/api/bets/current/place/route.ts:33-34 | 409 "no open match" exactly when the channel has no OPEN match, so a LOCKED match takes no bets |
| BetRoutes.PlaceResolved | app/api/bets/current/place/route.ts:16-37 | past validation, the route works on the found user, the chosen side, the integer loser score, the amount and `Boolean(replace)` |
| BetRoutes.PlaceConflict | app/api/bets/current/place/route.ts:39 | an existing bet without `replace` gives 409 and the store is unchanged |
| BetRoutes.PlaceReplaces | app/api/bets/current/place/route.ts:41-42 | with `replace` and an existing bet, that row gets the new prediction and amount and status PENDING; its payout and every other row stay as they were |
| BetRoutes.PlaceCreates | app/api/bets/current/place/route.ts:43-45 | with no existing bet, a new PENDING bet without a payout is appended, whatever `replace` is |
| BetRoutes.ChoiceMapping | app/api/bets/current/place/route.ts:22-36 | choice 1 is stored as p1 and 2 as p2; 3 is not a valid choice |
| BetRoutes.PlaceKeepsWellFormed | app/api/bets/current/place/route.ts:37-45 | placing keeps at most one bet per (match, user) and every reference valid |
| BetRoutes.PlaceReplayIdempotent | app/api/bets/current/place/route.ts:41-42 | replaying an identical replacing request returns ok and leaves the store as the first request left it |
| BetRoutes.ReplaceTwice | app/api/bets/current/place/route.ts:42 | replacing a row twice with the same values is the same as replacing it once |
| BetRoutes.AppendThenReplace | app/api/bets/current/place/route.ts:42-44 | replacing a freshly created row with the values it was created with changes nothing |
| BetRoutes.FindBetAfterUpdate | app/api/bets/current/place/route.ts:37-42 | after the update, the lookup of the (match, user) pair still finds the same row |
| BetRoutes.FindBetAfterAppend | app/api/bets/current/place/route.ts:37-44 | after the insert, the lookup of the pair finds the new row |
| BetRoutes.RefundErrors | app/api/bets/current/refund/route.ts:14-18 | 400 exactly for an empty username, then 404 exactly for an unknown user; errors change nothing |
| BetRoutes.RefundResolved | app/api/bets/current/refund/route.ts:17-26 | once the user is found, the refund is the refund of that user's bet |
| BetRoutes.RefundForCodes | app/api/bets/current/refund/route.ts:20-24 | once the user is found, the only errors are 404s, and they change nothing |
| BetRoutes.RefundNeedsOpenBet | app/api/bets/current/refund/route.ts:20-24 | 404 "no open match" exactly without an OPEN match, so bets on LOCKED or SETTLED matches cannot be refunded; 404 "no bet" exactly when the user has no bet on it |
| BetRoutes.RefundEffect | app/api/bets/current/refund/route.ts:26 | only the user's bet on the OPEN match changes, and only its status, to REFUNDED |
| BetRoutes.RefundIdempotent | app/api/bets/current/refund/route.ts:20-27 | a second identical refund answers the same and leaves the store as the first left it |
| BetRoutes.RefundKeepsWellFormed | app/api/bets/current/refund/route.ts:26 | refunding keeps the store well formed |
| MatchRoutes.SupersedeOpen | app/api/matches/open/route.ts:25-26 | superseding keeps the number of matches |
| MatchRoutes.OpenValidation | app/api/matches/open/route.ts:12-17 | 400 "required" exactly when a trimmed name is empty; 400 exactly for that or for names equal ignoring case; errors change nothing |
| MatchRoutes.OpenResolvedCodes | app/api/matches/open/route.ts:23-32 | past validation the only error is 404, and it changes nothing |
| MatchRoutes.OpenUnknownPlayer | app/api/matches/open/route.ts:19-23 | 404 exactly when either player is not found, and nothing changes |
| MatchRoutes.OpenResolvedEffect | app/api/matches/open/route.ts:25-32 | answers 201 with the new id; the new match is appended OPEN at 0-0 between the two users; only the channel's latest OPEN match is changed, to SETTLED with `settledAt`; bets, users and audit rows are untouched |
| MatchRoutes.OpenEffect | app/api/matches/open/route.ts:12-22 | a successful open uses the trimmed names' users and the trimmed body channel, `default` when absent |
| MatchRoutes.OpenLeavesOneOpen | app/api/matches/open/route.ts:25-30 | a channel with at most one OPEN match before a successful open has exactly one after it: the new match |
| MatchRoutes.OpenResolvedOneOpen | app/api/matches/open/route.ts:25-30 | the resolved open leaves exactly one OPEN match in the channel, the new one, and it is the one the lookup finds |
| MatchRoutes.SupersedeCount | app/api/matches/open/route.ts:25-26 | superseding leaves the channel with no OPEN match |
| MatchRoutes.SupersedeKeepsOneOpen | app/api/matches/open/route.ts:25-26 | superseding keeps at most one OPEN match per channel and leaves none in the channel |
| MatchRoutes.OpenResolvedKeepsOneOpen | app/api/matches/open/route.ts:23-30 | the resolved open keeps at most one OPEN match per channel |
| MatchRoutes.OpenKeepsOneOpen | app/api/matches/open/route.ts:16-30 | opening keeps at most one OPEN match per channel in every channel |
| MatchRoutes.LockNotFound | app/api/matches/current/lock/route.ts:11-12 | 404 exactly when the channel has no OPEN match, so a LOCKED match cannot be locked again; errors change nothing |
| MatchRoutes.LockEffect | app/api/matches/current/lock/route.ts:11-14 | only the channel's latest OPEN match changes, and only its state, to LOCKED; other channels, bets and users are untouched |
| MatchRoutes.LockTwice | app/api/matches/current/lock/route.ts:11-14 | with at most one OPEN match per channel, a second lock in a row gives 404 and changes nothing |
| MatchRoutes.LockKeepsOneOpen | app/api/matches/current/lock/route.ts:14 | locking keeps at most one OPEN match per channel |
| MatchRoutes.ScoreValidation | app/api/matches/current/score/route.ts:12-22 | 400 exactly for non-integer scores; integer scores give 404 exactly without an OPEN or LOCKED match; errors change nothing |
| MatchRoutes.ScoreEffect | app/api/matches/current/score/route.ts:18-30 | the latest non-SETTLED match gets exactly the two scores, which the reply repeats; its state and every other row stay as they were |
| MatchRoutes.ScoreOutOfRangeAccepted | app/api/matches/current/score/route.ts:14-16 | negative scores and scores above 10 are accepted as given |
| MatchRoutes.ScoreKeepsOneOpen | app/api/matches/current/score/route.ts:24-28 | a score update keeps at most one OPEN match per channel |
| Settlement.SettleValidation | app/api/matches/current/record/route.ts:12-16 | 400 exactly for a winner other than 1 or 2 or a loser score that is not an integer in 0..9; errors change nothing |
| Settlement.StringLoserScoreRefused | app/api/matches/current/record/route.ts:11-16 | the winner goes through `Number()` but the loser score does not: "3" is refused, and the string "2" as winner is accepted |
| Settlement.SettleNeedsLocked | app/api/matches/current/record/route.ts:18-19 | valid arguments give 404 exactly when the channel has no LOCKED match, so an OPEN match cannot be settled here |
| Settlement.SettleResolved | app/api/matches/current/record/route.ts:18-31 | a successful settlement acts on the channel's latest LOCKED match with the chosen side and the loser score |
| Settlement.SettleMatchFields | app/api/matches/current/record/route.ts:27-42 | the match becomes SETTLED with `settledAt`, the winner side and the loser score; the winner's side scores 10 and the other side the loser score; players and channel are kept; users and audit rows are untouched |
| Settlement.SettlePartition | app/api/matches/current/record/route.ts:44-63 | exact winners are SETTLED with stake plus share, every other PENDING bet on the match is SETTLED with payout 0, and every other bet is untouched |
| Settlement.CountsPartition | app/api/matches/current/record/route.ts:49-67 | the winner and loser counts add up to the number of PENDING bets on the match |
| Settlement.WinnerPayoutsSum | app/api/matches/current/record/route.ts:52-59 | the winners' payouts sum to the winners' stakes plus their share of the losers' pool |
| Settlement.PotConserved | app/api/matches/current/record/route.ts:52-59 | with a positive winners' pool, the winners' payouts add up to the whole pot (winners' plus losers' stakes); otherwise to the winners' stakes |
| Settlement.SettleTwice | app/api/matches/current/record/route.ts:18-36 | a second settlement in a row gives 404 and changes nothing, unless another LOCKED match exists |
| Settlement.SettleKeepsInvariants | app/api/matches/current/record/route.ts:31-68 | settling keeps the store well formed and at most one OPEN match per channel |
| PairRecord.RecordResolved | app/api/matches/record/route.ts:50-57 | after validation the route only fails with 404 or 500 |
| PairRecord.EloDeltasAreChanges | app/api/matches/record/route.ts:17-23 | newA = Ra + round(d), newB = Rb + round(−d), and the reported deltas are exactly newA − Ra and newB − Rb |
| PairRecord.WinnerGainsLoserLoses | app/api/matches/record/route.ts:17-22 | for a win with K ≥ 0 and an expected score in [0, 1], the winner's delta is ≥ 0 and the loser's ≤ 0 |
| PairRecord.EloNearlyZeroSum | app/api/matches/record/route.ts:19-22 | the two deltas cancel to within one point of rounding |
| PairRecord.EloExample | app/api/matches/record/route.ts:17-23 | two 1200 players, K = 32, expected 0.5: 1216 and 1184, deltas +16 and −16 |
| PairRecord.ClampLoserScoreRange | app/api/matches/record/route.ts:46 | the stored loser score is clamp(floor(loserScore), 0, 9); a NaN is the only value left without a score |
| PairRecord.RecordMissingFields | app/api/matches/record/route.ts:40 | 400 "missing" exactly for a falsy name or an absent or null loser score; errors change nothing |
| PairRecord.RecordNamesNotStrings | app/api/matches/record/route.ts:41 | present names give 400 exactly when one is not a string |
| PairRecord.RecordInvalidPlayers | app/api/matches/record/route.ts:43-44 | string names give 400 "invalid players" exactly when one trims to empty or they are equal ignoring case |
| PairRecord.RecordValidated | app/api/matches/record/route.ts:39-46 | past validation the route works on the trimmed names, the clamped score and the defaulted channel (`discord`) and opener (`discord:unknown`) |
| PairRecord.DistinctNamesDistinctUsers | app/api/matches/record/route.ts:50-53 | two names that differ ignoring case never find the same user |
| PairRecord.RecordUnknownUsers | app/api/matches/record/route.ts:50-57 | 404 exactly when a user is unknown, naming the missing ones; a NaN loser score fails the write with 500; errors change nothing |
| PairRecord.MissingNamesBoth | app/api/matches/record/route.ts:55 | the missing names are listed in order, joined by ", " |
| PairRecord.RecordSettleUsers | app/api/matches/record/route.ts:59-150 | a missing Elo counts as 1200; the winner's Elo becomes newA and its wins go up by one (from 0 when absent), the loser's Elo becomes newB and its losses go up by one; no other user and no bet changes; two audit rows hold exactly these changes |
| PairRecord.RecordSettleMatch | app/api/matches/record/route.ts:83-114 | the latest OPEN match of the pair in the channel, in either order, is settled for the winner; without one, a new SETTLED match is appended; no other match changes |
| PairRecord.RecordKeepsInvariants | app/api/matches/record/route.ts:96-137 | recording keeps at most one OPEN match per channel and the store well formed |
| Snapshots.CurrentSelection | app/api/matches/current/route.ts:9-33 | null exactly without an OPEN or LOCKED match; otherwise the latest such match, with missing scores shown as 0 |
| Snapshots.SideStakesSplit | app/api/matches/current/route.ts:20-23 | the two side totals add up to all the stake on the match |
| Snapshots.SideStakeIgnoresStatus | app/api/matches/current/route.ts:20-23 | the side totals ignore status: changing a bet's status leaves them unchanged |
| Snapshots.RefundKeepsSnapshotTotals | app/api/matches/current/route.ts:20-23 | a refund does not change the snapshot's totals |
| Snapshots.CurrentOpenMatch | _util.ts:3-13 | the fold of the PLACED bets of the channel's latest OPEN match into per-side totals, as the helper returns them |
| Snapshots.OpenTotalsThrows | _util.ts:4-6 | throws exactly for a missing or empty channel, then exactly when the channel has no OPEN match |
| Snapshots.PlacedStakesSplit | _util.ts:8-11 | each counted stake goes to exactly one side: p1 + p2 is the PLACED stake on the match |
| Snapshots.NoPlacedNoTotals | _util.ts:7 | bets that are not PLACED add nothing to the totals |
| Snapshots.RoutesNeverWritePlaced | app/api/bets/current/place/route.ts:42-44 | no route writes PLACED, so on a store without PLACED bets the helper's totals stay 0 |
| Store.Store.Open | app/api/matches/open/route.ts:7-33 | the in-place open equals `MatchRoutes.OpenMatch` and keeps at most one OPEN match per channel |
| Store.Store.OpenResolved | app/api/matches/open/route.ts:25-32 | supersede, then insert, as `MatchRoutes.OpenResolved` |
| Store.Store.Lock | app/api/matches/current/lock/route.ts:6-16 | the in-place lock equals `MatchRoutes.LockMatch` and keeps at most one OPEN match per channel |
| Store.Store.Score | app/api/matches/current/score/route.ts:6-31 | the in-place score update equals `MatchRoutes.SetScore` and keeps at most one OPEN match per channel |
| Store.Store.Place | app/api/bets/current/place/route.ts:9-48 | the in-place place equals `BetRoutes.PlaceBet` |
| Store.Store.Refund | app/api/bets/current/refund/route.ts:9-28 | the in-place refund equals `BetRoutes.RefundBet` |
| Store.Store.RefundFor | app/api/bets/current/refund/route.ts:20-27 | the refund of the user's bet equals `BetRoutes.RefundFor` |
| Store.Store.SettleCurrent | app/api/matches/current/record/route.ts:6-71 | the in-place settlement equals `Settlement.SettleCurrent` |
| Store.Store.SettleLocked | app/api/matches/current/record/route.ts:31-68 | the transaction, with its two loops, equals `Settlement.SettleMatch` |
| Store.Store.PayWinners | app/api/matches/current/record/route.ts:56-60 | each winner row becomes SETTLED with stake plus share; all other rows are kept |
| Store.Store.PayLosers | app/api/matches/current/record/route.ts:61-63 | each loser row becomes SETTLED with payout 0; the table is then the settled table |
| Store.Store.RecordPair | app/api/matches/record/route.ts:25-152 | the in-place record equals `PairRecord.RecordPair` |
| Store.Store.RecordWinLoss | app/api/matches/record/route.ts:96-137 | the transaction equals `PairRecord.RecordSettle` |
| Store.CollectPools | app/api/matches/current/record/route.ts:44-54 | the winner and loser index lists are increasing and hold exactly the rows of each pool; their lengths are the pool counts and the sums are the pool stakes |
| Economy.DailyOpen | economy.ts:14-26 | no key, an empty key or no usable answer gives 4000; otherwise the feed's open |
| Economy.OverrideWins | economy.ts:8 | an enabled override returns the override price, whatever the key and the feed say |
| Economy.FeedPrice | economy.ts:9-25 | without the override the price is the feed's open, or 4000 without a key or an answer |
| Economy.GpcNotConfigured | economy.ts:5-6 | a missing GPC coin or market is an error, never a price |
| Economy.CirculationNonNegative | economy.ts:35-36 | wallets with no negative balance add up to a non-negative circulation |
| Economy.DampedBetween | economy.ts:41 | the damped multiplier lies between the stored and the computed one and moves 0.3 of the way |
| Economy.ComputedAtLeastOne | economy.ts:37-39 | for a non-negative circulation the computed multiplier is at least 1 |
| Economy.CoinNotFoundUnchanged | economy.ts:30-31 | an error exactly for a missing coin or market, and then nothing is written |
| Economy.MultiplierDisabled | economy.ts:32-44 | with the multiplier disabled, the price is base × stored multiplier and nothing is written |
| Economy.MultiplierEnabled | economy.ts:34-44 | with it enabled, only that coin's multiplier changes, to the damped value, and the price is base × the new multiplier |
| Economy.Exchange.CoinPriceInGpc | economy.ts:29-45 | the in-place price read and multiplier write equal `Economy.CoinPrice` |
| ChatCommands.Unquoted | commands.ts:88-89 | the argument with every `"` removed; present exactly when the argument exists |
| ChatCommands.CallThenReply | commands.ts:118-127 | a handler that calls the API makes exactly that one call |
| ChatCommands.HelpEntries | commands.ts:54-69 | five base entries, then the four moderation entries for a mod or the broadcaster only |
| ChatCommands.ModHelpExtends | commands.ts:62-70 | a mod's help is everyone's help followed by " · " and the moderation entries |
| ChatCommands.WalletItems | commands.ts:73-76 | `None` exactly when some wallet entry is null; otherwise one item per entry, item i being `coin: display` of entry i |
| ChatCommands.BetOpenModOnly | commands.ts:86-94 | `!bet open` is refused with "Mods only." to anyone else; for a mod it makes one open call whose player names hold no `"` |
| ChatCommands.BetChecks | commands.ts:96-105 | a bet is posted exactly when the winner is 1 or 2 and loser score and amount are numbers; winner 1 is sent as `p1` and 2 as `p2` |
| ChatCommands.AmountHandler | commands.ts:108-159 | an amount that is 0 or NaN gives the usage reply and no call; otherwise exactly the one POST |
| ChatCommands.AmountChecks | commands.ts:109-156 | `!replacebet`, `!buygpc` and `!sellgpc` call nothing exactly when the amount is NaN or 0 |
| ChatCommands.Lock | commands.ts:123-127 | anyone but a mod or the broadcaster gets "Mods only." |
| ChatCommands.RecordChecks | commands.ts:129-137 | a result is posted exactly for a privileged caller with two non-empty unquoted names and a numeric loser score |
| ChatCommands.Score | commands.ts:139-145 | mods only; for them exactly one call and no reply |
| ChatCommands.OfferCreate | commands.ts:161-173 | an offer is posted exactly when quantity and price are non-zero numbers and the coin and buyer are present |
| ChatCommands.OfferAccept | commands.ts:175-180 | an accept is posted exactly when an offer id is given |
| ChatCommands.Tokens | commands.ts:15 | trimming and splitting on white space always gives at least the command word |
| ChatCommands.RunCommand | commands.ts:16-48 | no handler runs exactly when the lowercased command word is not one of the thirteen commands |
| ChatCommands.Finish | commands.ts:18-51 | an unknown command does nothing; the calls are the handler's; with the `catch` reached there is no rejection and at most one reply |
| ChatCommands.HandleCommand | commands.ts:14-51 | the corrected dispatcher never rejects and sends at most one reply |
| ChatCommands.UnknownCommandIgnored | commands.ts:46-47 | an unknown command makes no call and sends no reply, in both versions |
| ChatCommands.ErrorsAreReplied | commands.ts:49-50 | in the corrected dispatcher every thrown error is answered with `Error: ...` after the calls made |
| ChatCommands.AsWrittenAgreesWithoutErrors | commands.ts:18-48 | the code as written and the corrected dispatcher agree on every run that does not throw |
| ChatCommands.SingleWordTokens | commands.ts:15 | a line of one word is that word with no arguments |
| ChatCommands.FinishThrown | commands.ts:18-51 | a thrown run ends, uncaught, with no reply and the rejection, and caught, with the `Error: ...` reply |
| ChatCommands.AsWrittenLosesErrors | commands.ts:18-51 | as written, every error a handler throws escapes the `catch`: no reply, and the promise rejects with it |
| ChatCommands.CancelBetRouted | commands.ts:36-37 | `!cancelbet` in any case runs the cancel handler |
| ChatCommands.CancelBetListed | commands.ts:36-37 | `!cancelbet` is one of the commands and names the cancel handler |
| ChatCommands.CancelBetErrorEscapes | commands.ts:18-51 | a refund the API rejects is, as written, an unhandled rejection with no reply; the corrected dispatcher replies `Error: ...` |
| TwitchBot.ParseIntStrict | bots/twitch/src/index.ts:11-15 | `None` unless the text is an optional sign followed by digits; a result is the value denoted, and lies below the overflow bound |
| TwitchBot.ParseIntStrictRoundTrip | bots/twitch/src/index.ts:11-15 | `parseIntStrict(String(n)) == n` for every integer below the overflow bound |
| TwitchBot.ParseIntStrictOverflow | bots/twitch/src/index.ts:13-14 | digits whose value overflows a double are rejected although the syntax is right |
| TwitchBot.SafeCallReplies | bots/twitch/src/index.ts:17-26 | no reply exactly when the call succeeded; otherwise `Error: ...` |
| TwitchBot.PostThenSay | bots/twitch/src/index.ts:34-64 | exactly the one POST, and the handler's fixed line is always the last reply |
| TwitchBot.ResolveUsername | bots/twitch/src/index.ts:43-56 | a non-empty display name is used first |
| TwitchBot.StartBet | bots/twitch/src/index.ts:31-36 | a match is opened exactly when both player names are given |
| TwitchBot.BetPostsOnlyValid | bots/twitch/src/index.ts:38-53 | a bet is posted exactly when choice, loser score, amount, username and the balance precheck all pass; otherwise one reply and no call |
| TwitchBot.BetAcceptedAlways | bots/twitch/src/index.ts:47-52 | the posted bet is the parsed one, and "Bet accepted" is the last reply even when the API refused it |
| TwitchBot.RefundBet | bots/twitch/src/index.ts:55-60 | a refund is posted exactly when a username resolves |
| TwitchBot.LockBet | bots/twitch/src/index.ts:62-65 | exactly one lock POST with an empty body |
| TwitchBot.RecordResultChecks | bots/twitch/src/index.ts:67-73 | a result is posted exactly when the winner is 1 or 2 and the loser score 0..9, and it is the parsed pair |
| TwitchBot.IncAddsOne | bots/twitch/src/index.ts:75-81 | `inc` adds one to the chosen side only, counting a missing score as 0 |
| TwitchBot.IncFromNothing | bots/twitch/src/index.ts:77-80 | a match without scores moves to 1:0 or 0:1 |
| TwitchBot.Increment | bots/twitch/src/index.ts:82-83 | the current match is fetched first, and "Incremented Player n score by 1." is always the last reply |
| TwitchBot.SetScore | bots/twitch/src/index.ts:85-91 | scores are posted exactly when both parse as strict integers |
| TwitchBot.TopLines | bots/twitch/src/index.ts:96 | one ranked line per item, in order from 1; it throws exactly when an item is null or missing |
| TwitchBot.TopTextAtMostTen | bots/twitch/src/index.ts:95-97 | at most ten lines, the first ten items in order, and nothing after them is read |
| TwitchBot.TopTextEmpty | bots/twitch/src/index.ts:97 | an empty list gives "Top 10 <title>: No data" |
| TwitchBot.Top | bots/twitch/src/index.ts:99-107 | one fetch and exactly one reply: the text, or `Error: ...` |
| TwitchBot.Parse | bots/twitch/src/index.ts:119-120 | the name is the first white-space piece of the trimmed text after `!`, lowercased; the arguments are the rest |
| TwitchBot.RoutingIgnores | bots/twitch/src/index.ts:116-123 | the bot's own messages, messages without `!` and unknown names do nothing |
| TwitchBot.RoutingIgnoresCase | bots/twitch/src/index.ts:120 | command names are matched ignoring case |
| DiscordIds.MentionDigits | inputUser.ts:8-9 | a result is a non-empty run of digits |
| DiscordIds.MentionDigitsOf | parsing.ts:3-4 | `<@d>` and `<@!d>` give back the digits `d` |
| DiscordIds.ParseDiscordId | inputUser.ts:4-12 | an empty input gives null; any result is a non-empty digit string |
| DiscordIds.ParseMentionOrId | parsing.ts:2-7 | any result is a non-empty digit string |
| DiscordIds.BareIdLengths | inputUser.ts:10 | a bare id is accepted by its length alone: 15 to 22 digits here, 15 to 21 in `parseMentionOrId` (parsing.ts:5) |
| DiscordIds.MentionOrIdNoTrim | parsing.ts:2-7 | `parseMentionOrId` does not trim: a leading blank rejects any input |
| DiscordIds.MentionOrIdImpliesDiscordId | inputUser.ts:4-12 | whatever `parseMentionOrId` accepts, `parseDiscordId` accepts with the same id, with blanks around it too |
| DiscordIds.TrimAround | inputUser.ts:6 | trimming removes exactly the blank text around a string without outer white space |
| DiscordIds.InputUser | inputUser.ts:14-47 | invalid arguments make no call; valid ones create the trimmed username first |
| DiscordIds.InputUserChecks | inputUser.ts:15-26 | the checks run in order: fewer than three arguments, username, Twitch id, Discord id, each with its own reply |
| DiscordIds.InputUserStoresIds | inputUser.ts:28-43 | the ids are patched exactly when the arguments are valid and the creation succeeded or reported an existing user |
| DiscordIds.ConflictTolerated | inputUser.ts:33-34 | a creation error whose message mentions `409` is tolerated |
| Dascoin.PickDiscordId | bots/discord/src/commands/dascoin.ts:15-16 | a missing or empty argument picks the author |
| Dascoin.PickDiscordIdCases | bots/discord/src/commands/dascoin.ts:17-20 | a mention gives its digits, an all-digit argument is taken as it is, anything else picks the author |
| Dascoin.FromUrlAlphabet | bots/discord/src/commands/dascoin.ts:25 | same length; every `-` becomes `+`, every `_` becomes `/`, every other character is kept |
| Dascoin.PaddedLength | bots/discord/src/commands/dascoin.ts:26 | padding makes the length a multiple of 4 exactly when it is not 1 mod 4, and adds at most two characters |
| Dascoin.FromUrlAlphabetClean | bots/discord/src/commands/dascoin.ts:25 | the translated text has no `-` and no `_` |
| Dascoin.DecodeJwtPayload | bots/discord/src/commands/dascoin.ts:31-36 | an empty token, or one that is not three dot-separated parts, gives null |
| Dascoin.DecodesMiddlePart | bots/discord/src/commands/dascoin.ts:33-35 | `header.payload.signature` decodes its middle part |
| Dascoin.NonEmpty | bots/discord/src/commands/dascoin.ts:84-89 | the kept candidates are exactly the non-empty ones |
| Dascoin.DedupeDistinct | bots/discord/src/commands/dascoin.ts:91-97 | the kept channels are candidates, and no two of them are equal ignoring case |
| Dascoin.DedupeCovers | bots/discord/src/commands/dascoin.ts:91-97 | every candidate with a non-empty key is represented by a kept channel with that key |
| Dascoin.DedupeKeepsFirst | bots/discord/src/commands/dascoin.ts:92-96 | the first candidate with each key is the one kept |
| Dascoin.DedupeChannels | bots/discord/src/commands/dascoin.ts:91-97 | the loop with its `seen` set computes the case-insensitive dedupe |
| Dascoin.KeysOfSnoc | bots/discord/src/commands/dascoin.ts:95 | one more kept channel adds exactly its key to `seen` |
| Dascoin.FindLink | bots/discord/src/commands/dascoin.ts:109 | a found link is one of the links and has exactly the target id |
| Dascoin.FindLinkFirst | bots/discord/src/commands/dascoin.ts:109 | the link found is the first with the target id, when no entry before it is null |
| Dascoin.UserCandidates | bots/discord/src/commands/dascoin.ts:117-119 | at most two users; the lowercased login comes first when present; none exactly when both login and id are falsy |
| Dascoin.PointsPrecedence | bots/discord/src/commands/dascoin.ts:57-62 | `points` shadows `total`, which shadows `current`, which shadows `point.current`; none exactly when none of them is a number |
| Dascoin.Pairs | bots/discord/src/commands/dascoin.ts:134-135 | the loops try \|channels\| × \|users\| pairs |
| Dascoin.PairsAt | bots/discord/src/commands/dascoin.ts:134-135 | pair i·\|users\| + j is channel i with user j |
| Dascoin.FirstHit | bots/discord/src/commands/dascoin.ts:143 | no pair before the index is a hit, and the index, when below the count, is one |
| Dascoin.SearchStopsAtFirstHit | bots/discord/src/commands/dascoin.ts:134-147 | the search reports the first channel and user, in loop order, whose response is ok with numeric points |
| Dascoin.PairsMember | bots/discord/src/commands/dascoin.ts:134-135 | every pair tried is one of the channels with one of the users |
| Dascoin.SearchPoints | bots/discord/src/commands/dascoin.ts:133-152 | the two loops, returning at the first hit, compute the search result |
| Dascoin.TryUsers | bots/discord/src/commands/dascoin.ts:135-151 | the inner loop stops at the first hit in its row, or records every attempt of the row |
| Dascoin.FirstHitAfter | bots/discord/src/commands/dascoin.ts:143-146 | after a prefix without a hit, a hit is the first one |
| Dascoin.HitAfterPrefix | bots/discord/src/commands/dascoin.ts:143-146 | where the loops return is the first hit of the search |
| Dascoin.PairsPrefix | bots/discord/src/commands/dascoin.ts:134 | the pairs of the first channels come first |
| Dascoin.Summary | bots/discord/src/commands/dascoin.ts:155-156 | no attempts give "(no attempts)" |
| Dascoin.NoChannelConfigured | bots/discord/src/commands/dascoin.ts:74-102 | with no usable token and neither channel variable set, the reply is the configuration warning, whatever the links hold |
| Dascoin.NoCandidates | bots/discord/src/commands/dascoin.ts:78-89 | no token payload and no channel variables give no candidate |
| Dascoin.LinksMustBeArray | bots/discord/src/commands/dascoin.ts:107-109 | a links file that is not an array makes the command throw |
| DeleteUser.Kept | bots/discord/src/commands/deleteUser.ts:31-36 | an entry is kept exactly when it does not match the target |
| DeleteUser.EmptyTargetIsUsage | bots/discord/src/commands/deleteUser.ts:15-19 | an empty target gets the usage reply and the file is left alone |
| DeleteUser.RemovedCount | bots/discord/src/commands/deleteUser.ts:26-44 | the number reported is the number of matching entries, and the file is rewritten exactly when it is positive |
| DeleteUser.WrittenKeepsOrder | bots/discord/src/commands/deleteUser.ts:31-40 | the entries written are the kept ones in their original order |
| DeleteUser.MatchIgnoresCase | bots/discord/src/commands/deleteUser.ts:32-33 | an entry without a username is always kept; otherwise it matches exactly when the names are equal ignoring case |
| DiscordLadder.EnsureArray | bots/discord/src/commands/ladder.ts:11-14 | a falsy value gives [], an array itself, anything else a one-element array |
| DiscordLadder.EnsureArrayIdempotent | bots/discord/src/commands/ladder.ts:11-14 | applying `ensureArray` to what it returned changes nothing |
| DiscordLadder.TrimmedName | bots/discord/src/commands/ladder.ts:20-49 | a name read from a link or stat is non-empty and already trimmed |
| DiscordLadder.NonZero | bots/discord/src/commands/ladder.ts:32-42 | a field counts exactly when it is a non-zero number, and then as that number |
| DiscordLadder.LoadStats | bots/discord/src/commands/ladder.ts:25-60 | a falsy body gives no stats; otherwise it throws exactly when an entry is null, and gives one stat per entry |
| DiscordLadder.EloPrecedence | bots/discord/src/commands/ladder.ts:31-34 | the elo is the first non-zero number of `elo` and `rating`, else `ELO` when it is a number (0 included); none exactly when there is none of these |
| DiscordLadder.CountDefault | bots/discord/src/commands/ladder.ts:35-42 | wins and losses are 0 exactly when no field holds a non-zero number, and otherwise one of the fields |
| DiscordLadder.LoadLinks | bots/discord/src/commands/ladder.ts:15-24 | every link loaded has a non-empty Discord id |
| DiscordLadder.FindStatsFirst | bots/discord/src/commands/ladder.ts:62-77 | the stats come from the first existing file with entries; missing and empty files are skipped |
| DiscordLadder.IndexHas | bots/discord/src/commands/ladder.ts:95-102 | every stat with a non-empty key is indexed under it |
| DiscordLadder.IndexLatest | bots/discord/src/commands/ladder.ts:99-101 | each index entry is the last stat with that key |
| DiscordLadder.IndexStats | bots/discord/src/commands/ladder.ts:91-102 | the first loop builds the three indexes by username, login and Discord id |
| DiscordLadder.LookupPrecedence | bots/discord/src/commands/ladder.ts:126-129 | a link's stat is found by username, else by login, else by Discord id; none exactly when all three miss |
| DiscordLadder.PushGrows | bots/discord/src/commands/ladder.ts:109-118 | `pushRow` keeps the rows before it and adds at most one, under its key; `seen` gains exactly that key |
| DiscordLadder.PushOk | bots/discord/src/commands/ladder.ts:114-117 | `pushRow` keeps the row keys non-empty, lowercase, distinct and equal to `seen` |
| DiscordLadder.PushNumbers | bots/discord/src/commands/ladder.ts:110-117 | a pushed row has the given names; without a stat its elo is 1000 and its record 0-0, with one it takes the stat's numbers |
| DiscordLadder.StatKeyAgrees | bots/discord/src/commands/ladder.ts:136-141 | the stats-only loop tests the same key that `pushRow` then uses |
| DiscordLadder.StatRowsAppend | bots/discord/src/commands/ladder.ts:135-142 | the stats-only loop only appends, and each row it adds is a stat's own row |
| DiscordLadder.BuildRowsDistinct | bots/discord/src/commands/ladder.ts:104-144 | the rows have non-empty, lowercase, distinct keys |
| DiscordLadder.BuildRowsCover | bots/discord/src/commands/ladder.ts:121-142 | every link and every stat with a key has a row |
| DiscordLadder.BuildRowsOrder | bots/discord/src/commands/ladder.ts:120-142 | the link rows come first, and each later row is a stat's own row |
| DiscordLadder.BuildRows | bots/discord/src/commands/ladder.ts:89-145 | the three loops compute `buildRows` |
| DiscordLadder.AddLinkRows | bots/discord/src/commands/ladder.ts:121-132 | the link loop gives the link stage of the rows |
| DiscordLadder.AddStatRows | bots/discord/src/commands/ladder.ts:135-142 | the stats-only loop gives the stats stage of the rows |
| DiscordLadder.RowLeTotalPreorder | bots/discord/src/commands/ladder.ts:200-205 | the sort comparator is a total preorder |
| DiscordLadder.SortRowsSorted | bots/discord/src/commands/ladder.ts:200-205 | the sorted rows are a permutation of the rows, elo never rises, and equal elos are in lowercase name order |
| DiscordLadder.RankedLines | bots/discord/src/commands/ladder.ts:210-215 | one line per row |
| DiscordLadder.RankedLinesAt | bots/discord/src/commands/ladder.ts:211-214 | line i is row i with rank i + 1 |
| DiscordLadder.OutputLines | bots/discord/src/commands/ladder.ts:208-215 | the title, then one ranked line per row |
| DiscordLadder.RankLineNumber | bots/discord/src/commands/ladder.ts:213 | the digits before a line's first `.` read back as its rank |
| DiscordLadder.Ladder | bots/discord/src/commands/ladder.ts:174-221 | no links file gives the missing-file reply; an unreadable stats file throws; no rows gives "No users"; otherwise the messages followed by blank leftovers are the title and ranked lines, in order |
| Chunking.ChunkLines | ladder.ts:80-98 | the loop with `buf` and `curLen` computes the chunks of the lines |
| Chunking.ChunkLinesShape | ladder.ts:85-96 | every line lands in exactly one chunk, in order; each chunk is its lines joined by "\n"; no lines give no chunks |
| Chunking.ChunkLinesSizes | ladder.ts:86-94 | a chunk of two or more lines fits, and the first line starts the first chunk only when it fits |
| Chunking.ChunkLinesEmptyFirst | ladder.ts:86-90 | an empty chunk can only be the first, when the first line alone is longer than the limit |
| Chunking.ChunkLinesGreedy | ladder.ts:86-94 | a chunk is closed only when the next line with its newline would take it past the limit |
| Chunking.ChunkLinesFit | ladder.ts:86-94 | if every line fits, every chunk fits |
| Chunking.JoinGrows | ladder.ts:86-93 | one more line adds a newline and the line to the joined text |
| Chunking.ChunkAndSend | bots/discord/src/commands/ladder.ts:155-172 | the messages sent, followed by the blank text never sent, are every line with its newline, in order; no message is blank |
| Chunking.Flush | bots/discord/src/commands/ladder.ts:159-164 | a buffer that is not blank is sent and cleared; a blank one stays; sent plus buffered text is unchanged |
| Chunking.HistoryChunks | myMatchHistory.ts:22-30 | the messages are `Chunking.HistorySent`: all lines are sent once, in order, each with its newline; the messages are a greedy cut, a chunk being sent exactly when the next line with its newline would take it past 1800 characters; if every line fits, every message fits; an empty message can only be the first, when the first line does not fit; nothing is sent exactly when there are no lines |
| Chunking.HistoryAfterCut | myMatchHistory.ts:22-30 | what the loop sends is all the lines cut into chunks, each line with its newline, where a chunk is closed exactly when the next line would overflow it and a line is added whenever it fits |
| Chunking.HistorySentShape | myMatchHistory.ts:22-30 | the messages hold every line once, in order; they fit when every line fits; an empty one can only be the first; there are none exactly when there are no lines |
| Help.BaseName | bots/discord/src/commands/help.ts:36 | the `.ts` suffix is removed exactly when the name ends in it; the name `.ts` itself gives the empty name |
| Help.BareSuffixListed | bots/discord/src/commands/help.ts:28-40 | a file named just `.ts` passes every filter and is listed under the empty name |
| Help.DisabledNeverTs | bots/discord/src/commands/help.ts:30-32 | the `.ts.disabled` test removes nothing: a name ending in `.ts` never ends in `.ts.disabled` |
| Help.NamesAreCommands | bots/discord/src/commands/help.ts:19-40 | every name pushed is the lowercase base name of a listed file somewhere in the tree |
| Help.EntryNamesIn | bots/discord/src/commands/help.ts:19-41 | what one entry contributes appears among the names of its directory |
| Help.TopFilesListed | bots/discord/src/commands/help.ts:26-40 | every listed top-level file is pushed |
| Help.SubdirNames | bots/discord/src/commands/help.ts:21-24 | everything in an enabled sub-directory is pushed |
| Help.NamesLowercase | bots/discord/src/commands/help.ts:36-40 | command names are lowercase and never `index` |
| Help.Walk | bots/discord/src/commands/help.ts:16-42 | the recursive walk pushes exactly the names of the tree, depth first |
| Help.DedupeSet | bots/discord/src/commands/help.ts:47-51 | the filter keeps every name and adds none |
| Help.DedupeDistinct | bots/discord/src/commands/help.ts:47-51 | no name is kept twice |
| Help.DedupeDistinctUnchanged | bots/discord/src/commands/help.ts:47-51 | a list without repeats passes the filter unchanged |
| Help.DedupeNames | bots/discord/src/commands/help.ts:47-51 | the loop with its `seen` set computes the dedupe |
| Help.AvailableSortedUnique | bots/discord/src/commands/help.ts:11-55 | the commands are sorted and distinct, and are exactly the names the walk found |
| Help.HelpCommand | bots/discord/src/commands/help.ts:96-117 | no commands gives "No commands found."; otherwise no message is blank, and the messages followed by blank leftovers are the lines of the body with their newlines |
| Listing.PresentNames | listall.ts:6-7 | the names kept are exactly the truthy usernames |
| Listing.SortedNamesSorted | listall.ts:6-8 | the listed names are sorted and are a permutation of the truthy usernames |
| Listing.PiecesJoin | listall.ts:18-23 | the pieces of some names are their join by ", " with one ", " more |
| Listing.StripPieces | listall.ts:20-25 | stripping the trailing separator leaves the prefix and the names joined by ", " |
| Listing.ListedShaped | listall.ts:15-24 | after each name, the sent groups and the open group are the names so far, and the open chunk is the open group's pieces |
| Listing.ListedReplies | listall.ts:17-24 | each reply is its group joined by ", ", the first behind the header |
| Listing.ListedEmptyFirst | listall.ts:19-21 | only the first group can be empty, when the first name does not fit behind the header |
| Listing.ListedGreedy | listall.ts:19 | a chunk is sent only when the next name and its ", " would take it past the limit |
| Listing.ListedFits | listall.ts:19-23 | if the header and every name with its separator fit, every chunk fits |
| Listing.ListAll | listall.ts:3-29 | the replies the command sends, as `ListAllOf` defines them |
| Listing.SendChunks | listall.ts:15-25 | the loop and the last flush send the chunk replies |
| Listing.HeaderShape | listall.ts:13 | the header ends with a newline, so it never loses a separator |
| Listing.ChunkRepliesCover | listall.ts:17-25 | one reply per group of names, and the groups one after the other are the sorted names |
| Listing.ChunkRepliesJoined | listall.ts:20-25 | each reply is its group joined by ", ", the first behind the header |
| Listing.ChunkRepliesEmptyFirst | listall.ts:14-21 | only the first reply can be empty of names: when header and first name exceed 1900 less the header |
| Listing.ChunkRepliesHeader | listall.ts:13-15 | the first reply starts with the header |
| Listing.NameRepliesEmpty | listall.ts:10-13 | "No users." exactly when there are no names; otherwise the first reply starts with `All users (n):` |
| Listing.ChunkRepliesGreedy | listall.ts:14-19 | a reply is sent only when the next name and its ", " would take the chunk past 1900 less the header |
| Listing.ChunkRepliesFit | listall.ts:14-23 | if every name with its ", " fits in 1900 less the header, so does every reply |
| Listing.LadderLineRank | bots/discord/src/commands/listall.ts:11 | the rank in front of the first `.` is i + 1, padded with blanks to three characters |
| Listing.PaddedRank | bots/discord/src/commands/listall.ts:11 | in a padded number followed by `.`, the first `.` ends the number |
| Listing.PadNoDot | bots/discord/src/commands/listall.ts:11 | the padding brings in no `.` |
| Listing.PadTrims | bots/discord/src/commands/listall.ts:11 | the padding is blank and `trimStart` removes exactly it |
| Listing.LadderMessages | bots/discord/src/commands/listall.ts:4-23 | the messages the command sends, as `LadderMessagesOf` defines them |
| Listing.SendPages | bots/discord/src/commands/listall.ts:14-18 | the `for` loop sends one message per 40 lines |
| Listing.PageMessagesPages | bots/discord/src/commands/listall.ts:15-17 | message k is page k behind the title |
| Listing.PagesCover | bots/discord/src/commands/listall.ts:15-16 | the pages one after the other are the lines, in order |
| Listing.PagesSizes | bots/discord/src/commands/listall.ts:14-16 | there are ceil(n / 40) pages of 1 to 40 lines each |
| Listing.HistoryLineNumber | myMatchHistory.ts:15 | the digits before the first `.` of line i read as i + 1 |
| Listing.MatchHistoryReplies | myMatchHistory.ts:4-34 | a failed fetch replies with the error; no matches gives "No matches found."; a joined text of at most 1900 characters is one reply; a longer one is sent in 1800-character chunks, cut greedily as `Chunking.HistoryChunks` states |
| StatsCommand.TrimArray | bots/discord/src/commands/stats.ts:22-25 | nothing for a missing array; otherwise the first `max` elements, none for a negative `max` |
| StatsCommand.DeltaTextCases | bots/discord/src/commands/stats.ts:58 | a change of 0 is shown, `+` marks exactly the positive changes, a missing change shows nothing |
| StatsCommand.MatchLines | bots/discord/src/commands/stats.ts:57-61 | one line per match, line i built from match i |
| StatsCommand.CoinLines | bots/discord/src/commands/stats.ts:68-72 | one line per coin, line i built from coin i |
| StatsCommand.ListsAtMostEight | bots/discord/src/commands/stats.ts:53-64 | at most eight matches and eight coins are listed, the first ones in order |
| StatsCommand.MissingValuesShown | bots/discord/src/commands/stats.ts:50-51 | a missing Elo or rank is shown as a dash, missing wins and losses as 0 |
| StatsCommand.FormatProfile | bots/discord/src/commands/stats.ts:46-74 | the pushed lines joined by newlines equal the profile's lines as `ProfileLines` defines them |
| StatsCommand.PushMatchSection | bots/discord/src/commands/stats.ts:53-62 | a blank line, the heading and the match lines are added, or nothing for no matches |
| StatsCommand.PushCoinSection | bots/discord/src/commands/stats.ts:64-73 | a blank line, the heading and the coin lines are added, or nothing for no coins |
| StatsCommand.SectionAfter | bots/discord/src/commands/stats.ts:54-67 | a section after some lines is nothing for no items, else a blank line, the heading and the items |
| StatsCommand.PushMatchLines | bots/discord/src/commands/stats.ts:57-61 | the loop appends exactly the match lines |
| StatsCommand.PushCoinLines | bots/discord/src/commands/stats.ts:68-72 | the loop appends exactly the coin lines |
| StatsCommand.MatchLinesStep | bots/discord/src/commands/stats.ts:57-60 | one more pass of the loop adds the next match's line |
| StatsCommand.CoinLinesStep | bots/discord/src/commands/stats.ts:68-71 | one more pass of the loop adds the next coin's line |
| StatsCommand.FirstIndex | bots/discord/src/commands/stats.ts:88-91 | the index of the first row that matches: none before it matches, and the row at it does unless it is the end |
| StatsCommand.RankBy | bots/discord/src/commands/stats.ts:87-91 | a rank is the 1-based position of the first matching row; no rank means no row matches |
| StatsCommand.CountToRank | bots/discord/src/commands/stats.ts:87-91 | the counting loop gives the rank `RankBy` defines |
| StatsCommand.FirstIndexAt | bots/discord/src/commands/stats.ts:88-91 | any index with no match before it and a match at it (or the end) is the first index |
| StatsCommand.EloFirstTotalPreorder | bots/discord/src/commands/stats.ts:96 | the Elo comparator is a total preorder, so sorting by it is well defined |
| StatsCommand.RankedUsers | bots/discord/src/commands/stats.ts:95-96 | the fallback ranking throws exactly when one of the users is `null` |
| StatsCommand.RankedUsersSorted | bots/discord/src/commands/stats.ts:95-96 | the fallback ranking is a permutation of the users with an Elo, highest first, an Elo of `Infinity` above every finite one and `-Infinity` below |
| StatsCommand.LadderRankFirstRow | bots/discord/src/commands/stats.ts:86-91 | from a ladder listing, the rank is one more than the index of the first row naming the login |
| StatsCommand.FindLadderRank | bots/discord/src/commands/stats.ts:84-100 | the ladder loop, or the fallback loop, gives the rank `LadderRank` defines |
| StatsCommand.Login | bots/discord/src/commands/stats.ts:145 | the login is lower case |
| StatsCommand.FindLink | bots/discord/src/commands/stats.ts:151 | nothing is found exactly when every link reads without throwing and has another login; a link found is in the list and has the login |
| StatsCommand.FindLinkFirst | bots/discord/src/commands/stats.ts:151 | the link found is the first with the login, when no earlier link throws |
| StatsCommand.FindLinkThrows | bots/discord/src/commands/stats.ts:151 | `find` throws when a link whose login cannot be read comes before every match |
| StatsCommand.BlankLoginIsUsage | bots/discord/src/commands/stats.ts:145-149 | an empty or blank login gets the usage text |
| StatsCommand.LinkedMentionShown | bots/discord/src/commands/stats.ts:151-155 | a link with a Discord id puts `<@id>` in the mention of the profile shown |
| StatsCommand.MentionLine | bots/discord/src/commands/stats.ts:48 | a non-empty mention is the second line of the profile |
| StatsCommand.UnlinkedProfileAsBuilt | bots/discord/src/commands/stats.ts:151-155 | without a link, or with a link lacking a Discord id, the profile is shown as built |
| LastBets.Lookup | state.ts:7-9 | a bet is found exactly when the key is in the map, and it is the stored one |
| LastBets.GetAfterSet | state.ts:4-9 | a get after a set gives the bet back, stamped with the time of the set |
| LastBets.GetAfterClear | state.ts:7-12 | a get after a clear finds nothing |
| LastBets.OtherKeysUnchanged | state.ts:4-12 | a set or a clear on one key leaves every other key's bet as it was |
| LastBets.SetOverwrites | state.ts:4-6 | a second set on a key replaces the first |
| LastBets.LastBetStore.constructor | state.ts:2 | the store starts empty |
| LastBets.LastBetStore.SetLastBet | state.ts:4-6 | the key now maps to the bet stamped with the current time, and nothing else changes |
| LastBets.LastBetStore.GetLastBet | state.ts:7-9 | a bet is returned exactly when the key is stored, and it is the stored one |
| LastBets.LastBetStore.ClearLastBet | state.ts:10-12 | the key is removed and nothing else changes |

## Left out

- The database engine, its transactions and its concurrency. The store is a value, or a class with four table fields. Each route runs alone and to completion, so the read-then-write race in the place route is not modelled.
- Defaults the database schema supplies. The schema is not part of this model. A new row carries the fields each route writes. Scores of a match created by `matches/record` are absent.
- A NaN loser score in `matches/record` is taken to be refused by the database when it is written. The route then answers 500 (`RejectedWrite`), after the user lookup.
- Authentication and the `requireAdmin` and permission checks. The caller is taken to be allowed. The bots' mod and broadcaster flags are inputs.
- The `x-channel-id` header is resolved by the caller into the channel a route works on. The `x-username` header is an input.
- Floating-point arithmetic. Decimal and JavaScript number arithmetic is exact on `real`, including the settlement share `stake / winnersSum * losersSum`.
- The Elo expected score `1 / (1 + 10^(...))` and `Decimal.log10` are function parameters, with the bounds the lemmas require. The floating-point `elo.ts` is not part of this model.
- `_util.ts` adds Prisma `Decimal` stakes with `+=` onto the number `0`; in JavaScript that concatenates strings. The model sums the stakes as numbers.
- Every network call is a parameter holding its answer, or `None` when it throws. This covers the AlphaVantage fetch, StreamElements (`tryPoints`, the Twitch bot's balance check) and the HTTP wrappers of both bots.
- `fetchAllLadder` and its pagination (`ladder.ts:5-48`) are not modelled. `chunkLines` of the same file is.
- The bot bootstraps, tmi and discord.js objects, their loggers and the DEBUG messages. A failed `reply` or `send` is not modelled either.
- File reads and writes, `process.env` and `path.basename` are not modelled. The parsed files, the environment map and the directory tree are parameters, and a write is the text it would write.
- `Buffer` base64 decoding and `JSON.parse` are the parameter `parse`. The model keeps the base64url alphabet translation and the padding (section 5 of RFC 4648), and the three-part split of a compact JWS (section 7.1 of RFC 7515).
- Text is a sequence of Unicode characters, where JavaScript counts UTF-16 code units. Case folding and `trim` cover ASCII only.
- Chunking.ChunkLines: a character outside the Basic Multilingual Plane (an emoji) counts once towards the limit, where JavaScript's `length` counts it twice, so such text is cut later than the source cuts it.
- Chunking.ChunkAndSend: counts lengths the same way; the ladder title's trophy emoji is one character in the model.
- Chunking.HistoryChunks: the same for the 1800-character limit.
- Listing.SendChunks: the same for the 1900-character limit less the header.
- Listing.MatchHistoryReplies: the same for the 1900-character single-reply test.
- Help.HelpCommand: the same for its 1900-character chunks.
- `localeCompare` is taken to be code-unit order.
- JavaScript's text for a fractional number is the parameter `fracText`, and `toLocaleString("en-US")` is a parameter too. Integers are written out in decimal.
- `Common.StrToNumber`: exponent (`1e3`) and hexadecimal (`0x10`) literals give NaN in the model, where JavaScript gives their value. Arrays and objects converted with `Number()` also give NaN.
- `TwitchBot.ParseIntStrict` returns the exact integer where JavaScript rounds to the nearest double once the value exceeds 2^53.
- `-0` is not told apart from `0`.
- JSON values are plain. Prototype keys such as `__proto__` and non-string usernames in the bot files are not modelled.
- BetRoutes.UsernameSource: the body's `username` is a string or absent in the model. The routes turn a truthy non-string value into text with `.toString()` (`42` becomes `"42"`); the model cannot express such a request.
- MatchRoutes.OpenEffect: `p1`, `p2` and `channelId` are strings or absent in the model. A number or a boolean there is turned into text by `.toString()` in the route; the model cannot express such a request.
- Settlement.SettleCurrent: takes the parsed `winner` and `loserScore` of the body. The route reads the body with `await req.json()` and no `catch` (app/api/matches/current/record/route.ts:11), so a body that is not JSON, or the JSON `null`, throws before any validation: the route answers 500 and writes nothing. The model cannot express such a request.
- Store.Store.SettleCurrent: the same; its request is always a parsed body.
- PairRecord.RecordValidated: `channelId` and `openedBy` are strings or absent. The route's defaults apply only to an absent field, so an explicit `null` stays `null`; the model cannot express that. A body that is not JSON gets 400 `invalid json`, which the model does not produce: its request is always a parsed body.
- `encodeURIComponent` is not modelled. A StreamElements request is the pair of channel and user it names, unencoded.
- The `â€”` text in the Twitch bot's top-ten lines is kept as the source spells it.
- StatsCommand.RankedUsersSorted: an Elo that converts to NaN (the text `abc`, say) is taken as 0. In JavaScript every comparison with it returns NaN, which `sort` reads as equal, so the comparator is inconsistent and the order is not specified. An Elo of `Infinity` or `-Infinity` is modelled as it sorts.
- What `buildProfile` gathers apart from the rank (the user, match and wallet fetches and the coin metadata) is not modelled. `StatsCommand.StatsReply` takes the built profile as a parameter.
- `readLinks` in `stats.ts` and the other link-file reads are parameters. A read that fails is an empty list.
- The myMatchHistory fetches are one parameter holding the answer: first `?discordId=` with the author's id and, when that call rejects, `?user=` with the author's username. `data.matches ?? []` is taken as already applied to that answer.
- `ChatCommands.ShowWallet` and `ChatCommands.ShowStats` are modelled as reply texts but carry no contract. They are one API call followed by a template string.
- The wallet table of `economy.ts` is a parameter. `Economy.Circulation` computes the `_sum.balance` of the coin's wallets from it (economy.ts:35-36), 0 when there are none, in place of Prisma's aggregate query.
- `Chunking.ChunkAndSend` is not bounded in length. A buffer holding only white space is never sent and never reset, so it keeps growing; its contract states the order and the white-space rule only.

## Findings

| source | as written | input that shows it | evidently intended | confidence | as-written member | corrected member |
|---|---|---|---|---|---|---|
| commands.ts:18-51 | each handler's promise is returned from inside `try` without `await`, so a rejection bypasses the `catch` and no `Error: ...` reply is sent | `!cancelbet` while the refund API call rejects | `return await handler(...)`, so that every thrown error is answered with `Error: ...` | not executed | ChatCommands.HandleCommandAsWritten, ChatCommands.CancelBetErrorEscapes | ChatCommands.HandleCommand |
