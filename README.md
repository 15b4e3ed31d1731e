# WheelBot round and betting ledger, in Dafny

WheelBot runs one global betting game in 30-second rounds. Players bet on
a multiplier label (`x2`, `x3`, `x5`, `x50`). A scheduler closes the
current round every period with a drawn label, and the next read or bet
opens a new round. This project models the ledger behind that game
(`db.py`) and the countdown and scheduler step of the HTTP backend
(`server.py`), and proves properties of the model.

- `wrappers.dfy`, module `Wrappers`: `Option`, for the nullable columns
  and for "no row".
- `db.dfy`, module `Db`: the `users`, `rounds` and `bets` tables.
  - The row datatypes and the pure queries over the tables (latest open
    round, the bets of a round newest first, closed rounds newest first).
  - The table updates of the SQL statements (`Credit`, `Close`).
  - The invariant `Inv` and the lemmas that each operation keeps it.
  - A class `Store` holding the tables and the two AUTOINCREMENT
    counters. One method or function per db.py operation.
- `server.dfy`, module `Server`: `ROUND_SECONDS`, `MULTS`, Python's `%`,
  `seconds_left`, the `/api/round` response, one scheduler tick, and two
  client scenarios.

The tables are held in memory. `rounds` and `bets` are sequences in
insertion order; with AUTOINCREMENT ids that is ascending id order, so
`ORDER BY id DESC` reads a table back to front. `users` is a map from
`tg_id`. Ids come from counters that start at 1 and only grow. Every
clock reading is a parameter (`now`).

The store invariant (`Db.Inv`, as `Store.Valid()`) says:
- round and bet ids ascend and stay below their counters;
- only the newest round may be open, so at most one round is open;
- `ended_at` is set exactly on closed rounds;
- every round's `bank` equals the sum of the amounts of the bets that
  name it (`BankMatches`);
- every bet names an existing round.

The constructor establishes the invariant and every mutating method keeps
it.

One consequence of following the code:
`get_current_round_state` calls `get_or_create_open_round`. So reading the
round state inserts a round when none is open. `CurrentRoundState` and
`ApiRound` are therefore methods that may change `rounds`, not pure reads.

## Model

| member | source | states |
|---|---|---|
| `Db.LatestOpen` | db.py:45 | None exactly when no round has a NULL result; otherwise an open round of the table whose id is at least that of every open round when ids ascend |
| `Db.OnlyNewestOpenIsAtMostOne` | db.py:44-50 | the kept form of the one-open-round rule implies that no two rounds are open |
| `Db.ClosedNewestFirst` | db.py:82 | contains exactly the rounds with a non-NULL result |
| `Db.ClosedNewestFirstDescending` | db.py:82 | on an id-ascending table the closed rounds come in strictly decreasing id order |
| `Db.PrependRoundDescending` | db.py:82 | a round whose id exceeds all others, put in front of a descending list, keeps it descending |
| `Db.Opened` | db.py:44-50 | afterwards a round is open; if one was open the table is unchanged, otherwise the old rows are kept and the new row (next id, NULL result, bank 0, `started_at` = now, NULL `ended_at`) is the latest open round |
| `Db.Credit` | db.py:67 | rows with the given id get `bank + amount`; every other row and the table length are unchanged |
| `Db.Close` | db.py:78 | rows with the given id get the result and `ended_at`; every other row and the table length are unchanged |
| `Db.BetsOf` | db.py:72 | contains exactly the bets whose `round_id` is the given round |
| `Db.BetsOfDescending` | db.py:72 | on an id-ascending bets table a round's bets come in strictly decreasing id order |
| `Db.PrependBetDescending` | db.py:72 | a bet whose id exceeds all others, put in front of a descending list, keeps it descending |
| `Db.Players` | db.py:72 | one entry per bet of the round, in the same (newest-first) order, each carrying that bet's name, amount and mult |
| `Db.PlayersAreBetsOfRound` | db.py:72 | every player comes from a bet placed in the round, and every bet placed in the round appears as a player |
| `Db.BetsOfAppend` | db.py:65-66 | inserting a bet puts it first in its own round's list and leaves every other round's list unchanged |
| `Db.NewestBetFirst` | db.py:63-72 | right after a bet is inserted, the first entry of its round's players is that bet's (name, amount, mult) |
| `Db.BetTotalAppend` | db.py:65-67 | inserting a bet raises its own round's bet total by its amount and no other total |
| `Db.BetTotalIsSumOfBetsOf` | db.py:70-73 | a round's bet total equals the sum of the amounts in its players list |
| `Db.BankMatchesAfterBet` | db.py:63-68 | inserting a bet and crediting its amount to its round together keep every bank equal to its bets' sum |
| `Db.NoBetsNoTotal` | db.py:48 | a round that no bet names has total 0, matching the inserted `bank = 0` |
| `Db.OpenedIdempotent` | db.py:44-50 | after find-or-create a round is open, and a second find-or-create leaves the rounds table unchanged |
| `Db.OpenedHasOneOpen` | db.py:44-50 | after find-or-create exactly one round is open; it is the old open round if there was one, else the new round `(next id, NULL, 0, ts, NULL)` whose id exceeds every existing id |
| `Db.CloseLeavesNoneOpen` | db.py:75-79 | with at most one open round, closing the latest open round leaves no round open |
| `Db.CreditKeepsLatestOpen` | db.py:67 | crediting a bank does not change whether a round is open, nor which one |
| `Db.AppendRoundWellFormed` | db.py:48 | inserting an open round with the counter's id when none is open keeps ids ascending and only the newest round open |
| `Db.AppendRoundKeepsBets` | db.py:48 | inserting a round with an empty bank and a fresh id keeps every bank matching and every bet's round present |
| `Db.OpenedKeepsInv` | db.py:44-50 | find-or-create keeps the store invariant; the counter grows by one exactly when a round is inserted |
| `Db.SameIdsKeepReferences` | db.py:30 | an update that keeps every round id in place keeps every bet's round present |
| `Db.CreditKeepsWellFormed` | db.py:67 | crediting a bank keeps the ids, results and end times of all rounds |
| `Db.AppendBetWellFormed` | db.py:65-66 | inserting a bet with the counter's id keeps bet ids ascending and below the grown counter |
| `Db.BetKeepsInv` | db.py:63-68 | a bet on the open round, with the bank credit, keeps the store invariant |
| `Db.CloseKeepsBanks` | db.py:78 | closing a round keeps every bank and every id |
| `Db.CloseKeepsInv` | db.py:75-79 | closing the open round keeps the store invariant |
| `Db.Store.constructor` | db.py:7-33 | a just-initialised database has empty tables and both counters at 1, and satisfies the invariant |
| `Db.Store.GetOrCreateOpenRound` | db.py:44-50 | returns the open round and changes nothing if one is open; otherwise inserts exactly one round with NULL result, bank 0 and `started_at = now`, whose id exceeds every existing id, and returns it; afterwards exactly one round is open |
| `Db.Store.AddUserIfNeeded` | db.py:52-54 | a known id keeps its name and balance; an unknown id is inserted with `startBalance`, 1000 by default |
| `Db.Store.GetBalance` | db.py:56-58 | the stored balance, or `default` (1000) for an unknown id; a read-only function, so no row is created |
| `Db.Store.ChangeBalance` | db.py:60-61 | a known id's balance becomes `balance + delta` with no lower bound; an unknown id changes nothing |
| `Db.Store.RecordBet` | db.py:65-67 | inserts exactly one bet with the next bet id and adds its amount to that round's bank only; the round stays the open one and the bet heads its players list |
| `Db.Store.PlaceBet` | db.py:63-68 | returns the id of the round that find-or-create yields, adds exactly one bet with the given fields to it, raises that round's bank by `amount`, changes no other round, advances the round id counter exactly when a round was created, and keeps the invariant; the bet is the first player of the round |
| `Db.Store.CurrentRoundState` | db.py:70-73 | returns the open round's id, bank and `started_at`, with players being only that round's bets in descending bet id; the round id counter advances exactly when a round was created; the bank equals the sum of the listed amounts |
| `Db.Store.FinalizeRound` | db.py:75-79 | with no round open it returns None and changes nothing; otherwise it sets result and `ended_at` on the highest-id open round only and returns its id; no round is open afterwards |
| `Db.Store.History` | db.py:81-82 | at most `limit` closed rounds of the table in strictly decreasing id order; any closed round left out is older than every one returned, and one is left out only when `limit` entries are returned |
| `Server.PyMod` | server.py:30 | Python's `%`: for a positive divisor the remainder is in `0..b-1`, for a negative one in `b+1..0`, and `a - r` is a multiple of `b` |
| `Server.SecondsLeft` | server.py:30 | for all integers `now` and `started_at` the countdown is in `1..30`, and it is 30 exactly when `now - started_at` is a multiple of 30 |
| `Server.SecondsLeftPeriodic` | server.py:30 | shifting `now` by any whole number of periods does not change the countdown |
| `Server.SecondsLeftAfter45` | server.py:30 | a round started at T and viewed at T + 45 has 15 seconds left |
| `Server.View` | server.py:31 | the response carries the round id, bank, players and `started_at` of the state unchanged, `round_seconds == 30` and a countdown in `1..30` |
| `Server.ApiRound` | server.py:26-31 | the response is the open round (created if none was open, which alone advances the round id counter) with its players, and the countdown at the later clock reading |
| `Server.ResultsDrawnAfterOpenAndCredit` | db.py:48 | inserting a round and crediting a bank never set a result, so every result stays a label of `MULTS` |
| `Server.ResultsDrawnAfterClose` | server.py:42-43 | closing a round with a label of `MULTS` keeps every result a label of `MULTS` |
| `Server.SchedulerTick` | server.py:40-43 | the drawn label is one of `MULTS`; the tick closes the open round with it, or returns None and changes nothing when none is open; every closed round's result stays in `MULTS` |
| `Server.CloseOnFreshStore` | db.py:75-77 | closing on a just-initialised database returns None |
| `Server.BetCloseBet` | db.py:44-79 | with no round open, a bet opens round `n` (the next id), closing reports `n`, and the next bet opens round `n + 1` |
| `Server.FirstTwoRounds` | db.py:15-21 | on a fresh database the first two rounds get ids 1 and 2 |
| `Server.BetThenRound` | db.py:63-73 | a bet placed and then the round read back: the round is the bet's round, its first player is the bet, and its bank is the sum of its players' amounts |

## Left out

- Connection and schema plumbing (`get_conn`, `PRAGMA journal_mode=WAL`, `commit`, the `meta` table): I/O and persistence. The constructor stands for a freshly initialised database.
- `time.time()`: every operation takes its clock reading as `now`. `place_bet` reads the clock twice, in `get_or_create_open_round` and for `created_at`; `PlaceBet` uses one value for both. `ApiRound` keeps the two readings of `api_round` apart.
- The weighted draw `random.choices(MULTS, weights=WEIGHTS)` and `WEIGHTS`: floating point and randomness. `SchedulerTick` picks an arbitrary label of `MULTS`, so label frequencies are not modelled.
- The async `scheduler` loop, `asyncio.sleep` and `create_task`: concurrency and timing. `SchedulerTick` is the body of one iteration.
- Interleavings between bets, reads and closes: the code relies on SQLite's locking for these. Operations are atomic sequential steps here.
- FastAPI routing, CORS middleware and JSON encoding: transport. `api_history` only forwards to `history`, which `Store.History` models.
- A negative `limit` for `history`, which SQLite treats as "no limit": `limit` is a `nat`.
- The `tg_id` foreign key of `bets`: SQLite leaves it unenforced without `PRAGMA foreign_keys`, and `place_bet` does not check the user. The model puts no constraint between bets and users.
- Integer widths: SQLite INTEGER is 64-bit, but ids, amounts and balances are unbounded integers here, so overflow is not modelled.
- Payout and settlement of bets: the code has none.
