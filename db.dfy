/**
  The WheelBot ledger: three SQLite tables (users, rounds, bets) and the
  queries and updates of db.py over them, as sequential steps on in-memory
  tables.

  The rounds and bets tables are sequences kept in insertion order; since
  both use AUTOINCREMENT ids, insertion order is id order, and every
  `ORDER BY id DESC` query of the source reads a table back to front.
*/
module Db {
  import opened Wrappers

  /** The SCHEMA default balance, also the default of add_user_if_needed and get_balance. */
  const DEFAULT_BALANCE: int := 1000

  /** A row of `users`, keyed by tg_id in the table map. */
  datatype User = User(name: string, balance: int)

  /** A row of `rounds`; `result` and `endedAt` are the nullable columns. */
  datatype Round = Round(id: nat, result: Option<string>, bank: int, startedAt: int, endedAt: Option<int>)
  {
    /** A round is open while its result is NULL. */
    predicate IsOpen() { result.None? }
  }

  /** A row of `bets`; the name is a copy of the user's name at bet time. */
  datatype Bet = Bet(id: nat, roundId: nat, tgId: int, name: string, amount: int, mult: string, createdAt: int)

  /** The (name, amount, mult) projection that the round state lists. */
  datatype Player = Player(name: string, amount: int, mult: string)

  /** The dictionary returned by get_current_round_state. */
  datatype RoundState = RoundState(roundId: nat, bank: int, players: seq<Player>, startedAt: int)

  // ---------------------------------------------------------------------
  // Orderings of the two id-keyed tables

  predicate RoundIdsAscending(rs: seq<Round>) {
    forall i, j :: 0 <= i < j < |rs| ==> rs[i].id < rs[j].id
  }

  predicate RoundIdsDescending(rs: seq<Round>) {
    forall i, j :: 0 <= i < j < |rs| ==> rs[i].id > rs[j].id
  }

  predicate BetIdsAscending(bs: seq<Bet>) {
    forall i, j :: 0 <= i < j < |bs| ==> bs[i].id < bs[j].id
  }

  predicate BetIdsDescending(bs: seq<Bet>) {
    forall i, j :: 0 <= i < j < |bs| ==> bs[i].id > bs[j].id
  }

  // ---------------------------------------------------------------------
  // Queries over the rounds table

  /**
    `SELECT * FROM rounds WHERE result IS NULL ORDER BY id DESC LIMIT 1`:
    the open round met last, which is the open round with the highest id.
  */
  function LatestOpen(rs: seq<Round>): (r: Option<Round>)
    ensures r.None? <==> forall i :: 0 <= i < |rs| ==> !rs[i].IsOpen()
    ensures r.Some? ==> r.value in rs && r.value.IsOpen()
    ensures r.Some? && RoundIdsAscending(rs) ==>
      forall i :: 0 <= i < |rs| && rs[i].IsOpen() ==> rs[i].id <= r.value.id
  {
    if rs == [] then None
    else if rs[|rs| - 1].IsOpen() then Some(rs[|rs| - 1])
    else LatestOpen(rs[..|rs| - 1])
  }

  /** At most one round has a NULL result. */
  predicate AtMostOneOpen(rs: seq<Round>) {
    forall i, j :: 0 <= i < |rs| && 0 <= j < |rs| && rs[i].IsOpen() && rs[j].IsOpen() ==> i == j
  }

  /** Only the newest round may be open: the form in which the ledger keeps the one-open-round rule. */
  predicate OnlyNewestOpen(rs: seq<Round>) {
    forall i :: 0 <= i < |rs| - 1 ==> !rs[i].IsOpen()
  }

  /** The kept form implies the rule as stated: no two rounds are open at once. */
  lemma OnlyNewestOpenIsAtMostOne(rs: seq<Round>)
    requires OnlyNewestOpen(rs)
    ensures AtMostOneOpen(rs)
  {
  }

  /**
    `SELECT ... FROM rounds WHERE result IS NOT NULL ORDER BY id DESC`:
    the closed rounds, newest first.
  */
  function ClosedNewestFirst(rs: seq<Round>): (r: seq<Round>)
    ensures forall x :: x in r <==> x in rs && !x.IsOpen()
  {
    if rs == [] then []
    else
      var last := rs[|rs| - 1];
      var rest := ClosedNewestFirst(rs[..|rs| - 1]);
      assert rs == rs[..|rs| - 1] + [last];
      if last.IsOpen() then rest else [last] + rest
  }

  /** Read back to front, an id-ascending table gives its closed rounds in descending id order. */
  lemma {:induction false} ClosedNewestFirstDescending(rs: seq<Round>)
    requires RoundIdsAscending(rs)
    ensures RoundIdsDescending(ClosedNewestFirst(rs))
  {
    if rs != [] {
      var n := |rs| - 1;
      var rest := ClosedNewestFirst(rs[..n]);
      ClosedNewestFirstDescending(rs[..n]);
      if !rs[n].IsOpen() {
        forall x | x in rest ensures x.id < rs[n].id {
          var k :| 0 <= k < n && rs[..n][k] == x;
        }
        PrependRoundDescending(rs[n], rest);
      }
    }
  }

  /** Putting a round with a higher id than all others in front keeps a list descending. */
  lemma PrependRoundDescending(x: Round, rest: seq<Round>)
    requires RoundIdsDescending(rest)
    requires forall y :: y in rest ==> y.id < x.id
    ensures RoundIdsDescending([x] + rest)
  {
    var r := [x] + rest;
    forall i, j | 0 <= i < j < |r| ensures r[i].id > r[j].id {
      assert r[j] == rest[j - 1];
      if i > 0 {
        assert r[i] == rest[i - 1];
      }
    }
  }


  /** The rounds table after get_or_create_open_round: unchanged if a round is open, else one open round appended. */
  function Opened(rs: seq<Round>, nextId: nat, now: int): (r: seq<Round>)
    ensures LatestOpen(r).Some?
    ensures LatestOpen(rs).Some? ==> r == rs
    ensures LatestOpen(rs).None? ==>
      |r| == |rs| + 1 && r[..|rs|] == rs && LatestOpen(r) == Some(Round(nextId, None, 0, now, None))
  {
    if LatestOpen(rs).Some? then rs else rs + [Round(nextId, None, 0, now, None)]
  }

  /** `UPDATE rounds SET bank = bank + ? WHERE id = ?`: the round with this id gains `amount`, every other row is unchanged. */
  function Credit(rs: seq<Round>, id: nat, amount: int): (r: seq<Round>)
    ensures |r| == |rs|
    ensures forall i :: 0 <= i < |rs| ==>
      r[i] == if rs[i].id == id then rs[i].(bank := rs[i].bank + amount) else rs[i]
  {
    seq(|rs|, i requires 0 <= i < |rs| =>
      if rs[i].id == id then rs[i].(bank := rs[i].bank + amount) else rs[i])
  }

  /** `UPDATE rounds SET result = ?, ended_at = ? WHERE id = ?`: the round with this id gets its result and end time, every other row is unchanged. */
  function Close(rs: seq<Round>, id: nat, result: string, ended: int): (r: seq<Round>)
    ensures |r| == |rs|
    ensures forall i :: 0 <= i < |rs| ==>
      r[i] == if rs[i].id == id then rs[i].(result := Some(result), endedAt := Some(ended)) else rs[i]
  {
    seq(|rs|, i requires 0 <= i < |rs| =>
      if rs[i].id == id then rs[i].(result := Some(result), endedAt := Some(ended)) else rs[i])
  }

  // ---------------------------------------------------------------------
  // Queries over the bets table

  /** `SELECT ... FROM bets WHERE round_id = rid ORDER BY id DESC`: the bets of one round, newest first. */
  function BetsOf(bs: seq<Bet>, rid: nat): (r: seq<Bet>)
    ensures forall b :: b in r <==> b in bs && b.roundId == rid
  {
    if bs == [] then []
    else
      var last := bs[|bs| - 1];
      var rest := BetsOf(bs[..|bs| - 1], rid);
      assert bs == bs[..|bs| - 1] + [last];
      if last.roundId == rid then [last] + rest else rest
  }

  /** Read back to front, an id-ascending bets table gives each round's bets in descending id order. */
  lemma {:induction false} BetsOfDescending(bs: seq<Bet>, rid: nat)
    requires BetIdsAscending(bs)
    ensures BetIdsDescending(BetsOf(bs, rid))
  {
    if bs != [] {
      var n := |bs| - 1;
      var rest := BetsOf(bs[..n], rid);
      BetsOfDescending(bs[..n], rid);
      if bs[n].roundId == rid {
        forall x | x in rest ensures x.id < bs[n].id {
          var k :| 0 <= k < n && bs[..n][k] == x;
        }
        PrependBetDescending(bs[n], rest);
      }
    }
  }

  /** Putting a bet with a higher id than all others in front keeps a list descending. */
  lemma PrependBetDescending(x: Bet, rest: seq<Bet>)
    requires BetIdsDescending(rest)
    requires forall y :: y in rest ==> y.id < x.id
    ensures BetIdsDescending([x] + rest)
  {
    var r := [x] + rest;
    forall i, j | 0 <= i < j < |r| ensures r[i].id > r[j].id {
      assert r[j] == rest[j - 1];
      if i > 0 {
        assert r[i] == rest[i - 1];
      }
    }
  }


  /** The sum of the amounts of a list of bets. */
  function SumAmounts(bs: seq<Bet>): int {
    if bs == [] then 0 else bs[0].amount + SumAmounts(bs[1..])
  }

  function PlayerOf(b: Bet): Player {
    Player(b.name, b.amount, b.mult)
  }

  /** The `players` list of the round state: name, amount and mult of the round's bets, newest first. */
  function Players(bs: seq<Bet>, rid: nat): (r: seq<Player>)
    ensures |r| == |BetsOf(bs, rid)|
    ensures forall i :: 0 <= i < |r| ==>
      r[i].name == BetsOf(bs, rid)[i].name && r[i].amount == BetsOf(bs, rid)[i].amount
      && r[i].mult == BetsOf(bs, rid)[i].mult
  {
    var rows := BetsOf(bs, rid);
    seq(|rows|, i requires 0 <= i < |rows| => PlayerOf(rows[i]))
  }

  /** A round's players are exactly the (name, amount, mult) triples of the bets placed in it. */
  lemma PlayersAreBetsOfRound(bs: seq<Bet>, rid: nat)
    ensures forall p :: p in Players(bs, rid) ==> exists b :: b in bs && b.roundId == rid && p == PlayerOf(b)
    ensures forall b :: b in bs && b.roundId == rid ==> PlayerOf(b) in Players(bs, rid)
  {
    var rows := BetsOf(bs, rid);
    var r := Players(bs, rid);
    forall p | p in r ensures exists b :: b in bs && b.roundId == rid && p == PlayerOf(b) {
      var i :| 0 <= i < |r| && r[i] == p;
      assert rows[i] in rows;
    }
    forall b | b in bs && b.roundId == rid ensures PlayerOf(b) in r {
      var i :| 0 <= i < |rows| && rows[i] == b;
      assert r[i] == PlayerOf(b);
    }
  }

  /** The sum of the amounts of the bets whose round_id is `rid`. */
  function BetTotal(bs: seq<Bet>, rid: nat): int {
    if bs == [] then 0
    else
      var last := bs[|bs| - 1];
      BetTotal(bs[..|bs| - 1], rid) + (if last.roundId == rid then last.amount else 0)
  }

  /** Every round's bank is the sum of the amounts of the bets that reference it. */
  predicate BankMatches(rs: seq<Round>, bs: seq<Bet>) {
    forall i :: 0 <= i < |rs| ==> rs[i].bank == BetTotal(bs, rs[i].id)
  }

  predicate HasRound(rs: seq<Round>, id: nat) {
    exists i :: 0 <= i < |rs| && rs[i].id == id
  }

  /** The rounds table: ids ascending below the counter, at most one open round, `ended_at` set exactly on closed rounds. */
  predicate RoundsWellFormed(rs: seq<Round>, nextRoundId: nat) {
    && 1 <= nextRoundId
    && RoundIdsAscending(rs)
    && (forall i :: 0 <= i < |rs| ==> 1 <= rs[i].id < nextRoundId)
    && OnlyNewestOpen(rs)
    && (forall i :: 0 <= i < |rs| ==> (rs[i].IsOpen() <==> rs[i].endedAt.None?))
  }

  /** The bets table: ids ascending below the counter. */
  predicate BetsWellFormed(bs: seq<Bet>, nextBetId: nat) {
    && 1 <= nextBetId
    && BetIdsAscending(bs)
    && (forall j :: 0 <= j < |bs| ==> 1 <= bs[j].id < nextBetId)
  }

  /** Every bet references a round that exists. */
  predicate BetsReferenceRounds(rs: seq<Round>, bs: seq<Bet>) {
    forall j :: 0 <= j < |bs| ==> HasRound(rs, bs[j].roundId)
  }

  /** What the operations of db.py keep true of the rounds and bets tables. */
  predicate Inv(rs: seq<Round>, bs: seq<Bet>, nextRoundId: nat, nextBetId: nat) {
    && RoundsWellFormed(rs, nextRoundId)
    && BetsWellFormed(bs, nextBetId)
    && BankMatches(rs, bs)
    && BetsReferenceRounds(rs, bs)
  }

  // ---------------------------------------------------------------------
  // Lemmas about the tables

  /** Inserting a bet puts it at the head of its round's newest-first list and leaves every other round's list alone. */
  lemma BetsOfAppend(bs: seq<Bet>, b: Bet, rid: nat)
    ensures BetsOf(bs + [b], rid) == if b.roundId == rid then [b] + BetsOf(bs, rid) else BetsOf(bs, rid)
  {
    assert (bs + [b])[..|bs|] == bs;
  }

  /** Immediately after a bet is inserted it is the first entry of its round's list. */
  lemma NewestBetFirst(bs: seq<Bet>, b: Bet)
    ensures |BetsOf(bs + [b], b.roundId)| > 0
    ensures BetsOf(bs + [b], b.roundId)[0] == b
    ensures Players(bs + [b], b.roundId)[0] == Player(b.name, b.amount, b.mult)
  {
    BetsOfAppend(bs, b, b.roundId);
  }

  /** Inserting a bet adds its amount to its own round's total and to no other. */
  lemma BetTotalAppend(bs: seq<Bet>, b: Bet, rid: nat)
    ensures BetTotal(bs + [b], rid) == BetTotal(bs, rid) + (if b.roundId == rid then b.amount else 0)
  {
    assert (bs + [b])[..|bs|] == bs;
  }

  /** The bank total is the sum of the amounts in the round's newest-first bet list. */
  lemma {:induction false} BetTotalIsSumOfBetsOf(bs: seq<Bet>, rid: nat)
    ensures BetTotal(bs, rid) == SumAmounts(BetsOf(bs, rid))
  {
    if bs != [] {
      var n := |bs| - 1;
      BetTotalIsSumOfBetsOf(bs[..n], rid);
      if bs[n].roundId == rid {
        assert ([bs[n]] + BetsOf(bs[..n], rid))[1..] == BetsOf(bs[..n], rid);
      }
    }
  }

  /** place_bet's two writes together keep every bank equal to its bets' sum. */
  lemma BankMatchesAfterBet(rs: seq<Round>, bs: seq<Bet>, b: Bet)
    requires BankMatches(rs, bs)
    ensures BankMatches(Credit(rs, b.roundId, b.amount), bs + [b])
  {
    var rs' := Credit(rs, b.roundId, b.amount);
    forall i | 0 <= i < |rs'|
      ensures rs'[i].bank == BetTotal(bs + [b], rs'[i].id)
    {
      BetTotalAppend(bs, b, rs[i].id);
    }
  }

  /** A round that no bet references has a zero total. */
  lemma {:induction false} NoBetsNoTotal(bs: seq<Bet>, rid: nat)
    requires forall j :: 0 <= j < |bs| ==> bs[j].roundId != rid
    ensures BetTotal(bs, rid) == 0
  {
    if bs != [] {
      NoBetsNoTotal(bs[..|bs| - 1], rid);
    }
  }

  /** Once a round is open, find-or-create changes nothing on a second call. */
  lemma OpenedIdempotent(rs: seq<Round>, nextId: nat, nextId': nat, now: int, now': int)
    ensures LatestOpen(Opened(rs, nextId, now)).Some?
    ensures Opened(Opened(rs, nextId, now), nextId', now') == Opened(rs, nextId, now)
  {
    if LatestOpen(rs).None? {
      var r := rs + [Round(nextId, None, 0, now, None)];
      assert r[|r| - 1].IsOpen();
    }
  }

  /** Closing the open round of a table with at most one open round leaves none open. */
  lemma CloseLeavesNoneOpen(rs: seq<Round>, result: string, ended: int)
    requires AtMostOneOpen(rs)
    requires LatestOpen(rs).Some?
    ensures forall i :: 0 <= i < |rs| ==> !Close(rs, LatestOpen(rs).value.id, result, ended)[i].IsOpen()
  {
    var open := LatestOpen(rs).value;
    var k :| 0 <= k < |rs| && rs[k] == open;
    forall i | 0 <= i < |rs|
      ensures !Close(rs, open.id, result, ended)[i].IsOpen()
    {
      if rs[i].IsOpen() {
        assert i == k;
      }
    }
  }

  /** Crediting a bank does not change which round is open. */
  lemma {:induction false} CreditKeepsLatestOpen(rs: seq<Round>, id: nat, amount: int)
    ensures LatestOpen(Credit(rs, id, amount)).Some? <==> LatestOpen(rs).Some?
    ensures LatestOpen(rs).Some? ==> LatestOpen(Credit(rs, id, amount)).value.id == LatestOpen(rs).value.id
  {
    if rs != [] {
      var n := |rs| - 1;
      assert Credit(rs, id, amount)[..n] == Credit(rs[..n], id, amount);
      CreditKeepsLatestOpen(rs[..n], id, amount);
    }
  }

  /** Appending an open round with the counter's id, when none is open, keeps the rounds table well formed. */
  lemma AppendRoundWellFormed(rs: seq<Round>, nextRoundId: nat, now: int)
    requires RoundsWellFormed(rs, nextRoundId) && LatestOpen(rs).None?
    ensures RoundsWellFormed(rs + [Round(nextRoundId, None, 0, now, None)], nextRoundId + 1)
  {
  }

  /** Appending a round that no bet references, with an empty bank, keeps banks and references right. */
  lemma AppendRoundKeepsBets(rs: seq<Round>, bs: seq<Bet>, nextRoundId: nat, now: int)
    requires BankMatches(rs, bs) && BetsReferenceRounds(rs, bs)
    requires forall i :: 0 <= i < |rs| ==> rs[i].id < nextRoundId
    ensures var rs' := rs + [Round(nextRoundId, None, 0, now, None)];
      BankMatches(rs', bs) && BetsReferenceRounds(rs', bs)
  {
    var rs' := rs + [Round(nextRoundId, None, 0, now, None)];
    forall j | 0 <= j < |bs|
      ensures bs[j].roundId != nextRoundId && HasRound(rs', bs[j].roundId)
    {
      var i :| 0 <= i < |rs| && rs[i].id == bs[j].roundId;
      assert rs'[i].id == bs[j].roundId;
    }
    NoBetsNoTotal(bs, nextRoundId);
    assert forall i :: 0 <= i < |rs| ==> rs'[i] == rs[i];
  }

  /** get_or_create_open_round keeps the invariant; the counter grows exactly when a round is inserted. */
  lemma OpenedKeepsInv(rs: seq<Round>, bs: seq<Bet>, nextRoundId: nat, nextBetId: nat, now: int)
    requires Inv(rs, bs, nextRoundId, nextBetId)
    ensures Inv(Opened(rs, nextRoundId, now), bs,
                if LatestOpen(rs).Some? then nextRoundId else nextRoundId + 1, nextBetId)
  {
    if LatestOpen(rs).None? {
      AppendRoundWellFormed(rs, nextRoundId, now);
      AppendRoundKeepsBets(rs, bs, nextRoundId, now);
    }
  }

  /** Two round tables with the same ids in the same places. */
  predicate SameIds(rs: seq<Round>, rs': seq<Round>) {
    |rs| == |rs'| && forall i :: 0 <= i < |rs| ==> rs[i].id == rs'[i].id
  }

  /** Updates that keep the ids keep every bet's reference valid. */
  lemma SameIdsKeepReferences(rs: seq<Round>, rs': seq<Round>, bs: seq<Bet>)
    requires SameIds(rs, rs') && BetsReferenceRounds(rs, bs)
    ensures BetsReferenceRounds(rs', bs)
  {
    forall j | 0 <= j < |bs|
      ensures HasRound(rs', bs[j].roundId)
    {
      var i :| 0 <= i < |rs| && rs[i].id == bs[j].roundId;
      assert rs'[i].id == bs[j].roundId;
    }
  }

  /** Crediting a bank keeps the shape of the rounds table. */
  lemma CreditKeepsWellFormed(rs: seq<Round>, nextRoundId: nat, id: nat, amount: int)
    requires RoundsWellFormed(rs, nextRoundId)
    ensures RoundsWellFormed(Credit(rs, id, amount), nextRoundId)
    ensures SameIds(rs, Credit(rs, id, amount))
  {
    var rs' := Credit(rs, id, amount);
    assert forall i :: 0 <= i < |rs| ==> rs'[i].id == rs[i].id && rs'[i].result == rs[i].result && rs'[i].endedAt == rs[i].endedAt;
  }

  /** Inserting a bet whose id is the counter keeps the bets table well formed. */
  lemma AppendBetWellFormed(bs: seq<Bet>, nextBetId: nat, b: Bet)
    requires BetsWellFormed(bs, nextBetId) && b.id == nextBetId
    ensures BetsWellFormed(bs + [b], nextBetId + 1)
  {
  }

  /** After find-or-create exactly one round is open, and a newly inserted one has the highest id. */
  lemma OpenedHasOneOpen(rs: seq<Round>, nextRoundId: nat, now: int)
    requires RoundsWellFormed(rs, nextRoundId)
    ensures LatestOpen(Opened(rs, nextRoundId, now)).Some?
    ensures var rs' := Opened(rs, nextRoundId, now);
      forall i :: 0 <= i < |rs'| && rs'[i].IsOpen() ==> rs'[i] == LatestOpen(rs').value
    ensures LatestOpen(rs).Some? ==> LatestOpen(Opened(rs, nextRoundId, now)) == LatestOpen(rs)
    ensures LatestOpen(rs).None? ==>
      && LatestOpen(Opened(rs, nextRoundId, now)) == Some(Round(nextRoundId, None, 0, now, None))
      && forall i :: 0 <= i < |rs| ==> rs[i].id < nextRoundId
  {
    var rs' := Opened(rs, nextRoundId, now);
    if LatestOpen(rs).None? {
      assert rs'[|rs'| - 1].IsOpen();
      assert rs'[..|rs|] == rs;
      forall i | 0 <= i < |rs'| && rs'[i].IsOpen()
        ensures rs'[i] == LatestOpen(rs').value
      {
      }
    } else {
      var k :| 0 <= k < |rs| && rs[k] == LatestOpen(rs).value;
    }
  }

  /** place_bet on the open round keeps the invariant. */
  lemma BetKeepsInv(rs: seq<Round>, bs: seq<Bet>, nextRoundId: nat, nextBetId: nat, b: Bet)
    requires Inv(rs, bs, nextRoundId, nextBetId)
    requires LatestOpen(rs).Some? && b.roundId == LatestOpen(rs).value.id && b.id == nextBetId
    ensures Inv(Credit(rs, b.roundId, b.amount), bs + [b], nextRoundId, nextBetId + 1)
  {
    var rs' := Credit(rs, b.roundId, b.amount);
    CreditKeepsWellFormed(rs, nextRoundId, b.roundId, b.amount);
    AppendBetWellFormed(bs, nextBetId, b);
    BankMatchesAfterBet(rs, bs, b);
    SameIdsKeepReferences(rs, rs', bs);
    var k :| 0 <= k < |rs| && rs[k] == LatestOpen(rs).value;
    assert rs'[k].id == b.roundId;
    assert BetsReferenceRounds(rs', bs + [b]) by {
      forall j | 0 <= j < |bs + [b]|
        ensures HasRound(rs', (bs + [b])[j].roundId)
      {
        if j < |bs| {
          assert (bs + [b])[j] == bs[j];
        }
      }
    }
  }

  /** Closing a round keeps its bank, so every bank still matches its bets. */
  lemma CloseKeepsBanks(rs: seq<Round>, bs: seq<Bet>, id: nat, result: string, ended: int)
    requires BankMatches(rs, bs)
    ensures BankMatches(Close(rs, id, result, ended), bs)
    ensures SameIds(rs, Close(rs, id, result, ended))
  {
    var rs' := Close(rs, id, result, ended);
    assert forall i :: 0 <= i < |rs| ==> rs'[i].id == rs[i].id && rs'[i].bank == rs[i].bank;
  }

  /** finalize_round on the open round keeps the invariant. */
  lemma CloseKeepsInv(rs: seq<Round>, bs: seq<Bet>, nextRoundId: nat, nextBetId: nat, result: string, ended: int)
    requires Inv(rs, bs, nextRoundId, nextBetId)
    requires LatestOpen(rs).Some?
    ensures Inv(Close(rs, LatestOpen(rs).value.id, result, ended), bs, nextRoundId, nextBetId)
  {
    var id := LatestOpen(rs).value.id;
    var rs' := Close(rs, id, result, ended);
    OnlyNewestOpenIsAtMostOne(rs);
    CloseLeavesNoneOpen(rs, result, ended);
    CloseKeepsBanks(rs, bs, id, result, ended);
    SameIdsKeepReferences(rs, rs', bs);
    assert forall i :: 0 <= i < |rs| ==> (rs'[i].IsOpen() <==> rs'[i].endedAt.None?);
  }

  // ---------------------------------------------------------------------
  // The database

  /**
    One SQLite database: the three tables, and the AUTOINCREMENT counters
    (sqlite_sequence) of rounds and bets, which only grow.
  */
  class Store {
    var users: map<int, User>
    var rounds: seq<Round>
    var bets: seq<Bet>
    var nextRoundId: nat
    var nextBetId: nat

    ghost predicate Valid()
      reads this
    {
      Inv(rounds, bets, nextRoundId, nextBetId)
    }

    /** A database just initialised with SCHEMA: empty tables. */
    constructor ()
      ensures Valid()
      ensures users == map[] && rounds == [] && bets == []
      ensures nextRoundId == 1 && nextBetId == 1
    {
      users, rounds, bets := map[], [], [];
      nextRoundId, nextBetId := 1, 1;
    }

    /** get_or_create_open_round: return the open round, inserting one started at `now` if there is none. */
    method GetOrCreateOpenRound(now: int) returns (rnd: Round)
      requires Valid()
      modifies this`rounds, this`nextRoundId
      ensures Valid()
      ensures rounds == Opened(old(rounds), old(nextRoundId), now)
      ensures LatestOpen(rounds) == Some(rnd)
      ensures forall i :: 0 <= i < |rounds| && rounds[i].IsOpen() ==> rounds[i] == rnd
      ensures LatestOpen(old(rounds)).Some? ==>
        rnd == LatestOpen(old(rounds)).value && nextRoundId == old(nextRoundId)
      ensures LatestOpen(old(rounds)).None? ==>
        && rnd == Round(old(nextRoundId), None, 0, now, None)
        && nextRoundId == old(nextRoundId) + 1
        && forall i :: 0 <= i < |old(rounds)| ==> old(rounds)[i].id < rnd.id
    {
      OpenedKeepsInv(rounds, bets, nextRoundId, nextBetId, now);
      OpenedHasOneOpen(rounds, nextRoundId, now);
      var row := LatestOpen(rounds);
      if row.None? {
        rounds := rounds + [Round(nextRoundId, None, 0, now, None)];
        nextRoundId := nextRoundId + 1;
        row := LatestOpen(rounds);
      }
      rnd := row.value;
    }

    /** add_user_if_needed: insert the user with `startBalance` unless the id is already present. */
    method AddUserIfNeeded(tgId: int, name: string, startBalance: int := DEFAULT_BALANCE)
      modifies this`users
      ensures tgId in old(users) ==> users == old(users)
      ensures tgId !in old(users) ==> users == old(users)[tgId := User(name, startBalance)]
      ensures GetBalance(tgId) == if tgId in old(users) then old(GetBalance(tgId)) else startBalance
    {
      if tgId in users {
        return;
      }
      users := users[tgId := User(name, startBalance)];
    }

    /** get_balance: the stored balance, or `default` for an unknown id; reads only. */
    function GetBalance(tgId: int, default: int := DEFAULT_BALANCE): (b: int)
      reads this
      ensures tgId in users ==> b == users[tgId].balance
      ensures tgId !in users ==> b == default
    {
      if tgId in users then users[tgId].balance else default
    }

    /** change_balance: `balance = balance + delta` for a known id, no lower bound; no row matches an unknown id. */
    method ChangeBalance(tgId: int, delta: int)
      modifies this`users
      ensures users.Keys == old(users.Keys)
      ensures tgId in old(users) ==>
        users == old(users)[tgId := User(old(users)[tgId].name, old(users)[tgId].balance + delta)]
      ensures tgId !in old(users) ==> users == old(users)
      ensures tgId in old(users) ==> GetBalance(tgId) == old(GetBalance(tgId)) + delta
    {
      if tgId in users {
        var u := users[tgId];
        users := users[tgId := u.(balance := u.balance + delta)];
      }
    }

    /**
      The two writes of place_bet into the open round `rid`: insert the bet
      and add its amount to the round's bank.
    */
    method RecordBet(rid: nat, tgId: int, name: string, amount: int, mult: string, now: int)
      requires Valid()
      requires LatestOpen(rounds).Some? && LatestOpen(rounds).value.id == rid
      modifies this`rounds, this`bets, this`nextBetId
      ensures Valid()
      ensures bets == old(bets) + [Bet(old(nextBetId), rid, tgId, name, amount, mult, now)]
      ensures nextBetId == old(nextBetId) + 1
      ensures rounds == Credit(old(rounds), rid, amount)
      ensures LatestOpen(rounds).Some? && LatestOpen(rounds).value.id == rid
      ensures |Players(bets, rid)| > 0 && Players(bets, rid)[0] == Player(name, amount, mult)
    {
      var b := Bet(nextBetId, rid, tgId, name, amount, mult, now);
      BetKeepsInv(rounds, bets, nextRoundId, nextBetId, b);
      NewestBetFirst(bets, b);
      CreditKeepsLatestOpen(rounds, rid, amount);
      bets := bets + [b];
      nextBetId := nextBetId + 1;
      rounds := Credit(rounds, rid, amount);
    }

    /**
      place_bet: find or create the open round, record the bet in it and
      return the round's id.
    */
    method PlaceBet(tgId: int, name: string, amount: int, mult: string, now: int) returns (rid: nat)
      requires Valid()
      modifies this`rounds, this`bets, this`nextRoundId, this`nextBetId
      ensures Valid()
      ensures LatestOpen(old(rounds)).Some? ==> rid == LatestOpen(old(rounds)).value.id
      ensures LatestOpen(old(rounds)).None? ==> rid == old(nextRoundId)
      ensures bets == old(bets) + [Bet(old(nextBetId), rid, tgId, name, amount, mult, now)]
      ensures nextBetId == old(nextBetId) + 1
      ensures nextRoundId == if LatestOpen(old(rounds)).Some? then old(nextRoundId) else old(nextRoundId) + 1
      ensures rounds == Credit(Opened(old(rounds), old(nextRoundId), now), rid, amount)
      ensures LatestOpen(rounds).Some? && LatestOpen(rounds).value.id == rid
      ensures |Players(bets, rid)| > 0 && Players(bets, rid)[0] == Player(name, amount, mult)
    {
      var rnd := GetOrCreateOpenRound(now);
      rid := rnd.id;
      RecordBet(rid, tgId, name, amount, mult, now);
    }

    /**
      get_current_round_state: find or create the open round and report its
      id, bank and start, with its bets newest first.
    */
    method CurrentRoundState(now: int) returns (st: RoundState)
      requires Valid()
      modifies this`rounds, this`nextRoundId
      ensures Valid()
      ensures rounds == Opened(old(rounds), old(nextRoundId), now)
      ensures nextRoundId == if LatestOpen(old(rounds)).Some? then old(nextRoundId) else old(nextRoundId) + 1
      ensures LatestOpen(rounds).Some?
      ensures var rnd := LatestOpen(rounds).value;
        st == RoundState(rnd.id, rnd.bank, Players(bets, rnd.id), rnd.startedAt)
      ensures st.bank == SumAmounts(BetsOf(bets, st.roundId))
      ensures BetIdsDescending(BetsOf(bets, st.roundId))
    {
      var rnd := GetOrCreateOpenRound(now);
      ghost var k :| 0 <= k < |rounds| && rounds[k] == rnd;
      BetTotalIsSumOfBetsOf(bets, rnd.id);
      BetsOfDescending(bets, rnd.id);
      st := RoundState(rnd.id, rnd.bank, Players(bets, rnd.id), rnd.startedAt);
    }

    /**
      finalize_round: close the open round with the highest id, setting its
      result and end time; None when no round is open.
    */
    method FinalizeRound(result: string, now: int) returns (closed: Option<nat>)
      requires Valid()
      modifies this`rounds
      ensures Valid()
      ensures LatestOpen(old(rounds)).None? ==> closed == None && rounds == old(rounds)
      ensures LatestOpen(old(rounds)).Some? ==>
        && closed == Some(LatestOpen(old(rounds)).value.id)
        && rounds == Close(old(rounds), closed.value, result, now)
      ensures forall i :: 0 <= i < |rounds| ==> !rounds[i].IsOpen()
    {
      var rnd := LatestOpen(rounds);
      if rnd.None? {
        return None;
      }
      CloseKeepsInv(rounds, bets, nextRoundId, nextBetId, result, now);
      OnlyNewestOpenIsAtMostOne(rounds);
      CloseLeavesNoneOpen(rounds, result, now);
      rounds := Close(rounds, rnd.value.id, result, now);
      closed := Some(rnd.value.id);
    }

    /**
      history: the closed rounds, newest first, at most `limit` of them, and
      the ones left out are older than every one returned.
    */
    function History(limit: nat := 50): (r: seq<Round>)
      reads this
      requires Valid()
      ensures |r| <= limit
      ensures forall x :: x in r ==> x in rounds && !x.IsOpen()
      ensures RoundIdsDescending(r)
      ensures forall x :: x in rounds && !x.IsOpen() && x !in r ==>
        |r| == limit && forall y :: y in r ==> y.id > x.id
    {
      var all := ClosedNewestFirst(rounds);
      ClosedNewestFirstDescending(rounds);
      all[..if limit < |all| then limit else |all|]
    }
  }
}
