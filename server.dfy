/**
  The part of server.py that is logic rather than transport: the round
  period and outcome labels, the countdown of GET /api/round, and one
  tick of the scheduler that closes the open round with a drawn label.
*/
module Server {
  import opened Wrappers
  import opened Db

  /** The round period in seconds. */
  const ROUND_SECONDS: int := 30

  /** The outcome labels the scheduler draws from. */
  const MULTS: seq<string> := ["x2", "x3", "x5", "x50"]

  /**
    Python's `a % b`: the remainder takes the sign of the divisor (floored
    division). Dafny's `%` is Euclidean, which agrees for b > 0 only.
  */
  function PyMod(a: int, b: int): (r: int)
    requires b != 0
    ensures b > 0 ==> 0 <= r < b
    ensures b < 0 ==> b < r <= 0
    ensures exists q :: a == q * b + r
  {
    var e := a % b;
    assert a == (a / b) * b + e;
    if b > 0 || e == 0 then e
    else
      assert a == (a / b - 1) * b + (e + b);
      e + b
  }

  /** `seconds_left` of api_round: what remains of the current 30-second period since the round started. */
  function SecondsLeft(now: int, startedAt: int): (r: int)
    ensures 1 <= r <= ROUND_SECONDS
    ensures r == ROUND_SECONDS <==> (now - startedAt) % ROUND_SECONDS == 0
  {
    ROUND_SECONDS - PyMod(now - startedAt, ROUND_SECONDS)
  }

  /** The countdown repeats every period, forwards and backwards in time. */
  lemma {:induction false} SecondsLeftPeriodic(now: int, startedAt: int, k: int)
    ensures SecondsLeft(now + k * ROUND_SECONDS, startedAt) == SecondsLeft(now, startedAt)
    decreases if k < 0 then -k else k
  {
    if k > 0 {
      SecondsLeftPeriodic(now, startedAt, k - 1);
      assert now + k * ROUND_SECONDS == (now + (k - 1) * ROUND_SECONDS) + ROUND_SECONDS;
    } else if k < 0 {
      SecondsLeftPeriodic(now, startedAt, k + 1);
      assert now + k * ROUND_SECONDS == (now + (k + 1) * ROUND_SECONDS) - ROUND_SECONDS;
    }
  }

  /** A round started at T and viewed at T + 45 has 15 seconds left. */
  lemma SecondsLeftAfter45(t: int)
    ensures SecondsLeft(t + 45, t) == 15
  {
  }

  /** The JSON object of GET /api/round: the round state plus the countdown and the period. */
  datatype RoundView = RoundView(
    roundId: nat, bank: int, players: seq<Player>, startedAt: int,
    secondsLeft: int, roundSeconds: int)

  /** Merge the countdown into the round state, as `{**st, 'seconds_left': ..., 'round_seconds': ...}` does. */
  function View(st: RoundState, now: int): (v: RoundView)
    ensures v.roundId == st.roundId && v.bank == st.bank
    ensures v.players == st.players && v.startedAt == st.startedAt
    ensures 1 <= v.secondsLeft <= ROUND_SECONDS && v.roundSeconds == ROUND_SECONDS
    ensures v.secondsLeft == ROUND_SECONDS <==> (now - st.startedAt) % ROUND_SECONDS == 0
  {
    RoundView(st.roundId, st.bank, st.players, st.startedAt, SecondsLeft(now, st.startedAt), ROUND_SECONDS)
  }

  /**
    GET /api/round: the current round (created at `stateNow` if none is
    open), with its countdown at `now`, the clock read after the state.
  */
  method ApiRound(store: Store, stateNow: int, now: int) returns (v: RoundView)
    requires store.Valid()
    modifies store`rounds, store`nextRoundId
    ensures store.Valid()
    ensures store.rounds == Opened(old(store.rounds), old(store.nextRoundId), stateNow)
    ensures store.nextRoundId ==
      if LatestOpen(old(store.rounds)).Some? then old(store.nextRoundId) else old(store.nextRoundId) + 1
    ensures LatestOpen(store.rounds).Some?
    ensures var rnd := LatestOpen(store.rounds).value;
      && v.roundId == rnd.id && v.bank == rnd.bank && v.startedAt == rnd.startedAt
      && v.players == Players(store.bets, rnd.id)
      && v.secondsLeft == SecondsLeft(now, rnd.startedAt)
      && v.roundSeconds == ROUND_SECONDS
  {
    var st := store.CurrentRoundState(stateNow);
    v := View(st, now);
  }

  /** Every closed round carries one of the drawn labels. */
  predicate ResultsDrawn(rs: seq<Round>) {
    forall i :: 0 <= i < |rs| && rs[i].result.Some? ==> rs[i].result.value in MULTS
  }

  /** Find-or-create and bet recording never set a result, so they keep every result a drawn label. */
  lemma ResultsDrawnAfterOpenAndCredit(rs: seq<Round>, nextId: nat, now: int, id: nat, amount: int)
    requires ResultsDrawn(rs)
    ensures ResultsDrawn(Opened(rs, nextId, now))
    ensures ResultsDrawn(Credit(rs, id, amount))
  {
    var rs' := Opened(rs, nextId, now);
    if LatestOpen(rs).None? {
      assert forall i :: 0 <= i < |rs| ==> rs'[i] == rs[i];
    }
  }

  /** Closing a round with a drawn label keeps every result a drawn label. */
  lemma ResultsDrawnAfterClose(rs: seq<Round>, id: nat, result: string, ended: int)
    requires ResultsDrawn(rs) && result in MULTS
    ensures ResultsDrawn(Close(rs, id, result, ended))
  {
  }

  /**
    One scheduler tick after its sleep: draw a label from MULTS (the
    weighted draw is left as an arbitrary choice) and close the open round
    with it at `now`.
  */
  method SchedulerTick(store: Store, now: int) returns (result: string, closed: Option<nat>)
    requires store.Valid() && ResultsDrawn(store.rounds)
    modifies store`rounds
    ensures store.Valid() && ResultsDrawn(store.rounds)
    ensures result in MULTS
    ensures LatestOpen(old(store.rounds)).None? ==> closed == None && store.rounds == old(store.rounds)
    ensures LatestOpen(old(store.rounds)).Some? ==>
      && closed == Some(LatestOpen(old(store.rounds)).value.id)
      && store.rounds == Close(old(store.rounds), closed.value, result, now)
    ensures forall i :: 0 <= i < |store.rounds| ==> !store.rounds[i].IsOpen()
  {
    assert MULTS[0] in MULTS;
    result :| result in MULTS;
    ResultsDrawnAfterClose(store.rounds, if LatestOpen(store.rounds).Some? then LatestOpen(store.rounds).value.id else 0, result, now);
    closed := store.FinalizeRound(result, now);
  }

  /** Finalizing a fresh database, where no round was ever opened, reports that there was nothing to close. */
  method CloseOnFreshStore(result: string, now: int) returns (closed: Option<nat>)
    ensures closed == None
  {
    var store := new Store();
    closed := store.FinalizeRound(result, now);
  }

  /** A bet placed and then the round read back: the bet is the first player of the round it landed in. */
  method BetThenRound(store: Store, tgId: int, name: string, amount: int, mult: string, now: int, later: int)
    returns (rid: nat, v: RoundView)
    requires store.Valid()
    modifies store`rounds, store`bets, store`nextRoundId, store`nextBetId
    ensures store.Valid()
    ensures v.roundId == rid && |v.players| > 0 && v.players[0] == Player(name, amount, mult)
    ensures v.bank == SumAmounts(BetsOf(store.bets, rid))
  {
    rid := store.PlaceBet(tgId, name, amount, mult, now);
    v := ApiRound(store, later, later);
    BetTotalIsSumOfBetsOf(store.bets, rid);
  }

  /**
    With no round open, a bet opens a round with the next id, the scheduler
    closes it, and the next bet opens the round after it: ids come from one
    counter that only round creation advances.
  */
  method BetCloseBet(store: Store, result: string, t0: int, t1: int, t2: int)
    returns (rid1: nat, closed: Option<nat>, rid2: nat)
    requires store.Valid() && LatestOpen(store.rounds).None?
    modifies store`rounds, store`bets, store`nextRoundId, store`nextBetId
    ensures store.Valid()
    ensures rid1 == old(store.nextRoundId) && closed == Some(rid1) && rid2 == rid1 + 1
    ensures store.nextRoundId == rid2 + 1
  {
    rid1 := store.PlaceBet(1, "a", 10, "x2", t0);
    closed := store.FinalizeRound(result, t1);
    rid2 := store.PlaceBet(2, "b", 20, "x3", t2);
  }

  /** On a fresh database the first two rounds get ids 1 and 2. */
  method FirstTwoRounds(result: string, t0: int, t1: int, t2: int) returns (rid1: nat, rid2: nat)
    ensures rid1 == 1 && rid2 == 2
  {
    var store := new Store();
    var closed;
    rid1, closed, rid2 := BetCloseBet(store, result, t0, t1, t2);
  }
}
