/**
 * Channel settlement, `POST /api/matches/current/record`: the channel's
 * latest LOCKED match is settled with the given winner and loser score,
 * its PENDING bets are split into exact-score winners and everyone else,
 * and the winners share the losers' stakes in proportion to their own.
 * This route does not use the payout function of `payout.ts`.
 */
module Settlement {
  import opened Common
  import opened Ledger

  predicate PendingOn(b: Bet, id: nat) {
    b.matchId == id && b.status == BetStatus.Pending
  }

  /** The bet predicted both the winning side and the loser's score. */
  predicate Exact(b: Bet, side: Side, ls: int) {
    b.predictedWinner == side && b.predictedLoserScore == ls
  }

  /** A pending bet on the match in the winners' pool (`winners`) or the losers' pool (`!winners`). */
  predicate InPool(b: Bet, id: nat, side: Side, ls: int, winners: bool) {
    PendingOn(b, id) && Exact(b, side, ls) == winners
  }

  /** The total stake of a pool. */
  function Stakes(bs: seq<Bet>, id: nat, side: Side, ls: int, winners: bool): real
  {
    if bs == [] then 0.0
    else Stakes(bs[..|bs| - 1], id, side, ls, winners)
         + (if InPool(bs[|bs| - 1], id, side, ls, winners) then bs[|bs| - 1].amount else 0.0)
  }

  /** The number of bets in a pool. */
  function Count(bs: seq<Bet>, id: nat, side: Side, ls: int, winners: bool): nat
  {
    if bs == [] then 0
    else Count(bs[..|bs| - 1], id, side, ls, winners) + (if InPool(bs[|bs| - 1], id, side, ls, winners) then 1 else 0)
  }

  /** The number of PENDING bets on the match. */
  function PendingCount(bs: seq<Bet>, id: nat): nat
  {
    if bs == [] then 0
    else PendingCount(bs[..|bs| - 1], id) + (if PendingOn(bs[|bs| - 1], id) then 1 else 0)
  }

  /** A winner's share of the losers' pool: its fraction of the winners' pool, or 0 when that pool is not positive. */
  function Share(amount: real, winnersSum: real, losersSum: real): real {
    if winnersSum > 0.0 then amount / winnersSum * losersSum else 0.0
  }

  /** What settlement writes into one bet row given the two pool totals. */
  function SettleBet(b: Bet, id: nat, side: Side, ls: int, winnersSum: real, losersSum: real): Bet {
    if !PendingOn(b, id) then b
    else if Exact(b, side, ls) then
      b.(status := BetStatus.Settled, payout := Some(b.amount + Share(b.amount, winnersSum, losersSum)))
    else b.(status := BetStatus.Settled, payout := Some(0.0))
  }

  function SettleAll(bs: seq<Bet>, id: nat, side: Side, ls: int, winnersSum: real, losersSum: real): (r: seq<Bet>)
    ensures |r| == |bs|
    ensures forall j :: 0 <= j < |bs| ==> r[j] == SettleBet(bs[j], id, side, ls, winnersSum, losersSum)
  {
    seq(|bs|, j requires 0 <= j < |bs| => SettleBet(bs[j], id, side, ls, winnersSum, losersSum))
  }

  /** The bet table after settling match `id`. */
  function SettleBets(bs: seq<Bet>, id: nat, side: Side, ls: int): seq<Bet> {
    SettleAll(bs, id, side, ls, Stakes(bs, id, side, ls, true), Stakes(bs, id, side, ls, false))
  }

  /** The settled match: the winner side gets 10, the other side the loser score. */
  function SettledMatch(m: Match, side: Side, ls: int, now: int): Match {
    m.(state := MatchState.Settled, settledAt := Some(now),
       scoreP1 := Some(if side == P1 then 10 else ls), scoreP2 := Some(if side == P2 then 10 else ls),
       loserScore := Some(ls), winner := Some(side))
  }

  /** `Number.isInteger(loserScore) && 0 <= loserScore <= 9` on the raw body value: only a JSON number passes. */
  predicate LoserScoreArg(j: Json) {
    j.Num? && IsInteger(Finite(j.n)) && 0.0 <= j.n <= 9.0
  }

  predicate WinnerArg(w: Number) {
    w == Finite(1.0) || w == Finite(2.0)
  }

  /** `POST /api/matches/current/record` */
  function SettleCurrent(db: Db, channel: string, winner: Json, loserScore: Json, now: int): (Response, Db)
  {
    var w := ToNumber(winner);
    if !WinnerArg(w) then (Error(400, WinnerNotOneOrTwo), db)
    else if !LoserScoreArg(loserScore) then (Error(400, LoserScoreOutOfRange), db)
    else match Latest(db.matches, InState(channel, MatchState.Locked))
      case None => (Error(404, NoLockedMatch), db)
      case Some(id) =>
        if !(db.matches[id].p1 < |db.users| && db.matches[id].p2 < |db.users|) then (Error(500, PlayersMissing), db)
        else SettleMatch(db, id, if w == Finite(1.0) then P1 else P2, loserScore.n.Floor, now)
  }

  /** The transaction of the route, on the located match. */
  function SettleMatch(db: Db, id: nat, side: Side, ls: int, now: int): (Response, Db)
    requires id < |db.matches|
  {
    (SettledCounts(Count(db.bets, id, side, ls, true), Count(db.bets, id, side, ls, false)),
     db.(matches := db.matches[id := SettledMatch(db.matches[id], side, ls, now)],
         bets := SettleBets(db.bets, id, side, ls)))
  }

  /** The sum of the payouts settlement gives the winners' pool. */
  function WinnerPayouts(bs: seq<Bet>, id: nat, side: Side, ls: int, winnersSum: real, losersSum: real): real
  {
    if bs == [] then 0.0
    else WinnerPayouts(bs[..|bs| - 1], id, side, ls, winnersSum, losersSum)
         + (if InPool(bs[|bs| - 1], id, side, ls, true)
            then SettleBet(bs[|bs| - 1], id, side, ls, winnersSum, losersSum).payout.value else 0.0)
  }

  // ---------------------------------------------------------------------
  // Validation and lookup

  /** A winner other than 1 or 2, or a loser score that is not an integer in 0..9, gives 400 and changes nothing. */
  lemma SettleValidation(db: Db, channel: string, winner: Json, loserScore: Json, now: int)
    ensures var r := SettleCurrent(db, channel, winner, loserScore, now);
      && (r.0.Error? && r.0.code == 400 <==> !WinnerArg(ToNumber(winner)) || !LoserScoreArg(loserScore))
      && (r.0.Error? ==> r.1 == db)
  {
  }

  /** The loser score must be a JSON number: the string "3" is refused although `Number("3")` is 3. */
  lemma StringLoserScoreRefused(db: Db, channel: string, now: int)
    ensures SettleCurrent(db, channel, Num(1.0), Str("3"), now) == (Error(400, LoserScoreOutOfRange), db)
    ensures SettleCurrent(db, channel, Str("2"), Num(3.5), now) == (Error(400, LoserScoreOutOfRange), db)
  {
    assert ToNumber(Num(1.0)) == Finite(1.0) && !LoserScoreArg(Str("3"));
    assert ToNumber(Str("2")) == Finite(2.0) by { StrToNumberOfDigits("2"); }
    assert !LoserScoreArg(Num(3.5));
  }

  /**
   * Valid arguments meet 404 exactly when the channel has no LOCKED match:
   * an OPEN match cannot be settled by this route.
   */
  lemma SettleNeedsLocked(db: Db, channel: string, winner: Json, loserScore: Json, now: int)
    requires WinnerArg(ToNumber(winner)) && LoserScoreArg(loserScore)
    ensures var r := SettleCurrent(db, channel, winner, loserScore, now);
      && (r.0 == Error(404, NoLockedMatch) <==>
            forall j :: 0 <= j < |db.matches| ==> !(db.matches[j].channel == channel && db.matches[j].state == MatchState.Locked))
      && (r.0.Error? ==> r.1 == db)
  {
  }

  /** Past validation and lookup, the route is the settlement of the latest LOCKED match. */
  lemma SettleResolved(db: Db, channel: string, winner: Json, loserScore: Json, now: int)
    requires SettleCurrent(db, channel, winner, loserScore, now).0.SettledCounts?
    ensures var id := Latest(db.matches, InState(channel, MatchState.Locked));
      && id.Some? && db.matches[id.value].state == MatchState.Locked && db.matches[id.value].channel == channel
      && SettleCurrent(db, channel, winner, loserScore, now)
         == SettleMatch(db, id.value, if ToNumber(winner) == Finite(1.0) then P1 else P2, loserScore.n.Floor, now)
  {
  }

  // ---------------------------------------------------------------------
  // The settlement

  /**
   * Only the located match changes: it is SETTLED, the winner side's
   * score is 10, the other side's is the loser score. No user (no wallet,
   * no rating) and no audit row changes.
   */
  lemma SettleMatchFields(db: Db, id: nat, side: Side, ls: int, now: int)
    requires id < |db.matches|
    ensures var db' := SettleMatch(db, id, side, ls, now).1;
      var m := db'.matches[id];
      && |db'.matches| == |db.matches|
      && m.state == MatchState.Settled && m.settledAt == Some(now)
      && m.winner == Some(side) && m.loserScore == Some(ls)
      && (side == P1 ==> m.scoreP1 == Some(10) && m.scoreP2 == Some(ls))
      && (side == P2 ==> m.scoreP2 == Some(10) && m.scoreP1 == Some(ls))
      && m.p1 == db.matches[id].p1 && m.p2 == db.matches[id].p2 && m.channel == db.matches[id].channel
      && (forall j :: 0 <= j < |db.matches| && j != id ==> db'.matches[j] == db.matches[j])
      && db'.users == db.users && db'.eloDeltas == db.eloDeltas
  {
  }

  /**
   * Exact winners and losers partition the match's PENDING bets: a winner
   * is SETTLED with its stake plus its share, a loser is SETTLED with
   * payout 0, and a bet in any other status or on another match is
   * untouched.
   */
  lemma SettlePartition(bs: seq<Bet>, id: nat, side: Side, ls: int)
    ensures var bs' := SettleBets(bs, id, side, ls);
      var w, l := Stakes(bs, id, side, ls, true), Stakes(bs, id, side, ls, false);
      && |bs'| == |bs|
      && (forall j :: 0 <= j < |bs| && InPool(bs[j], id, side, ls, true) ==>
            bs'[j] == bs[j].(status := BetStatus.Settled, payout := Some(bs[j].amount + Share(bs[j].amount, w, l))))
      && (forall j :: 0 <= j < |bs| && InPool(bs[j], id, side, ls, false) ==>
            bs'[j] == bs[j].(status := BetStatus.Settled, payout := Some(0.0)))
      && (forall j :: 0 <= j < |bs| && !PendingOn(bs[j], id) ==> bs'[j] == bs[j])
      && (forall j :: 0 <= j < |bs| ==>
            (PendingOn(bs[j], id) <==> InPool(bs[j], id, side, ls, true) || InPool(bs[j], id, side, ls, false)))
  {
  }

  /** The reported counts cover every PENDING bet on the match exactly once. */
  lemma {:induction false} CountsPartition(bs: seq<Bet>, id: nat, side: Side, ls: int)
    ensures Count(bs, id, side, ls, true) + Count(bs, id, side, ls, false) == PendingCount(bs, id)
  {
    if bs != [] {
      CountsPartition(bs[..|bs| - 1], id, side, ls);
    }
  }

  /**
   * The sum of the winners' payouts is their pool plus, when that pool is
   * positive, their fraction of it times the losers' pool.
   */
  lemma {:induction false} WinnerPayoutsSum(bs: seq<Bet>, id: nat, side: Side, ls: int, w: real, l: real)
    ensures WinnerPayouts(bs, id, side, ls, w, l)
         == Stakes(bs, id, side, ls, true) + Share(Stakes(bs, id, side, ls, true), w, l)
  {
    if bs != [] {
      var init := bs[..|bs| - 1];
      var b := bs[|bs| - 1];
      WinnerPayoutsSum(init, id, side, ls, w, l);
      if InPool(b, id, side, ls, true) && w > 0.0 {
        var s := Stakes(init, id, side, ls, true);
        assert (s + b.amount) / w * l == s / w * l + b.amount / w * l;
      }
    }
  }

  /**
   * In exact arithmetic the payouts to the winners add up to the whole pot
   * of PENDING stakes, winners' and losers', whenever the winners' pool is
   * positive; with no positive winners' pool, winners get their stakes back
   * and the losers' pool is not paid out.
   */
  lemma PotConserved(bs: seq<Bet>, id: nat, side: Side, ls: int)
    ensures var w, l := Stakes(bs, id, side, ls, true), Stakes(bs, id, side, ls, false);
      && (w > 0.0 ==> WinnerPayouts(bs, id, side, ls, w, l) == w + l)
      && (w <= 0.0 ==> WinnerPayouts(bs, id, side, ls, w, l) == w)
  {
    var w, l := Stakes(bs, id, side, ls, true), Stakes(bs, id, side, ls, false);
    WinnerPayoutsSum(bs, id, side, ls, w, l);
    if w > 0.0 {
      assert w / w == 1.0;
      assert w / w * l == l;
    }
  }

  /** A second settlement in a row gets 404 and changes nothing, unless the channel has another LOCKED match. */
  lemma SettleTwice(db: Db, channel: string, winner: Json, loserScore: Json, now: int, winner2: Json, loserScore2: Json, later: int)
    requires SettleCurrent(db, channel, winner, loserScore, now).0.SettledCounts?
    requires WinnerArg(ToNumber(winner2)) && LoserScoreArg(loserScore2)
    requires var id := Latest(db.matches, InState(channel, MatchState.Locked)).value;
      forall j :: 0 <= j < |db.matches| && j != id ==> !(db.matches[j].channel == channel && db.matches[j].state == MatchState.Locked)
    ensures var db1 := SettleCurrent(db, channel, winner, loserScore, now).1;
      SettleCurrent(db1, channel, winner2, loserScore2, later) == (Error(404, NoLockedMatch), db1)
  {
    SettleResolved(db, channel, winner, loserScore, now);
    var id := Latest(db.matches, InState(channel, MatchState.Locked)).value;
    var db1 := SettleCurrent(db, channel, winner, loserScore, now).1;
    assert forall j :: 0 <= j < |db1.matches| ==> !(db1.matches[j].channel == channel && db1.matches[j].state == MatchState.Locked) by {
      forall j | 0 <= j < |db1.matches|
        ensures !(db1.matches[j].channel == channel && db1.matches[j].state == MatchState.Locked)
      {
        if j != id { assert db1.matches[j] == db.matches[j]; }
      }
    }
  }

  /** Settlement keeps the store well formed and keeps at most one OPEN match per channel. */
  lemma SettleKeepsInvariants(db: Db, id: nat, side: Side, ls: int, now: int)
    requires id < |db.matches|
    requires WellFormed(db) && OneOpenPerChannel(db.matches)
    ensures WellFormed(SettleMatch(db, id, side, ls, now).1)
    ensures OneOpenPerChannel(SettleMatch(db, id, side, ls, now).1.matches)
  {
    var db' := SettleMatch(db, id, side, ls, now).1;
    assert forall j :: 0 <= j < |db'.bets| ==> db'.bets[j].matchId == db.bets[j].matchId && db'.bets[j].userId == db.bets[j].userId;
    assert forall j :: 0 <= j < |db'.matches| && db'.matches[j].state == MatchState.Open ==> db'.matches[j] == db.matches[j];
  }
}
