/**
 * The store as the routes use it: four tables updated in place, one
 * method per route. Each method is proved to leave the tables as the
 * route's specification function says, and so inherits the lemmas proved
 * about that function.
 */
module Store {
  import opened Common
  import opened Ledger
  import MatchRoutes
  import BetRoutes
  import Settlement
  import PairRecord

  class Store {
    var users: seq<User>
    var matches: seq<Match>
    var bets: seq<Bet>
    var eloDeltas: seq<EloDelta>

    /** The tables as a value. */
    function State(): Db
      reads this
    {
      Db(users, matches, bets, eloDeltas)
    }

    constructor (db: Db)
      ensures State() == db
    {
      users, matches, bets, eloDeltas := db.users, db.matches, db.bets, db.eloDeltas;
    }

    /** `POST /api/matches/open` */
    method Open(p1: Option<string>, p2: Option<string>, channelId: Option<string>, now: int) returns (r: Response)
      modifies this
      ensures (r, State()) == MatchRoutes.OpenMatch(old(State()), p1, p2, channelId, now)
      ensures old(OneOpenPerChannel(matches)) ==> OneOpenPerChannel(matches)
    {
      var a := MatchRoutes.FieldText(p1, "");
      var b := MatchRoutes.FieldText(p2, "");
      var channel := MatchRoutes.FieldText(channelId, "default");
      if a == "" || b == "" {
        return Error(400, PlayersRequired);
      }
      if EqualsIgnoreCase(a, b) {
        return Error(400, PlayersMustDiffer);
      }
      var u1 := FindUser(users, a);
      var u2 := FindUser(users, b);
      assert MatchRoutes.OpenMatch(State(), p1, p2, channelId, now) == MatchRoutes.OpenResolved(State(), u1, u2, channel, now);
      r := OpenResolved(u1, u2, channel, now);
    }

    /** The open route once both lookups are done: supersede, then insert. */
    method OpenResolved(u1: Option<nat>, u2: Option<nat>, channel: string, now: int) returns (r: Response)
      modifies this
      ensures (r, State()) == MatchRoutes.OpenResolved(old(State()), u1, u2, channel, now)
      ensures old(OneOpenPerChannel(matches)) ==> OneOpenPerChannel(matches)
    {
      if OneOpenPerChannel(matches) {
        MatchRoutes.OpenResolvedKeepsOneOpen(State(), u1, u2, channel, now);
      }
      if u1.None? || u2.None? {
        return Error(404, PlayerNotFound);
      }
      var prev := Latest(matches, InState(channel, MatchState.Open));
      if prev.Some? {
        matches := matches[prev.value := matches[prev.value].(state := MatchState.Settled, settledAt := Some(now))];
      }
      assert matches == MatchRoutes.SupersedeOpen(old(matches), channel, now);
      r := Opened(|matches|, channel);
      matches := matches + [MatchRoutes.NewMatch(channel, u1.value, u2.value, now)];
    }

    /** `POST /api/matches/current/lock` */
    method Lock(channel: string) returns (r: Response)
      modifies this
      ensures (r, State()) == MatchRoutes.LockMatch(old(State()), channel)
      ensures old(OneOpenPerChannel(matches)) ==> OneOpenPerChannel(matches)
    {
      if OneOpenPerChannel(matches) {
        MatchRoutes.LockKeepsOneOpen(State(), channel);
      }
      var found := Latest(matches, InState(channel, MatchState.Open));
      if found.None? {
        return Error(404, NoOpenMatch);
      }
      matches := matches[found.value := matches[found.value].(state := MatchState.Locked)];
      r := Ok;
    }

    /** `POST /api/matches/current/score` */
    method Score(channel: string, p1Score: Number, p2Score: Number) returns (r: Response)
      modifies this
      ensures (r, State()) == MatchRoutes.SetScore(old(State()), channel, p1Score, p2Score)
      ensures old(OneOpenPerChannel(matches)) ==> OneOpenPerChannel(matches)
    {
      if OneOpenPerChannel(matches) {
        MatchRoutes.ScoreKeepsOneOpen(State(), channel, p1Score, p2Score);
      }
      if !IsInteger(p1Score) || !IsInteger(p2Score) {
        return Error(400, ScoresNotIntegers);
      }
      var found := Latest(matches, Active(channel));
      if found.None? {
        return Error(404, NoActiveMatch);
      }
      var i := found.value;
      var s1, s2 := p1Score.v.Floor, p2Score.v.Floor;
      matches := matches[i := matches[i].(scoreP1 := Some(s1), scoreP2 := Some(s2))];
      r := ScoreSet(i, s1, s2);
    }

    /** `POST /api/bets/current/place` */
    method Place(channel: string, req: BetRoutes.BetRequest) returns (r: Response)
      modifies this
      ensures (r, State()) == BetRoutes.PlaceBet(old(State()), channel, req)
    {
      var username := BetRoutes.RequestUsername(req.header, req.bodyName);
      var choice := ToNumber(req.choice);
      var loserScore := ToNumber(req.loserScore);
      var amount := ToNumber(req.amount);
      var replace := Truthy(req.replace);
      if username == "" {
        return Error(400, UsernameRequired);
      }
      if !BetRoutes.ValidChoice(choice) {
        return Error(400, ChoiceNotOneOrTwo);
      }
      if !BetRoutes.ValidLoserScore(loserScore) {
        return Error(400, LoserScoreOutOfRange);
      }
      if !BetRoutes.ValidAmount(amount) {
        return Error(400, AmountNotPositive);
      }
      var user := FindUser(users, username);
      if user.None? {
        return Error(404, UserNotFound);
      }
      var m := Latest(matches, InState(channel, MatchState.Open));
      if m.None? {
        return Error(409, NoOpenMatch);
      }
      var side := BetRoutes.ChoiceSide(choice);
      var prev := FindBet(bets, m.value, user.value);
      if prev.Some? && !replace {
        return Error(409, BetExists);
      }
      if prev.Some? {
        var k := prev.value;
        bets := bets[k := bets[k].(predictedWinner := side, predictedLoserScore := loserScore.v.Floor,
                                   amount := amount.v, status := BetStatus.Pending)];
      } else {
        bets := bets + [Bet(m.value, user.value, side, loserScore.v.Floor, amount.v, BetStatus.Pending, None)];
      }
      r := Ok;
    }

    /** `POST /api/bets/current/refund` */
    method Refund(channel: string, header: Option<string>, bodyName: Option<string>) returns (r: Response)
      modifies this
      ensures (r, State()) == BetRoutes.RefundBet(old(State()), channel, header, bodyName)
    {
      ghost var db0 := State();
      var username := BetRoutes.RequestUsername(header, bodyName);
      if username == "" {
        return Error(400, UsernameRequired);
      }
      var user := FindUser(users, username);
      if user.None? {
        return Error(404, UserNotFound);
      }
      BetRoutes.RefundResolved(db0, channel, header, bodyName);
      r := RefundFor(channel, user.value);
    }

    /** The refund of the user's bet on the channel's OPEN match. */
    method RefundFor(channel: string, u: nat) returns (r: Response)
      modifies this
      ensures (r, State()) == BetRoutes.RefundFor(old(State()), channel, u)
    {
      var m := Latest(matches, InState(channel, MatchState.Open));
      if m.None? {
        return Error(404, NoOpenMatch);
      }
      var bet := FindBet(bets, m.value, u);
      if bet.None? {
        return Error(404, NoBet);
      }
      bets := bets[bet.value := bets[bet.value].(status := BetStatus.Refunded)];
      r := Ok;
    }

    /**
     * `POST /api/matches/current/record`: the match row is settled, then
     * the pending bets are read, split into exact winners and losers with
     * the two pool totals, and each winner and then each loser row is
     * updated in turn.
     */
    method SettleCurrent(channel: string, winner: Json, loserScore: Json, now: int) returns (r: Response)
      modifies this
      ensures (r, State()) == Settlement.SettleCurrent(old(State()), channel, winner, loserScore, now)
    {
      var w := ToNumber(winner);
      if !Settlement.WinnerArg(w) {
        return Error(400, WinnerNotOneOrTwo);
      }
      if !Settlement.LoserScoreArg(loserScore) {
        return Error(400, LoserScoreOutOfRange);
      }
      var found := Latest(matches, InState(channel, MatchState.Locked));
      if found.None? {
        return Error(404, NoLockedMatch);
      }
      var id := found.value;
      if !(matches[id].p1 < |users| && matches[id].p2 < |users|) {
        return Error(500, PlayersMissing);
      }
      var side := if w == Finite(1.0) then P1 else P2;
      var ls := loserScore.n.Floor;
      assert Settlement.SettleCurrent(old(State()), channel, winner, loserScore, now)
          == Settlement.SettleMatch(old(State()), id, side, ls, now);
      r := SettleLocked(id, side, ls, now);
    }

    /** The transaction of the settlement route on the located match. */
    method SettleLocked(id: nat, side: Side, ls: int, now: int) returns (r: Response)
      requires id < |matches|
      modifies this
      ensures (r, State()) == Settlement.SettleMatch(old(State()), id, side, ls, now)
    {
      matches := matches[id := Settlement.SettledMatch(matches[id], side, ls, now)];
      var rows := bets;
      var winners, losers, winnersSum, losersSum := CollectPools(rows, id, side, ls);
      PayWinners(rows, id, side, ls, winners, winnersSum, losersSum);
      PayLosers(rows, id, side, ls, winners, losers, winnersSum, losersSum);
      r := SettledCounts(|winners|, |losers|);
    }

    /** The first `for` loop: each winner row becomes SETTLED with its stake plus its share. */
    method PayWinners(rows: seq<Bet>, id: nat, side: Side, ls: int, winners: seq<nat>, winnersSum: real, losersSum: real)
      requires bets == rows
      requires forall j :: j in winners ==> 0 <= j < |rows| && Settlement.InPool(rows[j], id, side, ls, true)
      requires forall a, b :: 0 <= a < b < |winners| ==> winners[a] < winners[b]
      modifies this
      ensures |bets| == |rows|
      ensures forall j :: 0 <= j < |rows| ==>
        bets[j] == if j in winners then Settlement.SettleBet(rows[j], id, side, ls, winnersSum, losersSum) else rows[j]
      ensures users == old(users) && matches == old(matches) && eloDeltas == old(eloDeltas)
    {
      var k := 0;
      while k < |winners|
        invariant 0 <= k <= |winners| && |bets| == |rows|
        invariant users == old(users) && matches == old(matches) && eloDeltas == old(eloDeltas)
        invariant forall j :: 0 <= j < |rows| ==>
          bets[j] == if j in winners[..k] then Settlement.SettleBet(rows[j], id, side, ls, winnersSum, losersSum) else rows[j]
      {
        var x := winners[k];
        assert x in winners && x !in winners[..k];
        assert 0 <= x < |rows| && Settlement.InPool(rows[x], id, side, ls, true);
        assert bets[x] == rows[x];
        var b := rows[x];
        var share := if winnersSum > 0.0 then b.amount / winnersSum * losersSum else 0.0;
        assert Settlement.PendingOn(b, id);
        assert Settlement.Exact(b, side, ls);
        assert share == Settlement.Share(b.amount, winnersSum, losersSum);
        assert Settlement.SettleBet(b, id, side, ls, winnersSum, losersSum)
            == b.(status := BetStatus.Settled, payout := Some(b.amount + share));
        bets := bets[x := bets[x].(status := BetStatus.Settled, payout := Some(b.amount + share))];
        assert winners[..k + 1] == winners[..k] + [x];
        assert forall j :: j in winners[..k + 1] <==> j in winners[..k] || j == x;
        k := k + 1;
      }
      assert winners[..|winners|] == winners;
    }

    /** The second `for` loop: each loser row becomes SETTLED with payout 0; afterwards the table is settled. */
    method PayLosers(rows: seq<Bet>, id: nat, side: Side, ls: int, winners: seq<nat>, losers: seq<nat>,
                     winnersSum: real, losersSum: real)
      requires |bets| == |rows|
      requires winnersSum == Settlement.Stakes(rows, id, side, ls, true)
      requires losersSum == Settlement.Stakes(rows, id, side, ls, false)
      requires forall j :: j in winners <==> 0 <= j < |rows| && Settlement.InPool(rows[j], id, side, ls, true)
      requires forall j :: j in losers <==> 0 <= j < |rows| && Settlement.InPool(rows[j], id, side, ls, false)
      requires forall a, b :: 0 <= a < b < |losers| ==> losers[a] < losers[b]
      requires forall j :: 0 <= j < |rows| ==>
        bets[j] == if j in winners then Settlement.SettleBet(rows[j], id, side, ls, winnersSum, losersSum) else rows[j]
      modifies this
      ensures bets == Settlement.SettleBets(rows, id, side, ls)
      ensures users == old(users) && matches == old(matches) && eloDeltas == old(eloDeltas)
    {
      var k := 0;
      while k < |losers|
        invariant 0 <= k <= |losers| && |bets| == |rows|
        invariant users == old(users) && matches == old(matches) && eloDeltas == old(eloDeltas)
        invariant forall j :: 0 <= j < |rows| ==>
          bets[j] == if j in winners || j in losers[..k] then Settlement.SettleBet(rows[j], id, side, ls, winnersSum, losersSum)
                     else rows[j]
      {
        var x := losers[k];
        assert x in losers && x !in losers[..k] && x !in winners;
        assert 0 <= x < |rows| && Settlement.InPool(rows[x], id, side, ls, false);
        assert bets[x] == rows[x];
        bets := bets[x := bets[x].(status := BetStatus.Settled, payout := Some(0.0))];
        assert losers[..k + 1] == losers[..k] + [x];
        k := k + 1;
      }
      assert losers[..|losers|] == losers;
      forall j | 0 <= j < |rows|
        ensures bets[j] == Settlement.SettleBet(rows[j], id, side, ls, winnersSum, losersSum)
      {
        if j !in winners && j !in losers {
          assert !Settlement.PendingOn(rows[j], id);
        }
      }
    }

    /**
     * `POST /api/matches/record`: the pair's OPEN match is settled or a
     * settled one created, both user rows are updated, and two audit rows
     * are appended.
     */
    method RecordPair(req: PairRecord.RecordRequest, k: real, expected: (int, int) -> real, now: int) returns (r: Response)
      modifies this
      ensures (r, State()) == PairRecord.RecordPair(old(State()), req, k, expected, now)
    {
      if !Truthy(req.p1) || !Truthy(req.p2) || req.loserScore == Missing || req.loserScore == Null {
        return Error(400, MissingFields);
      }
      if !req.p1.Str? || !req.p2.Str? {
        return Error(400, PlayersNotStrings);
      }
      var a, b := Trim(req.p1.s), Trim(req.p2.s);
      if a == "" || b == "" || EqualsIgnoreCase(a, b) {
        return Error(400, InvalidPlayers);
      }
      var ls := PairRecord.ClampLoserScore(ToNumber(req.loserScore));
      var channel := match req.channelId case Some(c) => c case None => "discord";
      var openedBy := match req.openedBy case Some(o) => o case None => "discord:unknown";
      var u1, u2 := FindUser(users, a), FindUser(users, b);
      if u1.None? || u2.None? {
        return Error(404, UnknownUsers(PairRecord.MissingNames(a, b, u1, u2)));
      }
      if ls.None? {
        return Error(500, RejectedWrite);
      }
      PairRecord.DistinctNamesDistinctUsers(users, a, b);
      assert PairRecord.RecordPair(old(State()), req, k, expected, now)
          == PairRecord.RecordSettle(old(State()), u1.value, u2.value, ls.value, channel, openedBy, k, expected, now);
      r := RecordWinLoss(u1.value, u2.value, ls.value, channel, openedBy, k, expected, now);
    }

    /** The transaction of `POST /api/matches/record` once both users are known. */
    method RecordWinLoss(winnerUser: nat, loserUser: nat, ls: int, channel: string, openedBy: string,
                         k: real, expected: (int, int) -> real, now: int) returns (r: Response)
      requires winnerUser < |users| && loserUser < |users| && winnerUser != loserUser
      modifies this
      ensures (r, State()) == PairRecord.RecordSettle(old(State()), winnerUser, loserUser, ls, channel, openedBy, k, expected, now)
    {
      var ra := PairRecord.EloOrDefault(users[winnerUser]);
      var rb := PairRecord.EloOrDefault(users[loserUser]);
      var e := PairRecord.UpdateElo(ra, rb, 1, k, expected(ra, rb));
      var open := Latest(matches, OpenPair(channel, winnerUser, loserUser));
      var id;
      if open.Some? {
        id := open.value;
        matches := matches[id := matches[id].(state := MatchState.Settled, loserScore := Some(ls),
                                              winnerUser := Some(winnerUser), settledAt := Some(now))];
      } else {
        id := |matches|;
        matches := matches + [Match(channel, winnerUser, loserUser, MatchState.Settled, None, None, None, Some(winnerUser),
                                    Some(ls), Some(openedBy), now, Some(now))];
      }
      assert (matches, id) == PairRecord.ResultMatches(old(matches), winnerUser, loserUser, ls, channel, openedBy, now);
      users := users[winnerUser := users[winnerUser].(elo := Some(e.newA), wins := Some(PairRecord.OrZero(users[winnerUser].wins) + 1))];
      users := users[loserUser := users[loserUser].(elo := Some(e.newB), losses := Some(PairRecord.OrZero(users[loserUser].losses) + 1))];
      eloDeltas := eloDeltas + [EloDelta(id, winnerUser, ra, e.newA, e.deltaA, now)];
      eloDeltas := eloDeltas + [EloDelta(id, loserUser, rb, e.newB, e.deltaB, now)];
      assert eloDeltas == old(eloDeltas) + [EloDelta(id, winnerUser, ra, e.newA, e.deltaA, now),
                                            EloDelta(id, loserUser, rb, e.newB, e.deltaB, now)];
      r := Recorded(id, channel, winnerUser, loserUser, ls, EloChange(ra, e.newA, e.deltaA), EloChange(rb, e.newB, e.deltaB));
    }
  }

  /**
   * `findMany` of the match's PENDING bets followed by the two `filter`s
   * and the two `sum`s: the winners' and losers' row positions, in table
   * order, and the total stake of each pool.
   */
  method CollectPools(rows: seq<Bet>, id: nat, side: Side, ls: int)
    returns (winners: seq<nat>, losers: seq<nat>, winnersSum: real, losersSum: real)
    ensures winnersSum == Settlement.Stakes(rows, id, side, ls, true)
    ensures losersSum == Settlement.Stakes(rows, id, side, ls, false)
    ensures |winners| == Settlement.Count(rows, id, side, ls, true)
    ensures |losers| == Settlement.Count(rows, id, side, ls, false)
    ensures forall j :: j in winners <==> 0 <= j < |rows| && Settlement.InPool(rows[j], id, side, ls, true)
    ensures forall j :: j in losers <==> 0 <= j < |rows| && Settlement.InPool(rows[j], id, side, ls, false)
    ensures forall a, b :: 0 <= a < b < |winners| ==> winners[a] < winners[b]
    ensures forall a, b :: 0 <= a < b < |losers| ==> losers[a] < losers[b]
  {
    winners, losers, winnersSum, losersSum := [], [], 0.0, 0.0;
    var i := 0;
    while i < |rows|
      invariant 0 <= i <= |rows|
      invariant PoolSoFar(rows, i, id, side, ls, true, winners, winnersSum)
      invariant PoolSoFar(rows, i, id, side, ls, false, losers, losersSum)
    {
      PoolStep(rows, i, id, side, ls, true, winners, winnersSum);
      PoolStep(rows, i, id, side, ls, false, losers, losersSum);
      var b := rows[i];
      if Settlement.PendingOn(b, id) {
        if Settlement.Exact(b, side, ls) {
          winners := winners + [i];
          winnersSum := winnersSum + b.amount;
        } else {
          losers := losers + [i];
          losersSum := losersSum + b.amount;
        }
      }
      i := i + 1;
    }
    assert rows[..|rows|] == rows;
  }

  /** The indices, in increasing order, and the total stake of one pool among the first `n` rows. */
  ghost predicate PoolSoFar(rows: seq<Bet>, n: nat, id: nat, side: Side, ls: int, win: bool, idx: seq<nat>, sum: real)
    requires n <= |rows|
  {
    && sum == Settlement.Stakes(rows[..n], id, side, ls, win)
    && |idx| == Settlement.Count(rows[..n], id, side, ls, win)
    && (forall j :: j in idx <==> 0 <= j < n && Settlement.InPool(rows[j], id, side, ls, win))
    && (forall a, b :: 0 <= a < b < |idx| ==> idx[a] < idx[b])
    && (forall a :: 0 <= a < |idx| ==> idx[a] < n)
  }

  /** One more row considered: it joins the pool exactly when it belongs to it. */
  lemma PoolStep(rows: seq<Bet>, n: nat, id: nat, side: Side, ls: int, win: bool, idx: seq<nat>, sum: real)
    requires n < |rows| && PoolSoFar(rows, n, id, side, ls, win, idx, sum)
    ensures Settlement.InPool(rows[n], id, side, ls, win) ==> PoolSoFar(rows, n + 1, id, side, ls, win, idx + [n], sum + rows[n].amount)
    ensures !Settlement.InPool(rows[n], id, side, ls, win) ==> PoolSoFar(rows, n + 1, id, side, ls, win, idx, sum)
  {
    assert rows[..n + 1][..n] == rows[..n];
    if Settlement.InPool(rows[n], id, side, ls, win) {
      var idx' := idx + [n];
      assert forall j :: j in idx' <==> j in idx || j == n;
    }
  }
}
