/**
 * The two read-only views of the current match: the `GET
 * /api/matches/current` snapshot and the `currentOpenMatch` helper of
 * `_util.ts`. They total the stakes per side differently: the snapshot
 * counts bets in every status, the helper only bets in status PLACED,
 * which the place route never writes.
 */
module Snapshots {
  import opened Common
  import opened Ledger
  import BetRoutes
  import Settlement

  /** The stake on `side` of match `id`, over bets in every status. */
  function SideStake(bs: seq<Bet>, id: nat, side: Side): real
  {
    if bs == [] then 0.0
    else SideStake(bs[..|bs| - 1], id, side)
         + (var b := bs[|bs| - 1]; if b.matchId == id && b.predictedWinner == side then b.amount else 0.0)
  }

  /** All the stake on match `id`. */
  function MatchStake(bs: seq<Bet>, id: nat): real
  {
    if bs == [] then 0.0
    else MatchStake(bs[..|bs| - 1], id) + (if bs[|bs| - 1].matchId == id then bs[|bs| - 1].amount else 0.0)
  }

  /** The stake on `side` of match `id`, over bets in status PLACED only. */
  function PlacedStake(bs: seq<Bet>, id: nat, side: Side): real
  {
    if bs == [] then 0.0
    else PlacedStake(bs[..|bs| - 1], id, side)
         + (var b := bs[|bs| - 1];
            if b.matchId == id && b.status == BetStatus.Placed && b.predictedWinner == side then b.amount else 0.0)
  }

  // ---------------------------------------------------------------------
  // GET /api/matches/current

  datatype Snapshot = Snapshot(
    matchId: nat,
    channel: string,
    state: MatchState,
    p1: Option<string>,
    p2: Option<string>,
    scoreP1: int,
    scoreP2: int,
    totalP1: real,
    totalP2: real,
    openedAt: int)

  /** `findUnique` of a user by id: its name, or nothing for a dangling id. */
  function UserName(us: seq<User>, id: nat): Option<string> {
    if id < |us| then Some(us[id].username) else None
  }

  /** The snapshot of the channel's latest OPEN or LOCKED match; `None` is `{ match: null }`. */
  function Current(db: Db, channel: string): (r: Option<Snapshot>)
  {
    match Latest(db.matches, Active(channel))
    case None => None
    case Some(i) =>
      var m := db.matches[i];
      Some(Snapshot(i, m.channel, m.state, UserName(db.users, m.p1), UserName(db.users, m.p2),
                    match m.scoreP1 case Some(s) => s case None => 0,
                    match m.scoreP2 case Some(s) => s case None => 0,
                    SideStake(db.bets, i, P1), SideStake(db.bets, i, P2), m.openedAt))
  }

  /** The snapshot is `null` exactly when the channel has no OPEN or LOCKED match, and otherwise shows the latest one. */
  lemma CurrentSelection(db: Db, channel: string)
    ensures Current(db, channel).None? <==>
      forall j :: 0 <= j < |db.matches| ==> !(db.matches[j].channel == channel && db.matches[j].state != MatchState.Settled)
    ensures Current(db, channel).Some? ==>
      var s := Current(db, channel).value;
      && s.matchId < |db.matches| && s.channel == channel && s.state != MatchState.Settled
      && (forall j :: s.matchId < j < |db.matches| ==> !(db.matches[j].channel == channel && db.matches[j].state != MatchState.Settled))
      && (db.matches[s.matchId].scoreP1.None? ==> s.scoreP1 == 0)
      && (db.matches[s.matchId].scoreP2.None? ==> s.scoreP2 == 0)
      && (db.matches[s.matchId].scoreP1.Some? ==> s.scoreP1 == db.matches[s.matchId].scoreP1.value)
      && (db.matches[s.matchId].scoreP2.Some? ==> s.scoreP2 == db.matches[s.matchId].scoreP2.value)
  {
  }

  /** The two side totals add up to the whole stake on the match; with no bets both are 0. */
  lemma {:induction false} SideStakesSplit(bs: seq<Bet>, id: nat)
    ensures SideStake(bs, id, P1) + SideStake(bs, id, P2) == MatchStake(bs, id)
  {
    if bs != [] {
      SideStakesSplit(bs[..|bs| - 1], id);
    }
  }

  /** The side totals ignore status: changing a bet's status leaves them as they were. */
  lemma {:induction false} SideStakeIgnoresStatus(bs: seq<Bet>, j: nat, st: BetStatus, id: nat, side: Side)
    requires j < |bs|
    ensures SideStake(bs[j := bs[j].(status := st)], id, side) == SideStake(bs, id, side)
    decreases |bs|
  {
    var bs' := bs[j := bs[j].(status := st)];
    if j < |bs| - 1 {
      assert bs'[..|bs| - 1] == bs[..|bs| - 1][j := bs[j].(status := st)];
      SideStakeIgnoresStatus(bs[..|bs| - 1], j, st, id, side);
    } else {
      assert bs'[..|bs| - 1] == bs[..|bs| - 1];
    }
  }

  /** A refund (a status change) does not change the snapshot's totals. */
  lemma RefundKeepsSnapshotTotals(db: Db, channel: string, u: nat)
    ensures var db' := BetRoutes.RefundFor(db, channel, u).1;
      forall id: nat, side: Side :: SideStake(db'.bets, id, side) == SideStake(db.bets, id, side)
  {
    var r := BetRoutes.RefundFor(db, channel, u);
    if r.0.Ok? {
      var m := Latest(db.matches, InState(channel, MatchState.Open)).value;
      var k := FindBet(db.bets, m, u).value;
      forall id: nat, side: Side
        ensures SideStake(r.1.bets, id, side) == SideStake(db.bets, id, side)
      {
        SideStakeIgnoresStatus(db.bets, k, BetStatus.Refunded, id, side);
      }
    }
  }

  // ---------------------------------------------------------------------
  // currentOpenMatch in _util.ts

  /** What `currentOpenMatch` returns or throws. */
  datatype OpenTotals =
    | Totals(matchId: nat, p1: real, p2: real)
    | ThrowsChannelRequired   // "channelId required"
    | ThrowsNoOpenMatch       // "No OPEN match"

  /** The helper's result, as a function of the store and the channel argument. */
  function OpenTotalsOf(db: Db, channelId: Option<string>): OpenTotals
  {
    if channelId.None? || channelId.value == "" then ThrowsChannelRequired
    else match Latest(db.matches, InState(channelId.value, MatchState.Open))
      case None => ThrowsNoOpenMatch
      case Some(i) => Totals(i, PlacedStake(db.bets, i, P1), PlacedStake(db.bets, i, P2))
  }

  /** `currentOpenMatch(channelId)`: the PLACED bets of the OPEN match folded into per-side totals. */
  method CurrentOpenMatch(db: Db, channelId: Option<string>) returns (r: OpenTotals)
    ensures r == OpenTotalsOf(db, channelId)
  {
    if channelId.None? || channelId.value == "" {
      return ThrowsChannelRequired;
    }
    var found := Latest(db.matches, InState(channelId.value, MatchState.Open));
    if found.None? {
      return ThrowsNoOpenMatch;
    }
    var id := found.value;
    var p1, p2 := 0.0, 0.0;
    var i := 0;
    while i < |db.bets|
      invariant 0 <= i <= |db.bets|
      invariant p1 == PlacedStake(db.bets[..i], id, P1)
      invariant p2 == PlacedStake(db.bets[..i], id, P2)
    {
      var b := db.bets[i];
      assert db.bets[..i + 1][..i] == db.bets[..i];
      if b.matchId == id && b.status == BetStatus.Placed {
        if b.predictedWinner == P1 {
          p1 := p1 + b.amount;
        } else {
          p2 := p2 + b.amount;
        }
      }
      i := i + 1;
    }
    assert db.bets[..|db.bets|] == db.bets;
    return Totals(id, p1, p2);
  }

  /** The helper throws for a missing or empty channel and when the channel has no OPEN match. */
  lemma OpenTotalsThrows(db: Db, channelId: Option<string>)
    ensures OpenTotalsOf(db, channelId) == ThrowsChannelRequired <==> channelId.None? || channelId.value == ""
    ensures channelId.Some? && channelId.value != "" ==>
      (OpenTotalsOf(db, channelId) == ThrowsNoOpenMatch <==>
         forall j :: 0 <= j < |db.matches| ==> !(db.matches[j].channel == channelId.value && db.matches[j].state == MatchState.Open))
  {
  }

  /** The stake of the PLACED bets on match `id`, whatever side they predict. */
  function PlacedTotal(bs: seq<Bet>, id: nat): real
  {
    if bs == [] then 0.0
    else PlacedTotal(bs[..|bs| - 1], id)
         + (var b := bs[|bs| - 1]; if b.matchId == id && b.status == BetStatus.Placed then b.amount else 0.0)
  }

  /** Each counted stake goes to exactly one side: p1 + p2 is the PLACED stake on the match. */
  lemma {:induction false} PlacedStakesSplit(bs: seq<Bet>, id: nat)
    ensures PlacedStake(bs, id, P1) + PlacedStake(bs, id, P2) == PlacedTotal(bs, id)
  {
    if bs != [] {
      PlacedStakesSplit(bs[..|bs| - 1], id);
    }
  }

  /** Bets in status PENDING, REFUNDED or SETTLED add nothing to the helper's totals. */
  lemma {:induction false} NoPlacedNoTotals(bs: seq<Bet>, id: nat, side: Side)
    requires forall j :: 0 <= j < |bs| ==> bs[j].status != BetStatus.Placed
    ensures PlacedStake(bs, id, side) == 0.0
  {
    if bs != [] {
      NoPlacedNoTotals(bs[..|bs| - 1], id, side);
    }
  }

  ghost predicate NoPlaced(bs: seq<Bet>) {
    forall j :: 0 <= j < |bs| ==> bs[j].status != BetStatus.Placed
  }

  /**
   * Placing, refunding and settling never produce a PLACED bet, so in a
   * store that starts without one the helper's totals stay 0 on every match.
   */
  lemma RoutesNeverWritePlaced(db: Db, channel: string, u: nat, side: Side, score: int, amount: real, replace: bool,
                               id: nat, wside: Side, ls: int)
    requires NoPlaced(db.bets)
    ensures NoPlaced(BetRoutes.PlaceFor(db, channel, u, side, score, amount, replace).1.bets)
    ensures NoPlaced(BetRoutes.RefundFor(db, channel, u).1.bets)
    ensures NoPlaced(Settlement.SettleBets(db.bets, id, wside, ls))
  {
  }
}
