/**
 * The wagering routes `POST /api/bets/current/place` and
 * `POST /api/bets/current/refund`, as functions from the store and the
 * request to the response and the new store. `channel` is the resolved
 * `x-channel-id` header.
 */
module BetRoutes {
  import opened Common
  import opened Ledger

  /** The parts of a bet request the route reads: the `x-username` header and the JSON body's fields. */
  datatype BetRequest = BetRequest(
    header: Option<string>,
    bodyName: Option<string>,
    choice: Json,
    loserScore: Json,
    amount: Json,
    replace: Json)

  /** `(headerUsername || body?.username || '').toString().trim()`, the header already trimmed. */
  function RequestUsername(header: Option<string>, bodyName: Option<string>): string
  {
    var h := match header case Some(x) => Trim(x) case None => "";
    Trim(if h != "" then h else match bodyName case Some(b) => b case None => "")
  }

  predicate ValidChoice(c: Number) { c == Finite(1.0) || c == Finite(2.0) }

  predicate ValidLoserScore(n: Number) { IsInteger(n) && 0.0 <= n.v <= 9.0 }

  predicate ValidAmount(n: Number) { IsFinite(n) && n.v > 0.0 }

  /** Choice 1 predicts `'p1'`, anything else (i.e. 2) `'p2'`. */
  function ChoiceSide(c: Number): Side { if c == Finite(1.0) then P1 else P2 }

  /** The row a replacing request writes over an existing bet; the payout is not touched. */
  function Replaced(b: Bet, side: Side, score: int, amount: real): Bet {
    b.(predictedWinner := side, predictedLoserScore := score, amount := amount, status := BetStatus.Pending)
  }

  /** `POST /api/bets/current/place` */
  function PlaceBet(db: Db, channel: string, req: BetRequest): (Response, Db)
  {
    var username := RequestUsername(req.header, req.bodyName);
    var c, ls, amt := ToNumber(req.choice), ToNumber(req.loserScore), ToNumber(req.amount);
    if username == "" then (Error(400, UsernameRequired), db)
    else if !ValidChoice(c) then (Error(400, ChoiceNotOneOrTwo), db)
    else if !ValidLoserScore(ls) then (Error(400, LoserScoreOutOfRange), db)
    else if !ValidAmount(amt) then (Error(400, AmountNotPositive), db)
    else match FindUser(db.users, username)
      case None => (Error(404, UserNotFound), db)
      case Some(u) => PlaceFor(db, channel, u, ChoiceSide(c), ls.v.Floor, amt.v, Truthy(req.replace))
  }

  /** The part of the place route after the user is resolved. */
  function PlaceFor(db: Db, channel: string, u: nat, side: Side, score: int, amount: real, replace: bool): (Response, Db)
  {
    match Latest(db.matches, InState(channel, MatchState.Open))
    case None => (Error(409, NoOpenMatch), db)
    case Some(m) =>
      match FindBet(db.bets, m, u)
      case Some(k) =>
        if !replace then (Error(409, BetExists), db)
        else (Ok, db.(bets := db.bets[k := Replaced(db.bets[k], side, score, amount)]))
      case None => (Ok, db.(bets := db.bets + [Bet(m, u, side, score, amount, BetStatus.Pending, None)]))
  }

  /** `POST /api/bets/current/refund` */
  function RefundBet(db: Db, channel: string, header: Option<string>, bodyName: Option<string>): (Response, Db)
  {
    var username := RequestUsername(header, bodyName);
    if username == "" then (Error(400, UsernameRequired), db)
    else match FindUser(db.users, username)
      case None => (Error(404, UserNotFound), db)
      case Some(u) => RefundFor(db, channel, u)
  }

  /** The part of the refund route after the user is resolved. */
  function RefundFor(db: Db, channel: string, u: nat): (Response, Db)
  {
    match Latest(db.matches, InState(channel, MatchState.Open))
    case None => (Error(404, NoOpenMatch), db)
    case Some(m) =>
      match FindBet(db.bets, m, u)
      case None => (Error(404, NoBet), db)
      case Some(k) => (Ok, db.(bets := db.bets[k := db.bets[k].(status := BetStatus.Refunded)]))
  }

  // ---------------------------------------------------------------------
  // The username

  /** A non-blank header wins; otherwise the body's username is used, trimmed. */
  lemma UsernameSource(header: Option<string>, bodyName: Option<string>)
    ensures header.Some? && Trim(header.value) != "" ==> RequestUsername(header, bodyName) == Trim(header.value)
    ensures header.None? || Trim(header.value) == "" ==>
      RequestUsername(header, bodyName) == Trim(match bodyName case Some(b) => b case None => "")
  {
    if header.Some? { TrimIdempotent(header.value); }
  }

  // ---------------------------------------------------------------------
  // Placing

  /**
   * The request is rejected with 400, changing nothing, exactly when the
   * username is empty, the choice is not 1 or 2, the loser score is not an
   * integer in 0..9 or the amount is not a finite positive number.
   */
  lemma PlaceValidation(db: Db, channel: string, req: BetRequest)
    ensures var r := PlaceBet(db, channel, req);
      var c, ls, amt := ToNumber(req.choice), ToNumber(req.loserScore), ToNumber(req.amount);
      && (r.0 == Error(400, UsernameRequired) <==> RequestUsername(req.header, req.bodyName) == "")
      && (r.0.Error? && r.0.code == 400 <==>
            RequestUsername(req.header, req.bodyName) == "" || !ValidChoice(c) || !ValidLoserScore(ls) || !ValidAmount(amt))
      && (r.0.Error? ==> r.1 == db)
  {
    var username := RequestUsername(req.header, req.bodyName);
    var c, ls, amt := ToNumber(req.choice), ToNumber(req.loserScore), ToNumber(req.amount);
    var found := FindUser(db.users, username);
    if username != "" && ValidChoice(c) && ValidLoserScore(ls) && ValidAmount(amt) && found.Some? {
      PlaceForCodes(db, channel, found.value, ChoiceSide(c), ls.v.Floor, amt.v, Truthy(req.replace));
    }
  }

  /** Once the user is resolved the only errors are 409 conflicts, and they change nothing. */
  lemma PlaceForCodes(db: Db, channel: string, u: nat, side: Side, score: int, amount: real, replace: bool)
    ensures var r := PlaceFor(db, channel, u, side, score, amount, replace);
            (r.0.Error? ==> r.0.code == 409 && r.1 == db)
  {
  }

  /** The amount need not be whole: any positive JSON number is a valid stake, 0 and a missing amount are not. */
  lemma FractionalAmountAccepted(x: real)
    requires x > 0.0
    ensures ValidAmount(ToNumber(Num(x)))
    ensures !ValidAmount(ToNumber(Num(0.0))) && !ValidAmount(ToNumber(Missing)) && !ValidAmount(ToNumber(Null))
  {
  }

  /**
   * A valid request of a known user meets 409 exactly when the channel has
   * no OPEN match, so a LOCKED match accepts no bets.
   */
  lemma PlaceNeedsOpenMatch(db: Db, channel: string, u: nat, side: Side, score: int, amount: real, replace: bool)
    ensures var r := PlaceFor(db, channel, u, side, score, amount, replace);
      && (r.0 == Error(409, NoOpenMatch) <==>
            forall j :: 0 <= j < |db.matches| ==> !(db.matches[j].channel == channel && db.matches[j].state == MatchState.Open))
      && (r.0.Error? ==> r.1 == db)
  {
  }

  /** After validation, the place route is `PlaceFor` on the resolved user, side, score and amount. */
  lemma PlaceResolved(db: Db, channel: string, req: BetRequest)
    requires !PlaceBet(db, channel, req).0.Error? || PlaceBet(db, channel, req).0.code == 409
    ensures var username := RequestUsername(req.header, req.bodyName);
      var c, ls, amt := ToNumber(req.choice), ToNumber(req.loserScore), ToNumber(req.amount);
      && username != "" && ValidChoice(c) && ValidLoserScore(ls) && ValidAmount(amt)
      && FindUser(db.users, username).Some?
      && PlaceBet(db, channel, req)
         == PlaceFor(db, channel, FindUser(db.users, username).value, ChoiceSide(c), ls.v.Floor, amt.v, Truthy(req.replace))
  {
  }

  /** An existing bet without `replace` is a 409 conflict and the bet is unchanged. */
  lemma PlaceConflict(db: Db, channel: string, u: nat, side: Side, score: int, amount: real)
    requires Latest(db.matches, InState(channel, MatchState.Open)).Some?
    requires FindBet(db.bets, Latest(db.matches, InState(channel, MatchState.Open)).value, u).Some?
    ensures PlaceFor(db, channel, u, side, score, amount, false) == (Error(409, BetExists), db)
  {
  }

  /**
   * With `replace` and an existing bet, that same row gets the new
   * prediction and amount and status PENDING (reviving a REFUNDED or
   * SETTLED bet), keeps its payout, and no row is added.
   */
  lemma PlaceReplaces(db: Db, channel: string, u: nat, side: Side, score: int, amount: real)
    requires Latest(db.matches, InState(channel, MatchState.Open)).Some?
    requires FindBet(db.bets, Latest(db.matches, InState(channel, MatchState.Open)).value, u).Some?
    ensures var m := Latest(db.matches, InState(channel, MatchState.Open)).value;
      var k := FindBet(db.bets, m, u).value;
      var (r, db') := PlaceFor(db, channel, u, side, score, amount, true);
      && r == Ok
      && |db'.bets| == |db.bets|
      && db'.bets[k].matchId == m && db'.bets[k].userId == u
      && db'.bets[k].predictedWinner == side && db'.bets[k].predictedLoserScore == score
      && db'.bets[k].amount == amount && db'.bets[k].status == BetStatus.Pending
      && db'.bets[k].payout == db.bets[k].payout
      && (forall j :: 0 <= j < |db.bets| && j != k ==> db'.bets[j] == db.bets[j])
      && db'.users == db.users && db'.matches == db.matches && db'.eloDeltas == db.eloDeltas
  {
  }

  /** With no existing bet a new PENDING bet with no payout is appended, whatever `replace` is. */
  lemma PlaceCreates(db: Db, channel: string, u: nat, side: Side, score: int, amount: real, replace: bool)
    requires Latest(db.matches, InState(channel, MatchState.Open)).Some?
    requires FindBet(db.bets, Latest(db.matches, InState(channel, MatchState.Open)).value, u).None?
    ensures var m := Latest(db.matches, InState(channel, MatchState.Open)).value;
      var (r, db') := PlaceFor(db, channel, u, side, score, amount, replace);
      && r == Ok
      && db'.bets == db.bets + [Bet(m, u, side, score, amount, BetStatus.Pending, None)]
      && db'.users == db.users && db'.matches == db.matches && db'.eloDeltas == db.eloDeltas
  {
  }

  /** Choice 1 is stored as `'p1'` and choice 2 as `'p2'`. */
  lemma ChoiceMapping()
    ensures ChoiceSide(ToNumber(Num(1.0))) == P1 && ChoiceSide(ToNumber(Num(2.0))) == P2
    ensures ValidChoice(ToNumber(Num(1.0))) && ValidChoice(ToNumber(Num(2.0))) && !ValidChoice(ToNumber(Num(3.0)))
  {
  }

  /** Placing keeps at most one bet per (match, user) and every reference valid. */
  lemma PlaceKeepsWellFormed(db: Db, channel: string, u: nat, side: Side, score: int, amount: real, replace: bool)
    requires WellFormed(db) && u < |db.users|
    ensures WellFormed(PlaceFor(db, channel, u, side, score, amount, replace).1)
  {
    var db' := PlaceFor(db, channel, u, side, score, amount, replace).1;
    var l := Latest(db.matches, InState(channel, MatchState.Open));
    if l.Some? && FindBet(db.bets, l.value, u).None? {
      var bs' := db'.bets;
      assert forall j :: 0 <= j < |db.bets| ==> bs'[j] == db.bets[j];
      assert forall i, j :: 0 <= i < j < |bs'| ==> !(bs'[i].matchId == bs'[j].matchId && bs'[i].userId == bs'[j].userId);
    }
  }

  /** Replaying an identical replacing request leaves the store as the first request left it. */
  lemma PlaceReplayIdempotent(db: Db, channel: string, u: nat, side: Side, score: int, amount: real)
    ensures var r1 := PlaceFor(db, channel, u, side, score, amount, true);
      r1.0 == Ok ==> PlaceFor(r1.1, channel, u, side, score, amount, true) == r1
  {
    var r1 := PlaceFor(db, channel, u, side, score, amount, true);
    var l := Latest(db.matches, InState(channel, MatchState.Open));
    if l.Some? {
      var m := l.value;
      assert r1.1.matches == db.matches;
      match FindBet(db.bets, m, u)
      case Some(k) =>
        ReplaceTwice(db, m, u, k, side, score, amount);
      case None =>
        AppendThenReplace(db, m, u, side, score, amount);
    }
  }

  /** A replaced row, replaced again with the same values, stays as it is. */
  lemma ReplaceTwice(db: Db, m: nat, u: nat, k: nat, side: Side, score: int, amount: real)
    requires FindBet(db.bets, m, u) == Some(k)
    ensures var bs := db.bets[k := Replaced(db.bets[k], side, score, amount)];
            FindBet(bs, m, u) == Some(k) && bs[k := Replaced(bs[k], side, score, amount)] == bs
  {
    FindBetAfterUpdate(db.bets, m, u, k, Replaced(db.bets[k], side, score, amount));
  }

  /** An appended row, replaced with the values it was created with, stays as it is. */
  lemma AppendThenReplace(db: Db, m: nat, u: nat, side: Side, score: int, amount: real)
    requires FindBet(db.bets, m, u).None?
    ensures var b := Bet(m, u, side, score, amount, BetStatus.Pending, None);
            var bs := db.bets + [b];
            FindBet(bs, m, u) == Some(|db.bets|) && bs[|db.bets| := Replaced(bs[|db.bets|], side, score, amount)] == bs
  {
    var b := Bet(m, u, side, score, amount, BetStatus.Pending, None);
    FindBetAfterAppend(db.bets, m, u, b);
  }

  /** Overwriting the first matching row with another row for the same pair keeps it the first. */
  lemma {:induction false} FindBetAfterUpdate(bs: seq<Bet>, m: nat, u: nat, k: nat, b: Bet)
    requires FindBet(bs, m, u) == Some(k)
    requires b.matchId == m && b.userId == u
    ensures FindBet(bs[k := b], m, u) == Some(k)
    decreases |bs|
  {
    var n := |bs| - 1;
    var bs' := bs[k := b];
    assert bs'[..n] == if k < n then bs[..n][k := b] else bs[..n];
    if k < n {
      if bs[n].matchId == m && bs[n].userId == u {
        FindBetAfterUpdate(bs[..n], m, u, k, b);
      } else {
        FindBetAfterUpdate(bs[..n], m, u, k, b);
      }
    }
  }

  /** Appending a row for a pair that had none makes the new row the one found. */
  lemma FindBetAfterAppend(bs: seq<Bet>, m: nat, u: nat, b: Bet)
    requires FindBet(bs, m, u).None?
    requires b.matchId == m && b.userId == u
    ensures FindBet(bs + [b], m, u) == Some(|bs|)
  {
    assert (bs + [b])[..|bs|] == bs;
  }

  // ---------------------------------------------------------------------
  // Refunds

  /** The refund's error cases, in the order the route checks them; none of them changes anything. */
  lemma RefundErrors(db: Db, channel: string, header: Option<string>, bodyName: Option<string>)
    ensures var username := RequestUsername(header, bodyName);
      var r := RefundBet(db, channel, header, bodyName);
      && (r.0 == Error(400, UsernameRequired) <==> username == "")
      && (username != "" ==> (r.0 == Error(404, UserNotFound) <==> FindUser(db.users, username).None?))
      && (r.0.Error? ==> r.1 == db)
  {
    var username := RequestUsername(header, bodyName);
    var found := FindUser(db.users, username);
    if username != "" && found.Some? {
      RefundForCodes(db, channel, found.value);
    }
  }

  /** After the user is resolved, the refund route is `RefundFor` on that user. */
  lemma RefundResolved(db: Db, channel: string, header: Option<string>, bodyName: Option<string>)
    requires RequestUsername(header, bodyName) != "" && FindUser(db.users, RequestUsername(header, bodyName)).Some?
    ensures RefundBet(db, channel, header, bodyName) == RefundFor(db, channel, FindUser(db.users, RequestUsername(header, bodyName)).value)
  {
  }

  /** Once the user is resolved the only errors are 404s for a missing match or bet, and they change nothing. */
  lemma RefundForCodes(db: Db, channel: string, u: nat)
    ensures var r := RefundFor(db, channel, u);
            (r.0.Error? ==> r.0.code == 404 && (r.0.reason == NoOpenMatch || r.0.reason == NoBet) && r.1 == db)
  {
  }

  /**
   * Bets can only be refunded on the channel's OPEN match: without one the
   * answer is 404, and so it is when the user has no bet on it.
   */
  lemma RefundNeedsOpenBet(db: Db, channel: string, u: nat)
    ensures var r := RefundFor(db, channel, u);
      var l := Latest(db.matches, InState(channel, MatchState.Open));
      && (r.0 == Error(404, NoOpenMatch) <==> l.None?)
      && (r.0 == Error(404, NoBet) <==> l.Some? && FindBet(db.bets, l.value, u).None?)
      && (r.0.Error? ==> r.1 == db)
  {
  }

  /** Only the status of the user's bet on the OPEN match changes, to REFUNDED. */
  lemma RefundEffect(db: Db, channel: string, u: nat)
    requires RefundFor(db, channel, u).0.Ok?
    ensures var m := Latest(db.matches, InState(channel, MatchState.Open)).value;
      var k := FindBet(db.bets, m, u).value;
      var db' := RefundFor(db, channel, u).1;
      && |db'.bets| == |db.bets|
      && db'.bets[k] == db.bets[k].(status := BetStatus.Refunded)
      && (forall j :: 0 <= j < |db.bets| && j != k ==> db'.bets[j] == db.bets[j])
      && db'.users == db.users && db'.matches == db.matches && db'.eloDeltas == db.eloDeltas
  {
  }

  /** A second identical refund answers the same and changes nothing more. */
  lemma RefundIdempotent(db: Db, channel: string, u: nat)
    ensures var r1 := RefundFor(db, channel, u);
      RefundFor(r1.1, channel, u) == r1
  {
    var r1 := RefundFor(db, channel, u);
    if r1.0.Ok? {
      var m := Latest(db.matches, InState(channel, MatchState.Open)).value;
      var k := FindBet(db.bets, m, u).value;
      FindBetAfterUpdate(db.bets, m, u, k, db.bets[k].(status := BetStatus.Refunded));
      var bs := r1.1.bets;
      assert bs[k := bs[k].(status := BetStatus.Refunded)] == bs;
    }
  }

  /** Refunding keeps the store well formed. */
  lemma RefundKeepsWellFormed(db: Db, channel: string, u: nat)
    requires WellFormed(db)
    ensures WellFormed(RefundFor(db, channel, u).1)
  {
  }
}
