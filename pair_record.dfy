/**
 * The pair-based result route `POST /api/matches/record`: p1 beat p2 with
 * the given loser score. It settles the pair's OPEN match in the channel
 * (or creates a settled one), moves both ratings by the Elo rule, counts
 * the win and the loss and appends two audit rows. Bets are not touched.
 *
 * The expected score `1 / (1 + 10^((rB - rA) / 400))` is floating-point
 * arithmetic; it enters the model as a function parameter.
 */
module PairRecord {
  import opened Common
  import opened Ledger

  /** The result of `updateElo`. */
  datatype EloResult = EloResult(newA: int, newB: int, deltaA: int, deltaB: int)

  /** `updateElo(ra, rb, scoreA, K)`, `ea` being `expectedScore(ra, rb)`. */
  function UpdateElo(ra: int, rb: int, scoreA: int, k: real, ea: real): EloResult
  {
    var d := k * (scoreA as real - ea);
    var newA := Round(ra as real + d);
    var newB := Round(rb as real - d);
    EloResult(newA, newB, Round((newA - ra) as real), Round((newB - rb) as real))
  }

  /** `Math.max(0, Math.min(9, Math.floor(Number(loserScore))))`; NaN survives the clamp and is `None`. */
  function ClampLoserScore(n: Number): Option<int>
  {
    match n
    case NaN => None
    case PosInf => Some(9)
    case NegInf => Some(0)
    case Finite(v) => Some(if v.Floor < 0 then 0 else if v.Floor > 9 then 9 else v.Floor)
  }

  /** The parts of the request body the route reads; `None` is an absent field. */
  datatype RecordRequest = RecordRequest(
    p1: Json,
    p2: Json,
    loserScore: Json,
    openedBy: Option<string>,
    channelId: Option<string>)

  /** `[!u1 ? p1 : null, !u2 ? p2 : null].filter(Boolean).join(", ")` */
  function MissingNames(a: string, b: string, u1: Option<nat>, u2: Option<nat>): string
  {
    if u1.None? && u2.None? then a + ", " + b
    else if u1.None? then a
    else if u2.None? then b
    else ""
  }

  function EloOrDefault(u: User): int {
    match u.elo case Some(e) => e case None => 1200
  }

  function OrZero(n: Option<int>): int {
    match n case Some(x) => x case None => 0
  }

  /** `POST /api/matches/record`; `k` is `ELO_K` (32 by default) and `expected` is `expectedScore`. */
  function RecordPair(db: Db, req: RecordRequest, k: real, expected: (int, int) -> real, now: int): (Response, Db)
  {
    if !Truthy(req.p1) || !Truthy(req.p2) || req.loserScore == Missing || req.loserScore == Null then
      (Error(400, MissingFields), db)
    else if !req.p1.Str? || !req.p2.Str? then (Error(400, PlayersNotStrings), db)
    else
      var a, b := Trim(req.p1.s), Trim(req.p2.s);
      if a == "" || b == "" || EqualsIgnoreCase(a, b) then (Error(400, InvalidPlayers), db)
      else
        var channel := match req.channelId case Some(c) => c case None => "discord";
        var openedBy := match req.openedBy case Some(o) => o case None => "discord:unknown";
        RecordResolved(db, a, b, ClampLoserScore(ToNumber(req.loserScore)), channel, openedBy, k, expected, now)
  }

  /** The route after validation, on the trimmed names and the clamped loser score. */
  function RecordResolved(db: Db, a: string, b: string, ls: Option<int>, channel: string, openedBy: string,
                          k: real, expected: (int, int) -> real, now: int): (r: (Response, Db))
    requires !EqualsIgnoreCase(a, b)
    ensures r.0.Error? ==> r.0.code == 404 || r.0.code == 500
  {
    var u1, u2 := FindUser(db.users, a), FindUser(db.users, b);
    if u1.None? || u2.None? then (Error(404, UnknownUsers(MissingNames(a, b, u1, u2))), db)
    else if ls.None? then (Error(500, RejectedWrite), db)
    else
      DistinctNamesDistinctUsers(db.users, a, b);
      RecordSettle(db, u1.value, u2.value, ls.value, channel, openedBy, k, expected, now)
  }

  /** The reused OPEN match of the pair settled in favour of `w`, or a new settled match. */
  function ResultMatches(ms: seq<Match>, w: nat, l: nat, ls: int, channel: string, openedBy: string, now: int): (seq<Match>, nat)
  {
    match Latest(ms, OpenPair(channel, w, l))
    case Some(i) =>
      (ms[i := ms[i].(state := MatchState.Settled, loserScore := Some(ls), winnerUser := Some(w), settledAt := Some(now))], i)
    case None =>
      (ms + [Match(channel, w, l, MatchState.Settled, None, None, None, Some(w), Some(ls), Some(openedBy), now, Some(now))], |ms|)
  }

  /** The transaction: the match, the two user rows and the two audit rows. */
  function RecordSettle(db: Db, w: nat, l: nat, ls: int, channel: string, openedBy: string,
                        k: real, expected: (int, int) -> real, now: int): (Response, Db)
    requires w < |db.users| && l < |db.users| && w != l
  {
    var ra, rb := EloOrDefault(db.users[w]), EloOrDefault(db.users[l]);
    var e := UpdateElo(ra, rb, 1, k, expected(ra, rb));
    var (ms, id) := ResultMatches(db.matches, w, l, ls, channel, openedBy, now);
    var us := db.users[w := db.users[w].(elo := Some(e.newA), wins := Some(OrZero(db.users[w].wins) + 1))];
    var us := us[l := us[l].(elo := Some(e.newB), losses := Some(OrZero(us[l].losses) + 1))];
    var audit := [EloDelta(id, w, ra, e.newA, e.deltaA, now), EloDelta(id, l, rb, e.newB, e.deltaB, now)];
    (Recorded(id, channel, w, l, ls, EloChange(ra, e.newA, e.deltaA), EloChange(rb, e.newB, e.deltaB)),
     Db(us, ms, db.bets, db.eloDeltas + audit))
  }

  // ---------------------------------------------------------------------
  // Elo

  /** The recorded deltas are the actual changes: newA = round(ra + d), newB = round(rb - d). */
  lemma EloDeltasAreChanges(ra: int, rb: int, scoreA: int, k: real, ea: real)
    ensures var e := UpdateElo(ra, rb, scoreA, k, ea);
      var d := k * (scoreA as real - ea);
      && e.newA == ra + Round(d) && e.newB == rb + Round(-d)
      && e.deltaA == e.newA - ra && e.deltaB == e.newB - rb
  {
    var d := k * (scoreA as real - ea);
    RoundInt(ra, d);
    RoundInt(rb, -d);
    var e := UpdateElo(ra, rb, scoreA, k, ea);
    RoundInt(e.newA - ra, 0.0);
    RoundInt(e.newB - rb, 0.0);
  }

  /** A win with a non-negative K and an expected score in [0, 1] never lowers the winner or raises the loser. */
  lemma WinnerGainsLoserLoses(ra: int, rb: int, k: real, ea: real)
    requires k >= 0.0 && 0.0 <= ea <= 1.0
    ensures UpdateElo(ra, rb, 1, k, ea).deltaA >= 0
    ensures UpdateElo(ra, rb, 1, k, ea).deltaB <= 0
  {
    EloDeltasAreChanges(ra, rb, 1, k, ea);
    var d := k * (1.0 - ea);
    assert d >= 0.0;
  }

  /**
   * Rating is conserved up to rounding: the two deltas cancel, except when
   * the raw change lies exactly half-way between two integers, where the
   * upward rounding of both gives the pair one extra point.
   */
  lemma EloNearlyZeroSum(ra: int, rb: int, scoreA: int, k: real, ea: real)
    ensures var e := UpdateElo(ra, rb, scoreA, k, ea);
      var d := k * (scoreA as real - ea);
      e.deltaA + e.deltaB == (if (d + 0.5).Floor as real == d + 0.5 then 1 else 0)
  {
    EloDeltasAreChanges(ra, rb, scoreA, k, ea);
    var d := k * (scoreA as real - ea);
    var x := d + 0.5;
    assert Round(-d) == (1.0 - x).Floor;
    if x.Floor as real == x {
      assert (1.0 - x).Floor == 1 - x.Floor;
    } else {
      assert (1.0 - x).Floor == -x.Floor;
    }
  }

  /** Two 1200-rated players, K = 32, expected score 0.5: the winner goes to 1216 and the loser to 1184. */
  lemma EloExample()
    ensures UpdateElo(1200, 1200, 1, 32.0, 0.5) == EloResult(1216, 1184, 16, -16)
  {
    assert Round(1216.0) == 1216;
    assert Round(1184.0) == 1184;
    assert Round(16.0) == 16;
    assert Round(-16.0) == -16;
  }

  // ---------------------------------------------------------------------
  // Validation

  /** The loser score is clamp(floor(n), 0, 9); a NaN is the only value left without a score. */
  lemma ClampLoserScoreRange(n: Number)
    ensures ClampLoserScore(n).None? <==> n == NaN
    ensures ClampLoserScore(n).Some? ==> 0 <= ClampLoserScore(n).value <= 9
    ensures n.Finite? && 0.0 <= n.v < 10.0 ==> ClampLoserScore(n) == Some(n.v.Floor)
    ensures n.Finite? && n.v < 0.0 ==> ClampLoserScore(n) == Some(0)
    ensures n.Finite? && n.v >= 10.0 ==> ClampLoserScore(n) == Some(9)
  {
  }

  /** A missing or falsy name, or an absent or null loser score, gives 400 and changes nothing. */
  lemma RecordMissingFields(db: Db, req: RecordRequest, k: real, expected: (int, int) -> real, now: int)
    ensures var r := RecordPair(db, req, k, expected, now);
      && (r.0 == Error(400, MissingFields) <==>
            !Truthy(req.p1) || !Truthy(req.p2) || req.loserScore == Missing || req.loserScore == Null)
      && (r.0.Error? ==> r.1 == db)
  {
  }

  /** Present names that are not both strings give 400. */
  lemma RecordNamesNotStrings(db: Db, req: RecordRequest, k: real, expected: (int, int) -> real, now: int)
    requires Truthy(req.p1) && Truthy(req.p2) && req.loserScore != Missing && req.loserScore != Null
    ensures RecordPair(db, req, k, expected, now).0 == Error(400, PlayersNotStrings) <==> !req.p1.Str? || !req.p2.Str?
  {
  }

  /** String names that trim to empty or are equal ignoring case give 400. */
  lemma RecordInvalidPlayers(db: Db, req: RecordRequest, k: real, expected: (int, int) -> real, now: int)
    requires Truthy(req.p1) && Truthy(req.p2) && req.loserScore != Missing && req.loserScore != Null
    requires req.p1.Str? && req.p2.Str?
    ensures RecordPair(db, req, k, expected, now).0 == Error(400, InvalidPlayers)
            <==> Trim(req.p1.s) == "" || Trim(req.p2.s) == "" || EqualsIgnoreCase(Trim(req.p1.s), Trim(req.p2.s))
  {
    var a, b := Trim(req.p1.s), Trim(req.p2.s);
    if a == "" || b == "" || EqualsIgnoreCase(a, b) {
      assert RecordPair(db, req, k, expected, now).0 == Error(400, InvalidPlayers);
    } else {
      var channel := match req.channelId case Some(c) => c case None => "discord";
      var openedBy := match req.openedBy case Some(o) => o case None => "discord:unknown";
      var r := RecordResolved(db, a, b, ClampLoserScore(ToNumber(req.loserScore)), channel, openedBy, k, expected, now);
      assert RecordPair(db, req, k, expected, now) == r;
      ResolvedNot400(db, a, b, ClampLoserScore(ToNumber(req.loserScore)), channel, openedBy, k, expected, now);
    }
  }

  lemma ResolvedNot400(db: Db, a: string, b: string, ls: Option<int>, channel: string, openedBy: string,
                       k: real, expected: (int, int) -> real, now: int)
    requires !EqualsIgnoreCase(a, b)
    ensures RecordResolved(db, a, b, ls, channel, openedBy, k, expected, now).0 != Error(400, InvalidPlayers)
  {
    var r := RecordResolved(db, a, b, ls, channel, openedBy, k, expected, now);
    assert r.0.Error? ==> r.0.code != 400;
  }

  /** Past validation the route works on the trimmed names, the clamped score and the defaulted channel and opener. */
  lemma RecordValidated(db: Db, req: RecordRequest, k: real, expected: (int, int) -> real, now: int)
    requires RecordPair(db, req, k, expected, now).0.Error? ==> RecordPair(db, req, k, expected, now).0.code != 400
    ensures req.p1.Str? && req.p2.Str?
    ensures var a, b := Trim(req.p1.s), Trim(req.p2.s);
      && a != "" && b != "" && !EqualsIgnoreCase(a, b)
      && RecordPair(db, req, k, expected, now)
         == RecordResolved(db, a, b, ClampLoserScore(ToNumber(req.loserScore)),
                           match req.channelId case Some(c) => c case None => "discord",
                           match req.openedBy case Some(o) => o case None => "discord:unknown", k, expected, now)
  {
  }

  /** Two names that differ ignoring case never resolve to the same user. */
  lemma DistinctNamesDistinctUsers(us: seq<User>, a: string, b: string)
    requires !EqualsIgnoreCase(a, b)
    requires FindUser(us, a).Some? && FindUser(us, b).Some?
    ensures FindUser(us, a).value != FindUser(us, b).value
  {
  }

  /** Unknown users give 404, naming those missing, and nothing is written; a NaN score is refused by the store. */
  lemma RecordUnknownUsers(db: Db, a: string, b: string, ls: Option<int>, channel: string, openedBy: string,
                           k: real, expected: (int, int) -> real, now: int)
    requires !EqualsIgnoreCase(a, b)
    ensures var u1, u2 := FindUser(db.users, a), FindUser(db.users, b);
      var r := RecordResolved(db, a, b, ls, channel, openedBy, k, expected, now);
      && (r.0.Error? && r.0.code == 404 <==> u1.None? || u2.None?)
      && (r.0.Error? && r.0.code == 404 ==> r.0.reason == UnknownUsers(MissingNames(a, b, u1, u2)))
      && (u1.Some? && u2.Some? ==> (r.0 == Error(500, RejectedWrite) <==> ls.None?))
      && (r.0.Error? ==> r.1 == db)
  {
  }

  /** Both names missing are listed in order, separated by a comma. */
  lemma MissingNamesBoth(a: string, b: string)
    ensures MissingNames(a, b, None, None) == a + ", " + b
    ensures MissingNames(a, b, None, Some(0)) == a && MissingNames(a, b, Some(0), None) == b
  {
  }

  // ---------------------------------------------------------------------
  // The transaction

  /**
   * p1 is the winner: its rating (1200 when it has none) moves to newA and
   * its wins go up by one; p2's moves to newB and its losses go up by one;
   * no other user and no bet changes; the two audit rows record exactly
   * these changes against the settled match.
   */
  lemma RecordSettleUsers(db: Db, w: nat, l: nat, ls: int, channel: string, openedBy: string,
                          k: real, expected: (int, int) -> real, now: int)
    requires w < |db.users| && l < |db.users| && w != l
    ensures var (r, db') := RecordSettle(db, w, l, ls, channel, openedBy, k, expected, now);
      var ra, rb := EloOrDefault(db.users[w]), EloOrDefault(db.users[l]);
      var e := UpdateElo(ra, rb, 1, k, expected(ra, rb));
      && r.winner == w && r.loser == l && r.loserScore == ls && r.channel == channel
      && r.winnerElo == EloChange(ra, e.newA, e.newA - ra) && r.loserElo == EloChange(rb, e.newB, e.newB - rb)
      && |db'.users| == |db.users|
      && db'.users[w] == db.users[w].(elo := Some(e.newA), wins := Some(OrZero(db.users[w].wins) + 1))
      && db'.users[l] == db.users[l].(elo := Some(e.newB), losses := Some(OrZero(db.users[l].losses) + 1))
      && (forall j :: 0 <= j < |db.users| && j != w && j != l ==> db'.users[j] == db.users[j])
      && db'.bets == db.bets
      && db'.eloDeltas == db.eloDeltas + [EloDelta(r.matchId, w, ra, e.newA, e.newA - ra, now),
                                          EloDelta(r.matchId, l, rb, e.newB, e.newB - rb, now)]
  {
    var ra, rb := EloOrDefault(db.users[w]), EloOrDefault(db.users[l]);
    EloDeltasAreChanges(ra, rb, 1, k, expected(ra, rb));
  }

  /**
   * The pair's latest OPEN match in the channel, in either order, is
   * settled in place with the winner and loser score (its players and
   * scores are kept); when there is none a settled match with the winner
   * as p1 is appended.
   */
  lemma RecordSettleMatch(db: Db, w: nat, l: nat, ls: int, channel: string, openedBy: string,
                          k: real, expected: (int, int) -> real, now: int)
    requires w < |db.users| && l < |db.users| && w != l
    ensures var (r, db') := RecordSettle(db, w, l, ls, channel, openedBy, k, expected, now);
      var open := Latest(db.matches, OpenPair(channel, w, l));
      && r.matchId < |db'.matches|
      && db'.matches[r.matchId].state == MatchState.Settled
      && db'.matches[r.matchId].winnerUser == Some(w) && db'.matches[r.matchId].loserScore == Some(ls)
      && db'.matches[r.matchId].settledAt == Some(now)
      && (open.Some? ==>
            && r.matchId == open.value && |db'.matches| == |db.matches|
            && db'.matches[r.matchId] == db.matches[r.matchId].(state := MatchState.Settled, loserScore := Some(ls),
                                                                winnerUser := Some(w), settledAt := Some(now))
            && (forall j :: 0 <= j < |db.matches| && j != r.matchId ==> db'.matches[j] == db.matches[j]))
      && (open.None? ==>
            db'.matches == db.matches + [Match(channel, w, l, MatchState.Settled, None, None, None, Some(w), Some(ls),
                                               Some(openedBy), now, Some(now))])
  {
  }

  /** Recording keeps at most one OPEN match per channel and every bet reference valid. */
  lemma RecordKeepsInvariants(db: Db, w: nat, l: nat, ls: int, channel: string, openedBy: string,
                              k: real, expected: (int, int) -> real, now: int)
    requires w < |db.users| && l < |db.users| && w != l
    requires OneOpenPerChannel(db.matches) && WellFormed(db)
    ensures OneOpenPerChannel(RecordSettle(db, w, l, ls, channel, openedBy, k, expected, now).1.matches)
    ensures WellFormed(RecordSettle(db, w, l, ls, channel, openedBy, k, expected, now).1)
  {
    var db' := RecordSettle(db, w, l, ls, channel, openedBy, k, expected, now).1;
    assert forall j :: 0 <= j < |db'.matches| && db'.matches[j].state == MatchState.Open ==> db'.matches[j] == db.matches[j];
  }
}
