/**
 * The rows of the store behind the API routes (users, matches, bets and
 * the Elo audit table) and the queries the routes run against them.
 *
 * Row ids are positions in their table. A table keeps rows in creation
 * order; every route stamps `openedAt` with the current time when it
 * creates a match, so "the most recent match" (`orderBy: openedAt desc`)
 * is the match created last, i.e. the one with the highest position.
 */
module Ledger {
  import opened Common

  datatype MatchState = Open | Locked | Settled

  datatype Side = P1 | P2

  datatype BetStatus = Pending | Placed | Settled | Refunded

  datatype User = User(username: string, elo: Option<int>, wins: Option<int>, losses: Option<int>)

  datatype Match = Match(
    channel: string,
    p1: nat,
    p2: nat,
    state: MatchState,
    scoreP1: Option<int>,
    scoreP2: Option<int>,
    winner: Option<Side>,
    winnerUser: Option<nat>,
    loserScore: Option<int>,
    openedBy: Option<string>,
    openedAt: int,
    settledAt: Option<int>)

  datatype Bet = Bet(
    matchId: nat,
    userId: nat,
    predictedWinner: Side,
    predictedLoserScore: int,
    amount: real,
    status: BetStatus,
    payout: Option<real>)

  /** A row of the `match_elo_delta` audit table. */
  datatype EloDelta = EloDelta(matchId: nat, userId: nat, before: int, after: int, delta: int, at: int)

  datatype Db = Db(users: seq<User>, matches: seq<Match>, bets: seq<Bet>, eloDeltas: seq<EloDelta>)

  /** One player's entry in the `elo` part of a recorded result, and in the audit table. */
  datatype EloChange = EloChange(before: int, after: int, delta: int)

  /** The `error` texts the routes answer with. */
  datatype Reason =
    | PlayersRequired        // "p1 and p2 are required"
    | PlayersMustDiffer      // "p1 and p2 must differ"
    | PlayerNotFound         // "player not found in database"
    | NoOpenMatch            // "no open match"
    | ScoresNotIntegers      // "p1Score and p2Score must be integers"
    | NoActiveMatch          // "no active match"
    | WinnerNotOneOrTwo      // "winner must be 1 or 2"
    | LoserScoreOutOfRange   // "loserScore must be 0..9"
    | NoLockedMatch          // "no locked match"
    | PlayersMissing         // "players missing"
    | UsernameRequired       // "username required"
    | UserNotFound           // "user not found in database"
    | ChoiceNotOneOrTwo      // "choice must be 1 or 2"
    | AmountNotPositive      // "amount must be > 0"
    | BetExists              // "Bet already exists. Use replace:true."
    | NoBet                  // "no bet"
    | MissingFields          // "missing p1, p2, loserScore"
    | PlayersNotStrings      // "p1 and p2 must be strings"
    | InvalidPlayers         // "invalid players (empty or same)"
    | UnknownUsers(names: string)  // "unknown user(s): " followed by the names
    | RejectedWrite          // the store refuses a NaN loser score; the route fails with 500

  /** The JSON bodies of the routes' answers (the status is 200 unless given). */
  datatype Response =
    | Ok
    | Opened(matchId: nat, channel: string)  // 201
    | ScoreSet(matchId: nat, scoreP1: int, scoreP2: int)
    | SettledCounts(winners: nat, losers: nat)
    | Recorded(matchId: nat, channel: string, winner: nat, loser: nat, loserScore: int,
               winnerElo: EloChange, loserElo: EloChange)
    | Error(code: int, reason: Reason)

  /** The `where` clauses the routes use to look a match up. */
  datatype MatchQuery =
    | InState(channel: string, state: MatchState)
    | Active(channel: string)
    | OpenPair(channel: string, a: nat, b: nat)

  predicate Satisfies(m: Match, q: MatchQuery) {
    match q
    case InState(c, s) => m.channel == c && m.state == s
    case Active(c) => m.channel == c && m.state != MatchState.Settled
    case OpenPair(c, a, b) =>
      m.channel == c && m.state == MatchState.Open && ((m.p1 == a && m.p2 == b) || (m.p1 == b && m.p2 == a))
  }

  /** `findFirst({ where: q, orderBy: { openedAt: 'desc' } })`: the last match satisfying `q`. */
  function Latest(ms: seq<Match>, q: MatchQuery): (r: Option<nat>)
    ensures r.Some? ==> r.value < |ms| && Satisfies(ms[r.value], q)
    ensures r.Some? ==> forall j :: r.value < j < |ms| ==> !Satisfies(ms[j], q)
    ensures r.None? <==> forall j :: 0 <= j < |ms| ==> !Satisfies(ms[j], q)
  {
    if ms == [] then None
    else if Satisfies(ms[|ms| - 1], q) then Some(|ms| - 1)
    else Latest(ms[..|ms| - 1], q)
  }

  /** `findFirst({ where: { username: { equals: name, mode: 'insensitive' } } })`. */
  function FindUser(us: seq<User>, name: string): (r: Option<nat>)
    ensures r.Some? ==> r.value < |us| && EqualsIgnoreCase(us[r.value].username, name)
    ensures r.Some? ==> forall j :: 0 <= j < r.value ==> !EqualsIgnoreCase(us[j].username, name)
    ensures r.None? <==> forall j :: 0 <= j < |us| ==> !EqualsIgnoreCase(us[j].username, name)
  {
    if us == [] then None
    else if EqualsIgnoreCase(us[0].username, name) then Some(0)
    else match FindUser(us[1..], name)
      case None => None
      case Some(k) => Some(k + 1)
  }

  /** `bet.findUnique({ where: { matchId_userId: ... } })`: the first bet of `user` on `matchId`. */
  function FindBet(bs: seq<Bet>, matchId: nat, user: nat): (r: Option<nat>)
    ensures r.Some? ==> r.value < |bs| && bs[r.value].matchId == matchId && bs[r.value].userId == user
    ensures r.None? <==> forall j :: 0 <= j < |bs| ==> !(bs[j].matchId == matchId && bs[j].userId == user)
  {
    if bs == [] then None
    else if bs[|bs| - 1].matchId == matchId && bs[|bs| - 1].userId == user then
      match FindBet(bs[..|bs| - 1], matchId, user)
      case None => Some(|bs| - 1)
      case Some(k) => Some(k)
    else FindBet(bs[..|bs| - 1], matchId, user)
  }

  // ---------------------------------------------------------------------
  // Invariants of the store

  /** Every reference points at an existing row. */
  ghost predicate RefsValid(db: Db) {
    (forall i :: 0 <= i < |db.matches| ==> db.matches[i].p1 < |db.users| && db.matches[i].p2 < |db.users|)
    && (forall i :: 0 <= i < |db.bets| ==> db.bets[i].matchId < |db.matches| && db.bets[i].userId < |db.users|)
  }

  /** The `(matchId, userId)` uniqueness constraint on bets. */
  ghost predicate UniqueBets(bs: seq<Bet>) {
    forall i, j :: 0 <= i < j < |bs| ==> !(bs[i].matchId == bs[j].matchId && bs[i].userId == bs[j].userId)
  }

  /** At most one OPEN match per channel. */
  ghost predicate OneOpenPerChannel(ms: seq<Match>) {
    forall i, j :: 0 <= i < j < |ms| && ms[i].state == MatchState.Open && ms[j].state == MatchState.Open
      ==> ms[i].channel != ms[j].channel
  }

  ghost predicate WellFormed(db: Db) {
    RefsValid(db) && UniqueBets(db.bets)
  }

  /** The number of OPEN matches in `channel`. */
  function OpenCount(ms: seq<Match>, channel: string): nat
  {
    if ms == [] then 0
    else OpenCount(ms[..|ms| - 1], channel)
         + (if ms[|ms| - 1].channel == channel && ms[|ms| - 1].state == MatchState.Open then 1 else 0)
  }

  lemma {:induction false} OpenCountZero(ms: seq<Match>, channel: string)
    ensures OpenCount(ms, channel) == 0 <==> Latest(ms, InState(channel, MatchState.Open)).None?
  {
    if ms != [] {
      OpenCountZero(ms[..|ms| - 1], channel);
    }
  }

  lemma {:induction false} OpenCountAppend(ms: seq<Match>, m: Match, channel: string)
    ensures OpenCount(ms + [m], channel)
         == OpenCount(ms, channel) + (if m.channel == channel && m.state == MatchState.Open then 1 else 0)
  {
    assert (ms + [m])[..|ms|] == ms;
  }

  /** Changing one row adjusts the count by what that row contributes. */
  lemma {:induction false} OpenCountUpdate(ms: seq<Match>, i: nat, m: Match, channel: string)
    requires i < |ms|
    ensures OpenCount(ms[i := m], channel) + (if ms[i].channel == channel && ms[i].state == MatchState.Open then 1 else 0)
         == OpenCount(ms, channel) + (if m.channel == channel && m.state == MatchState.Open then 1 else 0)
    decreases |ms|
  {
    if i < |ms| - 1 {
      assert ms[i := m][..|ms| - 1] == ms[..|ms| - 1][i := m];
      OpenCountUpdate(ms[..|ms| - 1], i, m, channel);
    } else {
      assert ms[i := m][..|ms| - 1] == ms[..|ms| - 1];
    }
  }
}
