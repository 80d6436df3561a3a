/**
 * The match lifecycle routes: `POST /api/matches/open`,
 * `POST /api/matches/current/lock` and `POST /api/matches/current/score`,
 * each as a function from the store and the request to the response and
 * the new store. `channel` is the channel the request names (the
 * `x-channel-id` header, or `default`), resolved by the caller.
 */
module MatchRoutes {
  import opened Common
  import opened Ledger

  /** `(v ?? '').toString().trim()` for a string field; `None` is an absent or null field. */
  function FieldText(v: Option<string>, default: string): string {
    Trim(match v case Some(s) => s case None => default)
  }

  /** The newly opened match: OPEN, 0-0, between the two resolved users. */
  function NewMatch(channel: string, p1: nat, p2: nat, now: int): Match {
    Match(channel, p1, p2, MatchState.Open, Some(0), Some(0), None, None, None, None, now, None)
  }

  /** Settles (abandons) the latest OPEN match of `channel`, if any. */
  function SupersedeOpen(ms: seq<Match>, channel: string, now: int): (r: seq<Match>)
    ensures |r| == |ms|
  {
    match Latest(ms, InState(channel, MatchState.Open))
    case None => ms
    case Some(i) => ms[i := ms[i].(state := MatchState.Settled, settledAt := Some(now))]
  }

  /** `POST /api/matches/open`; the channel comes from the body, defaulting to `default`. */
  function OpenMatch(db: Db, p1: Option<string>, p2: Option<string>, channelId: Option<string>, now: int): (Response, Db)
  {
    var a := FieldText(p1, "");
    var b := FieldText(p2, "");
    var channel := FieldText(channelId, "default");
    if a == "" || b == "" then (Error(400, PlayersRequired), db)
    else if EqualsIgnoreCase(a, b) then (Error(400, PlayersMustDiffer), db)
    else OpenResolved(db, FindUser(db.users, a), FindUser(db.users, b), channel, now)
  }

  /** The part of the open route after validation, on the two user lookups. */
  function OpenResolved(db: Db, u1: Option<nat>, u2: Option<nat>, channel: string, now: int): (Response, Db)
  {
    if u1.None? || u2.None? then (Error(404, PlayerNotFound), db)
    else
      var ms := SupersedeOpen(db.matches, channel, now);
      (Opened(|ms|, channel), db.(matches := ms + [NewMatch(channel, u1.value, u2.value, now)]))
  }

  /** `POST /api/matches/current/lock` */
  function LockMatch(db: Db, channel: string): (Response, Db)
  {
    match Latest(db.matches, InState(channel, MatchState.Open))
    case None => (Error(404, NoOpenMatch), db)
    case Some(i) => (Ok, db.(matches := db.matches[i := db.matches[i].(state := MatchState.Locked)]))
  }

  /** `POST /api/matches/current/score`; the scores are `Number(body.p1Score)` and `Number(body.p2Score)`. */
  function SetScore(db: Db, channel: string, p1Score: Number, p2Score: Number): (Response, Db)
  {
    if !IsInteger(p1Score) || !IsInteger(p2Score) then (Error(400, ScoresNotIntegers), db)
    else match Latest(db.matches, Active(channel))
      case None => (Error(404, NoActiveMatch), db)
      case Some(i) =>
        var s1 := p1Score.v.Floor;
        var s2 := p2Score.v.Floor;
        (ScoreSet(i, s1, s2), db.(matches := db.matches[i := db.matches[i].(scoreP1 := Some(s1), scoreP2 := Some(s2))]))
  }

  // ---------------------------------------------------------------------
  // Opening

  /** Missing or case-insensitively equal names are rejected with 400 and nothing changes. */
  lemma OpenValidation(db: Db, p1: Option<string>, p2: Option<string>, ch: Option<string>, now: int)
    ensures var a, b := FieldText(p1, ""), FieldText(p2, "");
      var r := OpenMatch(db, p1, p2, ch, now);
      && (r.0 == Error(400, PlayersRequired) <==> a == "" || b == "")
      && (r.0.Error? && r.0.code == 400 <==> a == "" || b == "" || EqualsIgnoreCase(a, b))
      && (r.0.Error? ==> r.1 == db)
  {
    var a, b := FieldText(p1, ""), FieldText(p2, "");
    if a != "" && b != "" && !EqualsIgnoreCase(a, b) {
      OpenResolvedCodes(db, FindUser(db.users, a), FindUser(db.users, b), FieldText(ch, "default"), now);
    }
  }

  /** After validation the only error is a 404 for an unknown player, and it changes nothing. */
  lemma OpenResolvedCodes(db: Db, u1: Option<nat>, u2: Option<nat>, channel: string, now: int)
    ensures var r := OpenResolved(db, u1, u2, channel, now);
            r.0.Error? ==> r.0.code == 404 && r.1 == db
  {
  }

  /** An unknown player gives 404 and no match changes. */
  lemma OpenUnknownPlayer(db: Db, p1: Option<string>, p2: Option<string>, ch: Option<string>, now: int)
    requires FieldText(p1, "") != "" && FieldText(p2, "") != ""
    requires !EqualsIgnoreCase(FieldText(p1, ""), FieldText(p2, ""))
    ensures var r := OpenMatch(db, p1, p2, ch, now);
      && (r.0 == Error(404, PlayerNotFound)
          <==> FindUser(db.users, FieldText(p1, "")).None? || FindUser(db.users, FieldText(p2, "")).None?)
      && (r.0.Error? ==> r.1 == db)
  {
  }

  /**
   * Once both users are resolved, the open settles only the latest OPEN
   * match of the channel (stamping settledAt, leaving its bets alone) and
   * appends an OPEN 0-0 match between the two users.
   */
  lemma OpenResolvedEffect(db: Db, u1: nat, u2: nat, channel: string, now: int)
    ensures var r := OpenResolved(db, Some(u1), Some(u2), channel, now);
      var db' := r.1;
      && r.0 == Opened(|db.matches|, channel)
      && |db'.matches| == |db.matches| + 1
      && db'.matches[|db.matches|] == NewMatch(channel, u1, u2, now)
      && db'.users == db.users && db'.bets == db.bets && db'.eloDeltas == db.eloDeltas
      && (forall j :: 0 <= j < |db.matches| && db'.matches[j] != db.matches[j] ==>
            Latest(db.matches, InState(channel, MatchState.Open)) == Some(j)
            && db'.matches[j] == db.matches[j].(state := MatchState.Settled, settledAt := Some(now)))
  {
  }

  /** A successful open is the resolved open of the trimmed names in the trimmed channel. */
  lemma OpenEffect(db: Db, p1: Option<string>, p2: Option<string>, ch: Option<string>, now: int)
    requires OpenMatch(db, p1, p2, ch, now).0.Opened?
    ensures var u1, u2 := FindUser(db.users, FieldText(p1, "")), FindUser(db.users, FieldText(p2, ""));
      && u1.Some? && u2.Some?
      && OpenMatch(db, p1, p2, ch, now) == OpenResolved(db, u1, u2, FieldText(ch, "default"), now)
  {
  }

  /** A channel with at most one OPEN match before a successful open has exactly one afterwards: the new one. */
  lemma OpenLeavesOneOpen(db: Db, p1: Option<string>, p2: Option<string>, ch: Option<string>, now: int)
    requires OpenMatch(db, p1, p2, ch, now).0.Opened?
    requires OpenCount(db.matches, FieldText(ch, "default")) <= 1
    ensures var r := OpenMatch(db, p1, p2, ch, now);
      && OpenCount(r.1.matches, r.0.channel) == 1
      && Latest(r.1.matches, InState(r.0.channel, MatchState.Open)) == Some(r.0.matchId)
  {
    OpenEffect(db, p1, p2, ch, now);
    OpenResolvedOneOpen(db, FindUser(db.users, FieldText(p1, "")).value, FindUser(db.users, FieldText(p2, "")).value,
                        FieldText(ch, "default"), now);
  }

  /** The resolved open leaves exactly one OPEN match in the channel, the new one. */
  lemma OpenResolvedOneOpen(db: Db, u1: nat, u2: nat, channel: string, now: int)
    requires OpenCount(db.matches, channel) <= 1
    ensures var r := OpenResolved(db, Some(u1), Some(u2), channel, now);
      && r.0 == Opened(|db.matches|, channel)
      && OpenCount(r.1.matches, channel) == 1
      && Latest(r.1.matches, InState(channel, MatchState.Open)) == Some(|db.matches|)
  {
    var ms := SupersedeOpen(db.matches, channel, now);
    SupersedeCount(db.matches, channel, now);
    OpenCountAppend(ms, NewMatch(channel, u1, u2, now), channel);
  }

  /** Superseding removes the channel's OPEN match from the count, if there was one. */
  lemma SupersedeCount(ms: seq<Match>, channel: string, now: int)
    requires OpenCount(ms, channel) <= 1
    ensures OpenCount(SupersedeOpen(ms, channel, now), channel) == 0
  {
    match Latest(ms, InState(channel, MatchState.Open))
    case None =>
      OpenCountZero(ms, channel);
    case Some(i) =>
      OpenCountUpdate(ms, i, ms[i].(state := MatchState.Settled, settledAt := Some(now)), channel);
  }

  /** After superseding, `channel` has no OPEN match and other channels keep theirs. */
  lemma SupersedeKeepsOneOpen(ms: seq<Match>, channel: string, now: int)
    requires OneOpenPerChannel(ms)
    ensures var ms' := SupersedeOpen(ms, channel, now);
      && OneOpenPerChannel(ms')
      && forall j :: 0 <= j < |ms'| && ms'[j].state == MatchState.Open ==> ms'[j].channel != channel
  {
    var ms' := SupersedeOpen(ms, channel, now);
    assert forall j :: 0 <= j < |ms'| && ms'[j].state == MatchState.Open ==> ms'[j] == ms[j];
    forall j | 0 <= j < |ms'| && ms'[j].state == MatchState.Open
      ensures ms'[j].channel != channel
    {
      var l := Latest(ms, InState(channel, MatchState.Open));
      assert l.Some? ==> l.value != j;
      assert l.Some? && j < l.value ==> ms[j].channel != ms[l.value].channel;
    }
  }

  lemma OpenResolvedKeepsOneOpen(db: Db, u1: Option<nat>, u2: Option<nat>, channel: string, now: int)
    requires OneOpenPerChannel(db.matches)
    ensures OneOpenPerChannel(OpenResolved(db, u1, u2, channel, now).1.matches)
  {
    if u1.Some? && u2.Some? {
      SupersedeKeepsOneOpen(db.matches, channel, now);
      var ms := SupersedeOpen(db.matches, channel, now);
      var ms' := ms + [NewMatch(channel, u1.value, u2.value, now)];
      assert forall j :: 0 <= j < |ms| ==> ms'[j] == ms[j];
    }
  }

  /** Opening keeps "at most one OPEN match per channel" in every channel. */
  lemma OpenKeepsOneOpen(db: Db, p1: Option<string>, p2: Option<string>, ch: Option<string>, now: int)
    requires OneOpenPerChannel(db.matches)
    ensures OneOpenPerChannel(OpenMatch(db, p1, p2, ch, now).1.matches)
  {
    var a, b := FieldText(p1, ""), FieldText(p2, "");
    var channel := FieldText(ch, "default");
    var u1, u2 := FindUser(db.users, a), FindUser(db.users, b);
    if a != "" && b != "" && !EqualsIgnoreCase(a, b) {
      assert OpenMatch(db, p1, p2, ch, now) == OpenResolved(db, u1, u2, channel, now);
      OpenResolvedKeepsOneOpen(db, u1, u2, channel, now);
    }
  }

  // ---------------------------------------------------------------------
  // Locking

  /** Locking fails with 404 exactly when the channel has no OPEN match; a LOCKED match cannot be locked again. */
  lemma LockNotFound(db: Db, channel: string)
    ensures var (r, db') := LockMatch(db, channel);
      (r == Error(404, NoOpenMatch) <==> forall j :: 0 <= j < |db.matches| ==>
          !(db.matches[j].channel == channel && db.matches[j].state == MatchState.Open))
      && (r.Error? ==> db' == db)
  {
  }

  /** Locking changes only the state of the channel's latest OPEN match, to LOCKED. */
  lemma LockEffect(db: Db, channel: string)
    requires LockMatch(db, channel).0.Ok?
    ensures var db' := LockMatch(db, channel).1;
      var i := Latest(db.matches, InState(channel, MatchState.Open)).value;
      && db.matches[i].channel == channel && db.matches[i].state == MatchState.Open
      && |db'.matches| == |db.matches|
      && db'.matches[i] == db.matches[i].(state := MatchState.Locked)
      && (forall j :: 0 <= j < |db.matches| && j != i ==> db'.matches[j] == db.matches[j])
      && (forall j :: 0 <= j < |db.matches| && db.matches[j].channel != channel ==> db'.matches[j] == db.matches[j])
      && db'.users == db.users && db'.bets == db.bets && db'.eloDeltas == db.eloDeltas
  {
  }

  /** With at most one OPEN match per channel, a second lock in a row gets 404 and changes nothing. */
  lemma LockTwice(db: Db, channel: string)
    requires OneOpenPerChannel(db.matches)
    requires LockMatch(db, channel).0.Ok?
    ensures var db1 := LockMatch(db, channel).1;
      LockMatch(db1, channel) == (Error(404, NoOpenMatch), db1)
  {
    var i := Latest(db.matches, InState(channel, MatchState.Open)).value;
    var db1 := LockMatch(db, channel).1;
    forall j | 0 <= j < |db1.matches|
      ensures !(db1.matches[j].channel == channel && db1.matches[j].state == MatchState.Open)
    {
      if j != i {
        assert db1.matches[j] == db.matches[j];
        assert j < i && db.matches[j].state == MatchState.Open ==> db.matches[j].channel != db.matches[i].channel;
      }
    }
  }

  // ---------------------------------------------------------------------
  // Scores

  /** Non-integer scores give 400; any integers, negative or above 10 included, pass validation. */
  lemma ScoreValidation(db: Db, channel: string, p1Score: Number, p2Score: Number)
    ensures var (r, db') := SetScore(db, channel, p1Score, p2Score);
      (r == Error(400, ScoresNotIntegers) <==> !IsInteger(p1Score) || !IsInteger(p2Score))
      && (r.Error? ==> db' == db)
      && (IsInteger(p1Score) && IsInteger(p2Score) ==>
            (r == Error(404, NoActiveMatch) <==> Latest(db.matches, Active(channel)).None?))
  {
  }

  /**
   * A successful score update targets the latest OPEN or LOCKED match of
   * the channel, changes only its two scores (not its state), and returns
   * the scores it was given.
   */
  lemma ScoreEffect(db: Db, channel: string, p1Score: Number, p2Score: Number)
    requires SetScore(db, channel, p1Score, p2Score).0.ScoreSet?
    ensures var (r, db') := SetScore(db, channel, p1Score, p2Score);
      var i := r.matchId;
      && i < |db.matches| && db.matches[i].channel == channel && db.matches[i].state != MatchState.Settled
      && Latest(db.matches, Active(channel)) == Some(i)
      && r.scoreP1 as real == p1Score.v && r.scoreP2 as real == p2Score.v
      && |db'.matches| == |db.matches|
      && db'.matches[i] == db.matches[i].(scoreP1 := Some(r.scoreP1), scoreP2 := Some(r.scoreP2))
      && db'.matches[i].state == db.matches[i].state
      && (forall j :: 0 <= j < |db.matches| && j != i ==> db'.matches[j] == db.matches[j])
      && db'.users == db.users && db'.bets == db.bets && db'.eloDeltas == db.eloDeltas
  {
  }

  /** Example: a score of -3 to 12 is accepted as it is. */
  lemma ScoreOutOfRangeAccepted(db: Db, channel: string)
    requires Latest(db.matches, Active(channel)).Some?
    ensures SetScore(db, channel, Finite(-3.0), Finite(12.0)).0.ScoreSet?
    ensures SetScore(db, channel, Finite(-3.0), Finite(12.0)).0.scoreP1 == -3
  {
  }

  /** Locking keeps "at most one OPEN match per channel": it only takes a match out of OPEN. */
  lemma LockKeepsOneOpen(db: Db, channel: string)
    requires OneOpenPerChannel(db.matches)
    ensures OneOpenPerChannel(LockMatch(db, channel).1.matches)
  {
    var ms := LockMatch(db, channel).1.matches;
    assert forall i :: 0 <= i < |ms| && ms[i].state == MatchState.Open ==> db.matches[i] == ms[i];
  }

  /** A score update keeps "at most one OPEN match per channel": no state or channel changes. */
  lemma ScoreKeepsOneOpen(db: Db, channel: string, p1Score: Number, p2Score: Number)
    requires OneOpenPerChannel(db.matches)
    ensures OneOpenPerChannel(SetScore(db, channel, p1Score, p2Score).1.matches)
  {
    if IsInteger(p1Score) && IsInteger(p2Score) {
      match Latest(db.matches, Active(channel))
      case None =>
      case Some(k) =>
        var ms := SetScore(db, channel, p1Score, p2Score).1.matches;
        assert ms == db.matches[k := db.matches[k].(scoreP1 := Some(p1Score.v.Floor), scoreP2 := Some(p2Score.v.Floor))];
        assert forall i :: 0 <= i < |ms| ==> ms[i].state == db.matches[i].state && ms[i].channel == db.matches[i].channel;
    }
  }
}
