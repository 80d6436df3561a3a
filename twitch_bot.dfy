/**
 * The Twitch chat bot (`bots/twitch/src/index.ts`): `!` commands read from
 * chat, checked, turned into calls on the site's API, and answered in
 * chat. Each handler is a function from its arguments and the answers of
 * the API (parameters) to the calls it makes and the replies it sends, in
 * order. The StreamElements balance check is the parameter `enough`.
 */
module TwitchBot {
  import opened Common

  const Prefix := "!"

  /**
   * The least magnitude that `Number(...)` rounds to `Infinity`: halfway
   * between the largest finite double, 2^1024 - 2^971, and 2^1024.
   */
  const DoubleOverflow: int := 0xfffffffffffffc00000000000000000000000000000000000000000000000000000000000000000000000000000000000000000000000000000000000000000000000000000000000000000000000000000000000000000000000000000000000000000000000000000000000000000000000000000000000000000000000000

  // ---------------------------------------------------------------------
  // parseIntStrict

  /** The digits after an optional leading sign. */
  function Unsigned(s: string): string
  {
    if |s| > 0 && (s[0] == '-' || s[0] == '+') then s[1..] else s
  }

  /** `/^[-+]?\d+$/` */
  predicate IntSyntax(s: string) {
    Unsigned(s) != [] && AllDigits(Unsigned(s))
  }

  /** The integer an `IntSyntax` string denotes. */
  function SignedValue(s: string): int
    requires IntSyntax(s)
  {
    if s[0] == '-' then -(DigitsValue(Unsigned(s)) as int) else DigitsValue(Unsigned(s))
  }

  /** `parseIntStrict(s)`: a signed run of digits whose value is a finite double, else `None`. */
  function ParseIntStrict(s: string): (r: Option<int>)
    ensures !IntSyntax(s) ==> r.None?
    ensures r.Some? ==> IntSyntax(s) && r.value == SignedValue(s) && -DoubleOverflow < r.value < DoubleOverflow
  {
    if !IntSyntax(s) then None
    else
      var n := SignedValue(s);
      if -DoubleOverflow < n < DoubleOverflow then Some(n) else None
  }

  /** `String(n)` read back by `parseIntStrict` gives `n`, for every integer below the overflow bound. */
  lemma ParseIntStrictRoundTrip(n: int)
    requires -DoubleOverflow < n < DoubleOverflow
    ensures ParseIntStrict(IntToString(n)) == Some(n)
  {
    var m := if n < 0 then -n else n;
    var d := NatToString(m);
    assert IsDigit(d[0]);
    if n < 0 {
      assert IntToString(n) == "-" + d;
      assert Unsigned("-" + d) == d;
    } else {
      assert Unsigned(d) == d;
    }
  }

  /** A digit string too long for a double is rejected although it has the syntax. */
  lemma ParseIntStrictOverflow(s: string)
    requires s != [] && AllDigits(s) && DigitsValue(s) >= DoubleOverflow
    ensures ParseIntStrict(s).None?
  {
    assert IsDigit(s[0]);
    assert Unsigned(s) == s;
  }

  /** The argument at `i`, or `""` when there is none (`args[i] ?? ""`). */
  function Arg(args: seq<string>, i: nat): string
  {
    if i < |args| then args[i] else ""
  }

  // ---------------------------------------------------------------------
  // API calls and safeCall

  /** A rejected API call: the response body's `error` and the error's `message`, each when present. */
  datatype ApiError = ApiError(dataError: Option<string>, message: Option<string>)

  /** The answer to an API call: the response body, or the rejection. */
  datatype ApiResult = Ok(data: Json) | Failed(err: ApiError)

  /** The bodies of the requests the bot sends. */
  datatype Body =
    | OpenMatch(p1: string, p2: string, channelId: string)
    | PlaceBet(username: string, choice: int, loserScore: int, amount: int)
    | Refund(username: string)
    | Empty
    | RecordResult(winner: int, loserScore: int)
    | Scores(p1Score: Number, p2Score: Number)

  datatype Call = Post(path: string, body: Body) | Fetch(path: string)

  /** The calls a handler makes and the replies it sends, each in order. */
  datatype Handled = Handled(calls: seq<Call>, replies: seq<string>)

  /** What the handlers see of the outside world. */
  datatype World = World(
    channelId: string,
    enough: (string, int) -> bool,
    post: (string, Body) -> ApiResult,
    get: string -> ApiResult,
    typeError: string)

  /** `err?.response?.data?.error ?? err?.message ?? "Unknown error"` */
  function ErrorText(e: ApiError): string
  {
    if e.dataError.Some? then e.dataError.value else if e.message.Some? then e.message.value else "Unknown error"
  }

  /** The reply `safeCall` sends for a result: none when it succeeded, `Error: ...` otherwise. */
  function SafeCallReplies(r: ApiResult): (replies: seq<string>)
    ensures r.Ok? <==> replies == []
  {
    if r.Ok? then [] else ["Error: " + ErrorText(r.err)]
  }

  /** `safeCall(() => api.post(path, body))` followed by the reply the handler always sends. */
  function PostThenSay(path: string, body: Body, w: World, text: string): (h: Handled)
    ensures h.calls == [Post(path, body)]
    ensures |h.replies| >= 1 && h.replies[|h.replies| - 1] == text
  {
    Handled([Post(path, body)], SafeCallReplies(w.post(path, body)) + [text])
  }

  /** A reply with no call. */
  function JustSay(text: string): Handled
  {
    Handled([], [text])
  }

  // ---------------------------------------------------------------------
  // The handlers

  /** The chat user: `display-name` and `username` fields, each when present. */
  datatype UserState = UserState(displayName: Option<string>, username: Option<string>)

  /** `(user["display-name"] || user.username || "").toString()` */
  function ResolveUsername(u: UserState): (r: string)
    ensures u.displayName.Some? && u.displayName.value != "" ==> r == u.displayName.value
  {
    if u.displayName.Some? && u.displayName.value != "" then u.displayName.value
    else if u.username.Some? then u.username.value
    else ""
  }

  const BetUsage := "Usage: !bet <1|2> <loserScore 0-9> <amount>"
  const BadLoserScore := "Loser score must be 0-9."
  const BadAmount := "Amount must be a positive integer."
  const NoUsername := "Unable to resolve your username."
  const NotEnough := "You don't have enough DasCoin (SE precheck)."
  const RecordUsage := "Usage: !recordResult <1|2> <loserScore 0-9>"
  const PlacePath := "/api/bets/current/place"
  const RecordPath := "/api/matches/current/record"
  const ScorePath := "/api/matches/current/score"
  const CurrentPath := "/api/matches/current"

  /** A side: 1 or 2. */
  predicate IsSide(n: Option<int>) {
    n == Some(1) || n == Some(2)
  }

  /** A loser score: 0 to 9. */
  predicate IsLoserScore(n: Option<int>) {
    n.Some? && 0 <= n.value <= 9
  }

  /** `!startbet <playerA> <playerB>` */
  function StartBet(args: seq<string>, w: World): (h: Handled)
    ensures h.calls != [] <==> Arg(args, 0) != "" && Arg(args, 1) != ""
  {
    var a := Arg(args, 0);
    var b := Arg(args, 1);
    if a == "" || b == "" then JustSay("Usage: !startBet <playerA> <playerB>")
    else PostThenSay("/api/matches/open", OpenMatch(a, b, w.channelId), w,
                     "Bet started: " + a + " vs " + b + ". Use !bet <1|2> <loserScore 0-9> <amount>")
  }

  /** The reply after a bet, sent whether or not the API accepted it. */
  function BetAccepted(username: string, choice: int, loserScore: int, amount: int): string
  {
    "Bet accepted @" + username + ": on player " + IntToString(choice) + ", loser score " + IntToString(loserScore)
    + ", amount " + IntToString(amount) + " DSC."
  }

  /** `!bet <1|2> <loserScore 0-9> <amount>` */
  function Bet(args: seq<string>, u: UserState, w: World): Handled
  {
    var choice := ParseIntStrict(Arg(args, 0));
    if !IsSide(choice) then JustSay(BetUsage)
    else
      var loserScore := ParseIntStrict(Arg(args, 1));
      if !IsLoserScore(loserScore) then JustSay(BadLoserScore)
      else
        var amount := ParseIntStrict(Arg(args, 2));
        if amount.None? || amount.value <= 0 then JustSay(BadAmount)
        else
          var username := ResolveUsername(u);
          if username == "" then JustSay(NoUsername)
          else if !w.enough(username, amount.value) then JustSay(NotEnough)
          else PostThenSay(PlacePath, PlaceBet(username, choice.value, loserScore.value, amount.value), w,
                           BetAccepted(username, choice.value, loserScore.value, amount.value))
  }

  /** The arguments and the user under which `!bet` places a bet. */
  predicate BetAllowed(args: seq<string>, u: UserState, w: World) {
    var amount := ParseIntStrict(Arg(args, 2));
    IsSide(ParseIntStrict(Arg(args, 0))) && IsLoserScore(ParseIntStrict(Arg(args, 1)))
    && amount.Some? && amount.value > 0
    && ResolveUsername(u) != "" && w.enough(ResolveUsername(u), amount.value)
  }

  /** A bet is posted exactly when every check passes; otherwise a single reply and no call. */
  lemma BetPostsOnlyValid(args: seq<string>, u: UserState, w: World)
    ensures Bet(args, u, w).calls != [] <==> BetAllowed(args, u, w)
    ensures !BetAllowed(args, u, w) ==> |Bet(args, u, w).replies| == 1
  {
  }

  /** A posted bet is the one parsed from the arguments, and "Bet accepted" is the last reply even when the call failed. */
  lemma BetAcceptedAlways(args: seq<string>, u: UserState, w: World)
    requires BetAllowed(args, u, w)
    ensures var c := ParseIntStrict(Arg(args, 0)).value;
            var l := ParseIntStrict(Arg(args, 1)).value;
            var a := ParseIntStrict(Arg(args, 2)).value;
            var name := ResolveUsername(u);
            var b := PlaceBet(name, c, l, a);
            Bet(args, u, w) == Handled([Post(PlacePath, b)], SafeCallReplies(w.post(PlacePath, b)) + [BetAccepted(name, c, l, a)])
  {
  }

  /** `!refund` */
  function RefundBet(u: UserState, w: World): (h: Handled)
    ensures h.calls != [] <==> ResolveUsername(u) != ""
  {
    var username := ResolveUsername(u);
    if username == "" then JustSay(NoUsername)
    else PostThenSay("/api/bets/current/refund", Refund(username), w, "@" + username + " your last bet has been refunded.")
  }

  /** `!lockbet` */
  function LockBet(w: World): (h: Handled)
    ensures h.calls == [Post("/api/matches/current/lock", Empty)]
  {
    PostThenSay("/api/matches/current/lock", Empty, w, "Bets are now locked.")
  }

  /** `!recordresult <1|2> <loserScore 0-9>` */
  function RecordResultCmd(args: seq<string>, w: World): Handled
  {
    var winner := ParseIntStrict(Arg(args, 0));
    if !IsSide(winner) then JustSay(RecordUsage)
    else
      var loserScore := ParseIntStrict(Arg(args, 1));
      if !IsLoserScore(loserScore) then JustSay(BadLoserScore)
      else PostThenSay(RecordPath, RecordResult(winner.value, loserScore.value), w,
                       "Result recorded: Winner " + IntToString(winner.value) + ", Loser score " + IntToString(loserScore.value) + ".")
  }

  /** A result is recorded exactly when the winner is 1 or 2 and the loser score is 0 to 9, and it is the parsed one. */
  lemma RecordResultChecks(args: seq<string>, w: World)
    ensures RecordResultCmd(args, w).calls != []
            <==> IsSide(ParseIntStrict(Arg(args, 0))) && IsLoserScore(ParseIntStrict(Arg(args, 1)))
    ensures RecordResultCmd(args, w).calls != [] ==>
              RecordResultCmd(args, w).calls
              == [Post(RecordPath, RecordResult(ParseIntStrict(Arg(args, 0)).value, ParseIntStrict(Arg(args, 1)).value))]
  {
  }

  /** `Number(v ?? 0)` */
  function ScoreOr0(v: Json): Number
  {
    if v.Missing? || v.Null? then Finite(0.0) else ToNumber(v)
  }

  /** `n + k` on a JavaScript number. */
  function AddNumber(n: Number, k: real): Number
  {
    match n
    case Finite(v) => Finite(v + k)
    case NaN => NaN
    case PosInf => PosInf
    case NegInf => NegInf
  }

  /** The scores `inc(which)` posts for the current match's response body `data`. */
  function IncScores(which: int, data: Json): Body
  {
    var m := if Get(data, "match").Missing? || Get(data, "match").Null? then Obj(map[]) else Get(data, "match");
    Scores(AddNumber(ScoreOr0(Get(m, "scoreP1")), if which == 1 then 1.0 else 0.0),
           AddNumber(ScoreOr0(Get(m, "scoreP2")), if which == 2 then 1.0 else 0.0))
  }

  /** `inc` adds one to the chosen side only, counting a missing score as 0. */
  lemma IncAddsOne(which: int, data: Json)
    requires which == 1 || which == 2
    ensures var m := Get(data, "match");
            var b := IncScores(which, data);
            (which == 1 ==> b.p1Score == AddNumber(ScoreOr0(Get(m, "scoreP1")), 1.0) && b.p2Score == ScoreOr0(Get(m, "scoreP2")))
            && (which == 2 ==> b.p2Score == AddNumber(ScoreOr0(Get(m, "scoreP2")), 1.0) && b.p1Score == ScoreOr0(Get(m, "scoreP1")))
  {
    var m := Get(data, "match");
    if m.Missing? || m.Null? {
      assert Get(m, "scoreP1") == Missing && Get(Obj(map[]), "scoreP1") == Missing;
      assert Get(m, "scoreP2") == Missing && Get(Obj(map[]), "scoreP2") == Missing;
    }
    assert AddNumber(ScoreOr0(Get(m, "scoreP1")), 0.0) == ScoreOr0(Get(m, "scoreP1"));
    assert AddNumber(ScoreOr0(Get(m, "scoreP2")), 0.0) == ScoreOr0(Get(m, "scoreP2"));
  }

  /** A match without scores moves to 1 : 0 or 0 : 1. */
  lemma IncFromNothing(which: int)
    requires which == 1 || which == 2
    ensures IncScores(which, Missing) == Scores(Finite(if which == 1 then 1.0 else 0.0), Finite(if which == 2 then 1.0 else 0.0))
  {
  }

  /** `!1` and `!2`: `safeCall(() => inc(which))`, then the reply. */
  function Increment(which: int, w: World): (h: Handled)
    ensures h.calls != [] && h.calls[0] == Fetch(CurrentPath)
    ensures |h.replies| >= 1 && h.replies[|h.replies| - 1] == "Incremented Player " + IntToString(which) + " score by 1."
  {
    var text := "Incremented Player " + IntToString(which) + " score by 1.";
    match w.get(CurrentPath)
    case Failed(e) => Handled([Fetch(CurrentPath)], SafeCallReplies(Failed(e)) + [text])
    case Ok(data) =>
      var b := IncScores(which, data);
      Handled([Fetch(CurrentPath), Post(ScorePath, b)], SafeCallReplies(w.post(ScorePath, b)) + [text])
  }

  /** `!setscore <p1> <p2>` */
  function SetScore(args: seq<string>, w: World): (h: Handled)
    ensures h.calls != [] <==> ParseIntStrict(Arg(args, 0)).Some? && ParseIntStrict(Arg(args, 1)).Some?
  {
    var p1 := ParseIntStrict(Arg(args, 0));
    var p2 := ParseIntStrict(Arg(args, 1));
    if p1.None? || p2.None? then JustSay("Usage: !setScore <p1> <p2>")
    else PostThenSay(ScorePath, Scores(Finite(p1.value as real), Finite(p2.value as real)), w,
                     "Set score to " + IntToString(p1.value) + " : " + IntToString(p2.value))
  }

  // ---------------------------------------------------------------------
  // topText

  datatype TopKey = Elo | Balance

  /** The list `topText` reads from a response body: `data?.items ?? data ?? []`. */
  function TopItems(data: Json): Json
  {
    if !(Get(data, "items").Missing? || Get(data, "items").Null?) then Get(data, "items")
    else if data.Missing? || data.Null? then Arr([])
    else data
  }

  /** One ranked line: `${idx + 1}. ${u.username} â€” ...`, with the separator as the source spells it. */
  function TopLine(rank: nat, u: Json, title: string, key: TopKey, fracText: real -> string): string
  {
    NatToString(rank) + ". " + JsText(Get(u, "username"), fracText) + " â€” "
    + (if key == Elo then "ELO " + JsText(Get(u, "elo"), fracText)
       else JsText(Get(u, "balance"), fracText) + (if Contains(title, "DasCoin") then " DSC" else " GPC"))
  }

  /** The lines for the first ten items, or `None` when one of them is `null` and reading its name throws. */
  function TopLines(items: seq<Json>, title: string, key: TopKey, fracText: real -> string): (r: Option<seq<string>>)
    ensures r.Some? ==> |r.value| == |items|
    ensures r.Some? ==> forall i :: 0 <= i < |items| ==> r.value[i] == TopLine(i + 1, items[i], title, key, fracText)
    ensures r.None? <==> exists i :: 0 <= i < |items| && (items[i].Null? || items[i].Missing?)
  {
    if items == [] then Some([])
    else
      var last := items[|items| - 1];
      var front := TopLines(items[..|items| - 1], title, key, fracText);
      if front.None? then None
      else if last.Null? || last.Missing? then None
      else Some(front.value + [TopLine(|items|, last, title, key, fracText)])
  }

  /** `topText(url, title, key)` for the response body `data`; `None` when it throws. */
  function TopText(data: Json, title: string, key: TopKey, fracText: real -> string): Option<string>
  {
    var items := TopItems(data);
    if !items.Arr? then None
    else
      var first := items.items[..if |items.items| < 10 then |items.items| else 10];
      match TopLines(first, title, key, fracText)
      case None => None
      case Some(lines) =>
        var text := Join(lines, " | ");
        Some("Top 10 " + title + ": " + (if text == "" then "No data" else text))
  }

  /** At most ten items are listed, the first ten in their order and ranked from 1, and no item after them is read. */
  lemma TopTextAtMostTen(items: seq<Json>, title: string, key: TopKey, fracText: real -> string)
    requires forall i :: 0 <= i < |items| && i < 10 ==> !(items[i].Null? || items[i].Missing?)
    ensures var n := if |items| < 10 then |items| else 10;
            var r := TopLines(items[..n], title, key, fracText);
            r.Some? && |r.value| == n && n <= 10
            && (forall i :: 0 <= i < n ==> r.value[i] == TopLine(i + 1, items[i], title, key, fracText))
  {
  }

  /** An empty list is reported as "No data". */
  lemma TopTextEmpty(title: string, key: TopKey, fracText: real -> string)
    ensures TopText(Obj(map["items" := Arr([])]), title, key, fracText) == Some("Top 10 " + title + ": No data")
  {
    var data := Obj(map["items" := Arr([])]);
    assert Get(data, "items") == Arr([]);
    assert TopItems(data) == Arr([]);
    assert Arr([]).items[..0] == [];
    assert TopLines([], title, key, fracText) == Some([]);
    var items := TopItems(data).items;
    assert items[..if |items| < 10 then |items| else 10] == [];
    assert Join([], " | ") == "";
    var head := "Top 10 " + title;
    assert head + ": " + "No data" == head + ": No data";
    assert TopText(data, title, key, fracText) == Some(head + ": " + "No data");
  }

  /** `!top10ladder`, `!top10dascoin`, `!top10glorpcoin`: the text is the only reply, or `Error: ...` when the call or the text fails. */
  function Top(path: string, title: string, key: TopKey, w: World, fracText: real -> string): (h: Handled)
    ensures h.calls == [Fetch(path)] && |h.replies| == 1
  {
    match w.get(path)
    case Failed(e) => Handled([Fetch(path)], SafeCallReplies(Failed(e)))
    case Ok(data) =>
      match TopText(data, title, key, fracText)
      case Some(text) => Handled([Fetch(path)], [text])
      case None => Handled([Fetch(path)], ["Error: " + w.typeError])
  }

  // ---------------------------------------------------------------------
  // Message routing

  /** The names in the `commands` map. */
  const CommandNames: set<string> :=
    {"startbet", "bet", "refund", "lockbet", "recordresult", "1", "2", "setscore",
     "top10ladder", "top10dascoin", "top10glorpcoin"}

  /** The command name and its arguments: the text after `!`, trimmed, split on white space, the first piece lowercased. */
  function Parse(message: string): (r: (string, seq<string>))
    requires StartsWith(message, Prefix)
    ensures r.0 == LowerStr(SplitWs(Trim(message[1..]))[0])
    ensures r.1 == SplitWs(Trim(message[1..]))[1..]
  {
    var parts := SplitWs(Trim(message[1..]));
    (LowerStr(parts[0]), parts[1..])
  }

  /** The handler of a known command. */
  function Dispatch(name: string, args: seq<string>, u: UserState, w: World, fracText: real -> string): Handled
    requires name in CommandNames
  {
    if name == "startbet" then StartBet(args, w)
    else if name == "bet" then Bet(args, u, w)
    else if name == "refund" then RefundBet(u, w)
    else if name == "lockbet" then LockBet(w)
    else if name == "recordresult" then RecordResultCmd(args, w)
    else if name == "1" then Increment(1, w)
    else if name == "2" then Increment(2, w)
    else if name == "setscore" then SetScore(args, w)
    else if name == "top10ladder" then Top("/api/leaderboards/elo", "Ladder", Elo, w, fracText)
    else if name == "top10dascoin" then Top("/api/leaderboards/dsc", "DasCoin", Balance, w, fracText)
    else Top("/api/leaderboards/gpc", "GlorpCoin", Balance, w, fracText)
  }

  /** The `message` event: the bot's own messages, messages without `!` and unknown names are ignored. */
  function OnMessage(self: bool, message: string, u: UserState, w: World, fracText: real -> string): (h: Handled)
  {
    if self || !StartsWith(message, Prefix) then Handled([], [])
    else
      var (name, args) := Parse(message);
      if name !in CommandNames then Handled([], []) else Dispatch(name, args, u, w, fracText)
  }

  /** The bot does nothing for its own messages, for messages not starting with `!` and for unknown commands. */
  lemma RoutingIgnores(self: bool, message: string, u: UserState, w: World, fracText: real -> string)
    requires self || !StartsWith(message, Prefix) || Parse(message).0 !in CommandNames
    ensures OnMessage(self, message, u, w, fracText) == Handled([], [])
  {
  }

  /** Command names are matched ignoring case: `!BET` runs the `bet` handler. */
  lemma RoutingIgnoresCase(word: string)
    requires word != [] && forall i :: 0 <= i < |word| ==> !IsSpace(word[i])
    ensures Parse(Prefix + word).0 == LowerStr(word)
  {
    var m := Prefix + word;
    assert m[1..] == word;
    assert Trim(word) == word by {
      assert !IsSpace(word[0]) && !IsSpace(word[|word| - 1]);
    }
    IndexOfSpaceNone(word);
  }
}
