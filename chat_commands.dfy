/**
 * The platform-neutral chat commands of `commands.ts`: `handleCommand`
 * splits a chat line into a command and its arguments and runs the
 * handler of the lowercased command. Each handler is a function from the
 * context, the arguments and the API's answers (the parameter `api`) to
 * the calls it makes and how it ends: with a reply, silently, or with the
 * error it throws.
 */
module ChatCommands {
  import opened Common

  datatype Platform = Twitch | Discord

  /** Who runs the command, and where. */
  datatype Ctx = Ctx(platform: Platform, userId: string, username: string, isMod: bool, isBroadcaster: bool,
                     channelId: Option<string>)

  /** A thrown value: its `message` property when it has one, and `String(e)`. */
  datatype Thrown = Thrown(message: Option<string>, text: string)

  /** The answer of `ctx.callApi`: the parsed response, or the error it rejects with. */
  datatype Answer = Answer(data: Json) | Rejects(e: Thrown)

  /** The JSON bodies the handlers send; a `Number` field that is `NaN` is sent as `null`. */
  datatype Body =
    | NoBody
    | OpenBody(p1: string, p2: string, channelId: Option<string>)
    | PlaceBody(predictedWinner: string, predictedLoserScore: Number, amountDSC: Number)
    | ReplaceBody(amountDSC: Number)
    | RecordBody(p1: string, p2: string, loserScore: Number)
    | ScoreBody(side: string, op: Option<string>, value: Number)
    | GpcBody(amountGPC: Number)
    | OfferBody(qty: Number, coin: string, buyerHandle: string, priceGPC: Number)

  /** A call of `ctx.callApi(path, init)`; `post` says whether `init` has `method: "POST"`. */
  datatype Request = Request(path: string, post: bool, body: Body)

  /** How a handler ends. */
  datatype End = Replied(text: string) | Silent | Threw(e: Thrown)

  /** The calls a handler made, in order, and how it ended. */
  datatype Run = Run(calls: seq<Request>, end: End)

  /** What the handlers see of the outside world. */
  datatype World = World(
    api: Request -> Answer,
    encode: string -> string,
    typeError: Thrown,
    fracText: real -> string)

  /** The argument at `i`, `undefined` past the end. */
  function At(args: seq<string>, i: nat): Option<string>
  {
    if i < |args| then Some(args[i]) else None
  }

  /** `Number(args[i])`: `NaN` when the argument is missing. */
  function ArgNumber(args: seq<string>, i: nat): Number
  {
    if i < |args| then StrToNumber(args[i]) else NaN
  }

  /** `!x` for a string argument: missing or empty. */
  predicate Falsy(s: Option<string>) {
    s.None? || s.value == ""
  }

  /** `args[i]?.replaceAll('"', '')` */
  function Unquoted(args: seq<string>, i: nat): (r: Option<string>)
    ensures r.Some? ==> '"' !in r.value
    ensures r.Some? <==> i < |args|
  {
    if i < |args| then Some(RemoveChar(args[i], '"')) else None
  }

  /** One call whose answer is not read, then a fixed reply; a rejection is thrown on. */
  function CallThenReply(req: Request, w: World, text: string): (r: Run)
    ensures r.calls == [req]
  {
    match w.api(req)
    case Rejects(e) => Run([req], Threw(e))
    case Answer(_) => Run([req], Replied(text))
  }

  /** A reply and no call. */
  function Reply(text: string): Run
  {
    Run([], Replied(text))
  }

  /** An object property read `v.k` throws on `null` and `undefined`. */
  predicate Nullish(v: Json) {
    v.Missing? || v.Null?
  }

  // ---------------------------------------------------------------------
  // !help

  const BaseHelp: seq<string> := [
    "!wallet | !stats [user] | !help",
    "!bet 1 <loserScore> <amount>  — place bet",
    "!replacebet <amount> | !cancelbet",
    "!buygpc <amount> | !sellgpc <amount>",
    "!offer <qty> <COIN> @buyer <priceGPC> | !accept <offerId>"]

  const ModExtraHelp: seq<string> := [
    "!bet open \"<player1>\" \"<player2>\"",
    "!lock",
    "!record \"<player1>\" \"<player2>\" <loserScore>",
    "!score 1 +3 | !score 2 set 9"]

  /** Mods and the broadcaster may run the moderation commands. */
  predicate Privileged(ctx: Ctx) {
    ctx.isMod || ctx.isBroadcaster
  }

  /** The help entries: the five base entries, then the four moderation entries for a mod or the broadcaster. */
  function HelpEntries(ctx: Ctx): (r: seq<string>)
    ensures |r| == if Privileged(ctx) then 9 else 5
    ensures r[..5] == BaseHelp
    ensures Privileged(ctx) ==> r[5..] == ModExtraHelp
  {
    if Privileged(ctx) then BaseHelp + ModExtraHelp else BaseHelp
  }

  /** `modHelp(ctx)` */
  function ModHelp(ctx: Ctx): string
  {
    Join(HelpEntries(ctx), " · ")
  }

  /** The help for a mod is the help for anyone else followed by the moderation entries. */
  lemma ModHelpExtends(ctx: Ctx)
    requires Privileged(ctx)
    ensures ModHelp(ctx) == ModHelp(ctx.(isMod := false, isBroadcaster := false)) + " · " + Join(ModExtraHelp, " · ")
  {
    JoinAppend(BaseHelp, ModExtraHelp, " · ");
  }

  // ---------------------------------------------------------------------
  // The handlers

  /** `!wallet`: one `coin: display` item per wallet entry. */
  function ShowWallet(ctx: Ctx, w: World): Run
  {
    var req := Request("/api/users/" + ctx.userId + "/wallet", false, NoBody);
    match w.api(req)
    case Rejects(e) => Run([req], Threw(e))
    case Answer(data) =>
      if Nullish(data) || !Get(data, "wallet").Arr? then Run([req], Threw(w.typeError))
      else match WalletItems(Get(data, "wallet").items, w.fracText)
        case None => Run([req], Threw(w.typeError))
        case Some(items) => Run([req], Replied("Wallet: " + Join(items, " | ")))
  }

  /** `${w.coin}: ${w.display}` for one wallet entry. */
  function WalletItem(e: Json, fracText: real -> string): string
  {
    JsText(Get(e, "coin"), fracText) + ": " + JsText(Get(e, "display"), fracText)
  }

  /** `${w.coin}: ${w.display}` for each entry; `None` when an entry is `null`. */
  function WalletItems(ws: seq<Json>, fracText: real -> string): (r: Option<seq<string>>)
    ensures r.None? <==> exists i :: 0 <= i < |ws| && Nullish(ws[i])
    ensures r.Some? ==> |r.value| == |ws| && forall i :: 0 <= i < |ws| ==> r.value[i] == WalletItem(ws[i], fracText)
  {
    if ws == [] then Some([])
    else if Nullish(ws[0]) then None
    else match WalletItems(ws[1..], fracText)
      case None =>
        assert exists i :: 0 <= i < |ws[1..]| && Nullish(ws[1..][i]);
        var i :| 0 <= i < |ws[1..]| && Nullish(ws[1..][i]);
        assert Nullish(ws[i + 1]);
        None
      case Some(rest) =>
        Some([WalletItem(ws[0], fracText)] + rest)
  }

  /** `!stats [user]`: the named user, or the caller when no name is given. */
  function ShowStats(ctx: Ctx, who: string, w: World): Run
  {
    var target := if who != "" then who else ctx.username;
    var req := Request("/api/users/" + w.encode(target), false, NoBody);
    match w.api(req)
    case Rejects(e) => Run([req], Threw(e))
    case Answer(data) =>
      if Nullish(data) then Run([req], Threw(w.typeError))
      else Run([req], Replied("Stats for " + JsText(Get(data, "username"), w.fracText) + ": ELO "
                              + JsText(Get(data, "elo"), w.fracText) + " (W" + JsText(Get(data, "wins"), w.fracText)
                              + "/L" + JsText(Get(data, "losses"), w.fracText) + ")"))
  }

  const MustBeMod := "Mods only."
  const BetUsage := "Usage: !bet 1 <loserScore> <amount>"

  /** `[1, 2].includes(winner)` */
  predicate IsSide(n: Number) {
    n == Finite(1.0) || n == Finite(2.0)
  }

  /** `!bet open "<p1>" "<p2>"` and `!bet <1|2> <loserScore> <amount>` */
  function BetHandler(ctx: Ctx, args: seq<string>, w: World): Run
  {
    if At(args, 0) == Some("open") then
      if !Privileged(ctx) then Reply(MustBeMod)
      else
        var p1 := if 1 < |args| then RemoveChar(args[1], '"') else "";
        var p2 := if 2 < |args| then RemoveChar(args[2], '"') else "";
        var req := Request("/api/matches/open", true, OpenBody(p1, p2, ctx.channelId));
        match w.api(req)
        case Rejects(e) => Run([req], Threw(e))
        case Answer(res) =>
          if Nullish(res) then Run([req], Threw(w.typeError))
          else Run([req], Replied("Opened match #" + JsText(Get(res, "matchId"), w.fracText) + " : " + p1 + " vs " + p2))
    else
      var winner := ArgNumber(args, 0);
      var loserScore := ArgNumber(args, 1);
      var amount := ArgNumber(args, 2);
      if !IsSide(winner) || loserScore.NaN? || amount.NaN? then Reply(BetUsage)
      else
        CallThenReply(Request("/api/bets/current/place", true,
                              PlaceBody(if winner == Finite(1.0) then "p1" else "p2", loserScore, amount)), w,
                      "Bet placed: " + NumberToText(amount, w.fracText) + " DSC on P" + NumberToText(winner, w.fracText)
                      + " (loser " + NumberToText(loserScore, w.fracText) + ")")
  }

  /** Opening a match is for mods and the broadcaster only; the player names are sent without quotes. */
  lemma BetOpenModOnly(ctx: Ctx, args: seq<string>, w: World)
    requires At(args, 0) == Some("open")
    ensures !Privileged(ctx) ==> BetHandler(ctx, args, w) == Reply(MustBeMod)
    ensures Privileged(ctx) ==>
              var calls := BetHandler(ctx, args, w).calls;
              |calls| == 1 && calls[0].body.OpenBody? && '"' !in calls[0].body.p1 && '"' !in calls[0].body.p2
  {
  }

  /** A bet is placed exactly when the winner is 1 or 2 and both numbers parse; winner 1 is `p1`, winner 2 is `p2`. */
  lemma BetChecks(ctx: Ctx, args: seq<string>, w: World)
    requires At(args, 0) != Some("open")
    ensures BetHandler(ctx, args, w).calls != []
            <==> IsSide(ArgNumber(args, 0)) && !ArgNumber(args, 1).NaN? && !ArgNumber(args, 2).NaN?
    ensures BetHandler(ctx, args, w).calls != [] ==>
              var b := BetHandler(ctx, args, w).calls[0].body;
              b == PlaceBody(b.predictedWinner, ArgNumber(args, 1), ArgNumber(args, 2))
              && (b.predictedWinner == "p1" <==> ArgNumber(args, 0) == Finite(1.0))
              && (b.predictedWinner == "p2" <==> ArgNumber(args, 0) == Finite(2.0))
  {
  }

  /** The commands that take an amount reply with their usage, and call nothing, when it is 0 or not a number. */
  function AmountHandler(args: seq<string>, usage: string, path: string, body: Body, w: World, done: string): (r: Run)
    ensures !NumberTruthy(ArgNumber(args, 0)) ==> r == Reply(usage)
    ensures NumberTruthy(ArgNumber(args, 0)) ==> r.calls == [Request(path, true, body)]
  {
    if !NumberTruthy(ArgNumber(args, 0)) then Reply(usage)
    else CallThenReply(Request(path, true, body), w, done)
  }

  /** `!replacebet <amount>` */
  function ReplaceBet(args: seq<string>, w: World): Run
  {
    var amount := ArgNumber(args, 0);
    AmountHandler(args, "Usage: !replacebet <amount>", "/api/bets/current/place", ReplaceBody(amount), w,
                  "Bet updated to " + NumberToText(amount, w.fracText) + " DSC.")
  }

  /** `!buygpc <amount>` */
  function BuyGpc(args: seq<string>, w: World): Run
  {
    var amount := ArgNumber(args, 0);
    AmountHandler(args, "Usage: !buygpc <amount>", "/api/gpc/buy", GpcBody(amount), w,
                  "Bought " + NumberToText(amount, w.fracText) + " GPC.")
  }

  /** `!sellgpc <amount>` */
  function SellGpc(args: seq<string>, w: World): Run
  {
    var amount := ArgNumber(args, 0);
    AmountHandler(args, "Usage: !sellgpc <amount>", "/api/gpc/sell", GpcBody(amount), w,
                  "Sold " + NumberToText(amount, w.fracText) + " GPC.")
  }

  /** An amount of 0, or one that is not a number, stops `!replacebet`, `!buygpc` and `!sellgpc` at their usage reply. */
  lemma AmountChecks(args: seq<string>, w: World)
    ensures ReplaceBet(args, w).calls == [] <==> ArgNumber(args, 0) == NaN || ArgNumber(args, 0) == Finite(0.0)
    ensures BuyGpc(args, w).calls == [] <==> ArgNumber(args, 0) == NaN || ArgNumber(args, 0) == Finite(0.0)
    ensures SellGpc(args, w).calls == [] <==> ArgNumber(args, 0) == NaN || ArgNumber(args, 0) == Finite(0.0)
  {
  }

  /** `!cancelbet` */
  function CancelBet(w: World): Run
  {
    CallThenReply(Request("/api/bets/current/refund", true, NoBody), w, "Bet cancelled (refunded).")
  }

  /** `!lock` */
  function Lock(ctx: Ctx, w: World): (r: Run)
    ensures !Privileged(ctx) ==> r == Reply(MustBeMod)
  {
    if !Privileged(ctx) then Reply(MustBeMod)
    else CallThenReply(Request("/api/matches/current/lock", true, NoBody), w, "Bets are now LOCKED.")
  }

  const RecordUsage := "Usage: !record \"p1\" \"p2\" <loserScore>"

  /** `!record "<p1>" "<p2>" <loserScore>` */
  function Record(ctx: Ctx, args: seq<string>, w: World): Run
  {
    if !Privileged(ctx) then Reply(MustBeMod)
    else
      var p1 := Unquoted(args, 0);
      var p2 := Unquoted(args, 1);
      var loserScore := ArgNumber(args, 2);
      if Falsy(p1) || Falsy(p2) || loserScore.NaN? then Reply(RecordUsage)
      else CallThenReply(Request("/api/matches/current/record", true, RecordBody(p1.value, p2.value, loserScore)), w,
                         "Recorded: " + p1.value + " vs " + p2.value + " (" + NumberToText(loserScore, w.fracText) + ").")
  }

  /** A result is recorded only by a mod or the broadcaster, with both player names and a loser score that is a number. */
  lemma RecordChecks(ctx: Ctx, args: seq<string>, w: World)
    ensures !Privileged(ctx) ==> Record(ctx, args, w) == Reply(MustBeMod)
    ensures Record(ctx, args, w).calls != []
            <==> Privileged(ctx) && !Falsy(Unquoted(args, 0)) && !Falsy(Unquoted(args, 1)) && !ArgNumber(args, 2).NaN?
  {
  }

  /** `!score <side> <op> <value>`: sent without any check of its own, and answered with nothing. */
  function Score(ctx: Ctx, args: seq<string>, w: World): (r: Run)
    ensures !Privileged(ctx) ==> r == Reply(MustBeMod)
    ensures Privileged(ctx) ==> |r.calls| == 1 && !r.end.Replied?
  {
    if !Privileged(ctx) then Reply(MustBeMod)
    else
      var req := Request("/api/matches/current/score", true,
                         ScoreBody(if At(args, 0) == Some("1") then "p1" else "p2", At(args, 1), ArgNumber(args, 2)));
      match w.api(req)
      case Rejects(e) => Run([req], Threw(e))
      case Answer(_) => Run([req], Silent)
  }

  /** `!offer <qty> <COIN> @buyer <priceGPC>` */
  function OfferCreate(args: seq<string>, w: World): (r: Run)
    ensures r.calls != [] <==> NumberTruthy(ArgNumber(args, 0)) && !Falsy(At(args, 1)) && !Falsy(At(args, 2))
                               && NumberTruthy(ArgNumber(args, 3))
  {
    var qty := ArgNumber(args, 0);
    var coin := At(args, 1);
    var buyer := At(args, 2);
    var price := ArgNumber(args, 3);
    if !NumberTruthy(qty) || Falsy(coin) || Falsy(buyer) || !NumberTruthy(price) then
      Reply("Usage: !offer <qty> <COIN> @buyer <priceGPC>")
    else
      var req := Request("/api/offers/create", true, OfferBody(qty, coin.value, buyer.value, price));
      match w.api(req)
      case Rejects(e) => Run([req], Threw(e))
      case Answer(res) =>
        if Nullish(res) then Run([req], Threw(w.typeError))
        else Run([req], Replied("Offer #" + JsText(Get(res, "id"), w.fracText) + " created for " + buyer.value + ". Expires in 5m."))
  }

  /** `!accept <offerId>` */
  function OfferAccept(args: seq<string>, w: World): (r: Run)
    ensures r.calls != [] <==> !Falsy(At(args, 0))
  {
    var id := At(args, 0);
    if Falsy(id) then Reply("Usage: !accept <offerId>")
    else CallThenReply(Request("/api/offers/" + id.value + "/accept", true, NoBody), w, "Offer #" + id.value + " accepted.")
  }

  // ---------------------------------------------------------------------
  // handleCommand

  /** The commands `handleCommand` knows. */
  datatype Command = Help | Wallet | Stats | BetCmd | LockCmd | RecordCmd | ScoreCmd | ReplaceBetCmd | CancelBetCmd
                   | BuyGpcCmd | SellGpcCmd | OfferCmd | AcceptCmd

  /** The `switch` over the lowercased command word. */
  const Commands: map<string, Command> := map[
    "!help" := Help, "!wallet" := Wallet, "!stats" := Stats, "!bet" := BetCmd, "!lock" := LockCmd,
    "!record" := RecordCmd, "!score" := ScoreCmd, "!replacebet" := ReplaceBetCmd, "!cancelbet" := CancelBetCmd,
    "!buygpc" := BuyGpcCmd, "!sellgpc" := SellGpcCmd, "!offer" := OfferCmd, "!accept" := AcceptCmd]

  /** `raw.trim().split(/\s+/)`: the command is the first piece, the arguments the rest. */
  function Tokens(raw: string): (r: seq<string>)
    ensures |r| >= 1
  {
    SplitWs(Trim(raw))
  }

  /** The run of one command's handler. */
  function RunHandler(c: Command, ctx: Ctx, args: seq<string>, w: World): Run
  {
    match c
    case Help => Reply(ModHelp(ctx))
    case Wallet => ShowWallet(ctx, w)
    case Stats => ShowStats(ctx, Join(args, " "), w)
    case BetCmd => BetHandler(ctx, args, w)
    case LockCmd => Lock(ctx, w)
    case RecordCmd => Record(ctx, args, w)
    case ScoreCmd => Score(ctx, args, w)
    case ReplaceBetCmd => ReplaceBet(args, w)
    case CancelBetCmd => CancelBet(w)
    case BuyGpcCmd => BuyGpc(args, w)
    case SellGpcCmd => SellGpc(args, w)
    case OfferCmd => OfferCreate(args, w)
    case AcceptCmd => OfferAccept(args, w)
  }

  /** The run of the handler the lowercased command word names, `None` for an unknown command. */
  function RunCommand(ctx: Ctx, raw: string, w: World): (r: Option<Run>)
    ensures r.None? <==> LowerStr(Tokens(raw)[0]) !in Commands
  {
    var parts := Tokens(raw);
    var low := LowerStr(parts[0]);
    if low in Commands then Some(RunHandler(Commands[low], ctx, parts[1..], w)) else None
  }

  /** What `handleCommand` does: the calls made, the replies sent and the error it rejects with, if any. */
  datatype Outcome = Outcome(calls: seq<Request>, replies: seq<string>, rejected: Option<Thrown>)

  /** `` `Error: ${e.message ?? e}` `` */
  function ErrorReply(e: Thrown): string
  {
    "Error: " + (if e.message.Some? then e.message.value else e.text)
  }

  /** The outcome of a run; `caught` says whether a thrown error reaches the `catch`. */
  function Finish(r: Option<Run>, caught: bool): (o: Outcome)
    ensures r.None? ==> o == Outcome([], [], None)
    ensures r.Some? ==> o.calls == r.value.calls
    ensures caught ==> o.rejected.None? && |o.replies| <= 1
  {
    match r
    case None => Outcome([], [], None)
    case Some(Run(calls, end)) =>
      match end
      case Replied(text) => Outcome(calls, [text], None)
      case Silent => Outcome(calls, [], None)
      case Threw(e) => if caught then Outcome(calls, [ErrorReply(e)], None) else Outcome(calls, [], Some(e))
  }

  /**
   * `handleCommand` as written: each handler's promise is returned from the
   * `try` block without being awaited, so an error a handler throws rejects
   * the promise of `handleCommand` and never reaches the `catch`.
   */
  function HandleCommandAsWritten(ctx: Ctx, raw: string, w: World): Outcome
  {
    Finish(RunCommand(ctx, raw, w), false)
  }

  /** `handleCommand` with `return await` in the `try` block: an error a handler throws is answered with `Error: ...`. */
  function HandleCommand(ctx: Ctx, raw: string, w: World): (o: Outcome)
    ensures o.rejected.None?
    ensures |o.replies| <= 1
  {
    Finish(RunCommand(ctx, raw, w), true)
  }

  /** An unknown command returns without a call or a reply. */
  lemma UnknownCommandIgnored(ctx: Ctx, raw: string, w: World)
    requires LowerStr(Tokens(raw)[0]) !in Commands
    ensures HandleCommand(ctx, raw, w) == Outcome([], [], None)
    ensures HandleCommandAsWritten(ctx, raw, w) == Outcome([], [], None)
  {
  }

  /** Every error a handler throws is answered with `Error: ...`, after the calls it made. */
  lemma ErrorsAreReplied(ctx: Ctx, raw: string, w: World)
    requires RunCommand(ctx, raw, w).Some? && RunCommand(ctx, raw, w).value.end.Threw?
    ensures var r := RunCommand(ctx, raw, w).value;
            HandleCommand(ctx, raw, w) == Outcome(r.calls, [ErrorReply(r.end.e)], None)
  {
    FinishThrown(RunCommand(ctx, raw, w));
  }

  /** The two versions agree on every run that does not throw. */
  lemma AsWrittenAgreesWithoutErrors(ctx: Ctx, raw: string, w: World)
    requires RunCommand(ctx, raw, w).None? || !RunCommand(ctx, raw, w).value.end.Threw?
    ensures HandleCommandAsWritten(ctx, raw, w) == HandleCommand(ctx, raw, w)
  {
  }

  /** A line of one word is the command word alone, with no arguments. */
  lemma SingleWordTokens(word: string)
    requires word != [] && forall i :: 0 <= i < |word| ==> !IsSpace(word[i])
    ensures Tokens(word) == [word]
  {
    assert Trim(word) == word by {
      assert !IsSpace(word[0]) && !IsSpace(word[|word| - 1]);
    }
    IndexOfSpaceNone(word);
  }

  /** A run that throws ends, uncaught, with no reply and the rejection; caught, with the `Error: ...` reply. */
  lemma FinishThrown(r: Option<Run>)
    requires r.Some? && r.value.end.Threw?
    ensures Finish(r, false) == Outcome(r.value.calls, [], Some(r.value.end.e))
    ensures Finish(r, true) == Outcome(r.value.calls, [ErrorReply(r.value.end.e)], None)
  {
  }

  /** Whenever a handler throws, the code as written sends no reply and rejects with the error instead. */
  lemma AsWrittenLosesErrors(ctx: Ctx, raw: string, w: World)
    requires RunCommand(ctx, raw, w).Some? && RunCommand(ctx, raw, w).value.end.Threw?
    ensures HandleCommandAsWritten(ctx, raw, w).replies == []
    ensures HandleCommandAsWritten(ctx, raw, w).rejected == Some(RunCommand(ctx, raw, w).value.end.e)
  {
    FinishThrown(RunCommand(ctx, raw, w));
  }

  const CancelBetWord := "!cancelbet"

  /** A line whose command word is `!cancelbet`, in any case, runs the `!cancelbet` handler. */
  lemma CancelBetRouted(ctx: Ctx, raw: string, w: World)
    requires LowerStr(Tokens(raw)[0]) == CancelBetWord
    ensures RunCommand(ctx, raw, w) == Some(CancelBet(w))
  {
    CancelBetListed();
    var args := Tokens(raw)[1..];
    assert RunHandler(CancelBetCmd, ctx, args, w) == CancelBet(w);
  }

  lemma CancelBetListed()
    ensures CancelBetWord in Commands && Commands[CancelBetWord] == CancelBetCmd
  {
  }

  /**
   * The discrepancy: when the API rejects `!cancelbet`, the code as written
   * sends no reply and rejects, where the `catch` was meant to reply.
   */
  lemma CancelBetErrorEscapes(ctx: Ctx, raw: string, w: World)
    requires LowerStr(Tokens(raw)[0]) == CancelBetWord
    requires w.api(Request("/api/bets/current/refund", true, NoBody)).Rejects?
    ensures HandleCommandAsWritten(ctx, raw, w).replies == []
    ensures HandleCommandAsWritten(ctx, raw, w).rejected.Some?
    ensures HandleCommand(ctx, raw, w).replies == [ErrorReply(w.api(Request("/api/bets/current/refund", true, NoBody)).e)]
  {
    CancelBetRouted(ctx, raw, w);
    FinishThrown(RunCommand(ctx, raw, w));
  }
}
