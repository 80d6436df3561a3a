/**
 * Discord user ids as the bot reads them from command arguments: a mention
 * `<@digits>` / `<@!digits>` or a bare numeric id (`inputUser.ts`,
 * `parsing.ts`), and the `!inputUser` command, which creates a user and
 * then stores its Twitch and Discord ids.
 */
module DiscordIds {
  import opened Common

  /** The digits of a mention `<@digits>` or `<@!digits>` filling the whole string, else `None`. */
  function MentionDigits(s: string): (r: Option<string>)
    ensures r.Some? ==> r.value != "" && AllDigits(r.value)
  {
    if |s| >= 3 && s[..2] == "<@" && s[|s| - 1] == '>' then
      var inner := s[2..|s| - 1];
      var d := if inner != [] && inner[0] == '!' then inner[1..] else inner;
      if d != [] && AllDigits(d) then Some(d) else None
    else None
  }

  /** A mention gives its digits back, with or without the `!`. */
  lemma MentionDigitsOf(d: string)
    requires d != [] && AllDigits(d)
    ensures MentionDigits("<@" + d + ">") == Some(d)
    ensures MentionDigits("<@!" + d + ">") == Some(d)
  {
    var s := "<@" + d + ">";
    assert s[2..|s| - 1] == d;
    assert d[0] != '!' by { assert IsDigit(d[0]); }
    var t := "<@!" + d + ">";
    assert t[2..|t| - 1] == "!" + d;
    assert ("!" + d)[1..] == d;
  }

  /** A string of `lo` to `hi` digits. */
  predicate DigitRun(s: string, lo: nat, hi: nat) {
    lo <= |s| <= hi && AllDigits(s)
  }

  /** `parseDiscordId(raw)`: the trimmed input as a mention or a 15 to 22 digit id. */
  function ParseDiscordId(raw: string): (r: Option<string>)
    ensures raw == "" ==> r.None?
    ensures r.Some? ==> r.value != "" && AllDigits(r.value)
  {
    if raw == "" then None
    else
      var s := Trim(raw);
      match MentionDigits(s)
      case Some(d) => Some(d)
      case None => if DigitRun(s, 15, 22) then Some(s) else None
  }

  /** `parseMentionOrId(input)`: the input as it stands, a mention or a 15 to 21 digit id. */
  function ParseMentionOrId(input: string): (r: Option<string>)
    ensures r.Some? ==> r.value != "" && AllDigits(r.value)
  {
    match MentionDigits(input)
    case Some(d) => Some(d)
    case None => if DigitRun(input, 15, 21) then Some(input) else None
  }

  /** A bare id is accepted by its length alone: 15 to 22 digits for `parseDiscordId`, 15 to 21 for `parseMentionOrId`. */
  lemma BareIdLengths(s: string)
    requires s != [] && AllDigits(s)
    ensures ParseDiscordId(s) == (if 15 <= |s| <= 22 then Some(s) else None)
    ensures ParseMentionOrId(s) == (if 15 <= |s| <= 21 then Some(s) else None)
  {
    assert IsDigit(s[0]) && IsDigit(s[|s| - 1]);
    assert Trim(s) == s;
  }

  /** `parseMentionOrId` does not trim: white space in front rejects any input. */
  lemma MentionOrIdNoTrim(s: string)
    ensures ParseMentionOrId(" " + s).None?
  {
    var t := " " + s;
    assert !IsDigit(t[0]);
  }

  /** Whatever `parseMentionOrId` accepts, `parseDiscordId` accepts with the same id, also with white space around it. */
  lemma MentionOrIdImpliesDiscordId(s: string, pre: string, post: string)
    requires ParseMentionOrId(s).Some?
    requires Blank(pre) && Blank(post)
    ensures ParseDiscordId(pre + s + post) == ParseMentionOrId(s)
  {
    assert s != [];
    assert !IsSpace(s[0]) && !IsSpace(s[|s| - 1]) by {
      if MentionDigits(s).None? {
        assert IsDigit(s[0]) && IsDigit(s[|s| - 1]);
      }
    }
    TrimAround(pre, s, post);
  }

  /** Trimming removes exactly the blank text around a string that neither starts nor ends with white space. */
  lemma TrimAround(pre: string, s: string, post: string)
    requires Blank(pre) && Blank(post)
    requires s != [] && !IsSpace(s[0]) && !IsSpace(s[|s| - 1])
    ensures Trim(pre + s + post) == s
  {
    TrimStartBlankPrefix(pre, s + post);
    assert pre + s + post == pre + (s + post);
    TrimEndBlankSuffix(s, post);
  }

  lemma {:induction false} TrimEndBlankSuffix(s: string, post: string)
    requires Blank(post)
    requires s != [] && !IsSpace(s[|s| - 1])
    ensures TrimEnd(s + post) == s
  {
    if post != [] {
      var t := s + post;
      assert IsSpace(t[|t| - 1]);
      assert t[..|t| - 1] == s + post[..|post| - 1];
      TrimEndBlankSuffix(s, post[..|post| - 1]);
    } else {
      assert s + post == s;
    }
  }

  // ---------------------------------------------------------------------
  // !inputUser

  /** A rejected API call; `message` is the error's `message` property. */
  datatype CallResult = Done | Threw(message: Option<string>)

  /** The API calls the command makes. */
  datatype Call = CreateUser(username: string) | LinkIds(username: string, twitchId: string, discordId: string)

  datatype Outcome = Outcome(calls: seq<Call>, reply: string)

  const InputUserUsage := "Usage: `!inputUser <username> <twitchId> <@discord|id>`"
  const NeedUsername := "username is required."
  const NeedTwitchId := "twitchId is required."
  const BadDiscordId := "discord tag/id is invalid. Use `@mention` or a numeric ID."

  /** `String(e?.message || '')` */
  function MessageText(message: Option<string>): string
  {
    if message.Some? then message.value else ""
  }

  /** A failed creation that only means the user exists already: the message mentions `409` or, in any case, "already exists". */
  predicate AlreadyExists(message: Option<string>) {
    Contains(MessageText(message), "409") || Contains(LowerStr(MessageText(message)), "already exists")
  }

  /** The reply for an error reaching the outer `catch`: `❌ ` and the message, `internal error` when it has none. */
  function ErrorReply(message: Option<string>): string
  {
    "❌ " + (if message.Some? then message.value else "internal error")
  }

  /** The arguments pass the checks before any API call. */
  predicate ValidArgs(args: seq<string>) {
    |args| >= 3 && Trim(args[0]) != "" && Trim(args[1]) != "" && ParseDiscordId(args[2]).Some?
  }

  /** The `!inputUser` handler, given how the creation and the update calls end. */
  function InputUser(args: seq<string>, create: CallResult, patch: CallResult): (o: Outcome)
    ensures !ValidArgs(args) ==> o.calls == []
    ensures ValidArgs(args) ==> o.calls != [] && o.calls[0] == CreateUser(Trim(args[0]))
  {
    if |args| < 3 then Outcome([], InputUserUsage)
    else
      var username := Trim(args[0]);
      var twitchId := Trim(args[1]);
      var discordId := ParseDiscordId(args[2]);
      if username == "" then Outcome([], NeedUsername)
      else if twitchId == "" then Outcome([], NeedTwitchId)
      else if discordId.None? then Outcome([], BadDiscordId)
      else if create.Threw? && !AlreadyExists(create.message) then
        Outcome([CreateUser(username)], ErrorReply(create.message))
      else
        var calls := [CreateUser(username), LinkIds(username, twitchId, discordId.value)];
        if patch.Threw? then Outcome(calls, ErrorReply(patch.message))
        else Outcome(calls, "✅ Saved **" + username + "** (twitchId: " + twitchId + ", discordId: " + discordId.value + ")")
  }

  /** The checks run in order: too few arguments, then the username, the Twitch id and the Discord id. */
  lemma InputUserChecks(args: seq<string>, create: CallResult, patch: CallResult)
    ensures |args| < 3 ==> InputUser(args, create, patch).reply == InputUserUsage
    ensures |args| >= 3 && Trim(args[0]) == "" ==> InputUser(args, create, patch).reply == NeedUsername
    ensures |args| >= 3 && Trim(args[0]) != "" && Trim(args[1]) == "" ==> InputUser(args, create, patch).reply == NeedTwitchId
    ensures |args| >= 3 && Trim(args[0]) != "" && Trim(args[1]) != "" && ParseDiscordId(args[2]).None?
            ==> InputUser(args, create, patch).reply == BadDiscordId
  {
  }

  /** The ids are stored exactly when the arguments are valid and the creation succeeded or found the user existing. */
  lemma InputUserStoresIds(args: seq<string>, create: CallResult, patch: CallResult)
    ensures (exists c :: c in InputUser(args, create, patch).calls && c.LinkIds?)
            <==> ValidArgs(args) && (create.Done? || AlreadyExists(create.message))
    ensures ValidArgs(args) && (create.Done? || AlreadyExists(create.message)) ==>
              InputUser(args, create, patch).calls[1] == LinkIds(Trim(args[0]), Trim(args[1]), ParseDiscordId(args[2]).value)
  {
    var o := InputUser(args, create, patch);
    if ValidArgs(args) && (create.Done? || AlreadyExists(create.message)) {
      assert o.calls[1] in o.calls;
    }
  }

  /** A creation error mentioning `409` is tolerated. */
  lemma ConflictTolerated(pre: string, post: string)
    ensures AlreadyExists(Some(pre + "409" + post))
  {
    var m := pre + "409" + post;
    assert m[|pre|..][..3] == "409";
  }
}
