/**
 * The `!stats <twitchLogin>` command of the Discord bot
 * (`bots/discord/src/commands/stats.ts`): the profile text is built line
 * by line from the user's record, recent matches and wallet, and the
 * user's ladder rank is looked up in the ladder listing, or, when that
 * listing is unavailable, among all users sorted by Elo.
 *
 * The HTTP answers are parameters; how the profile's other fields are
 * gathered from them (`buildProfile` apart from the rank) is not part of
 * this model.
 */
module StatsCommand {
  import opened Common

  function Min(a: int, b: int): int
  {
    if a < b then a else b
  }

  /** `trimArray(arr, max)`: nothing for a missing array, else its first `max` elements (none for a negative `max`). */
  function TrimArray<T>(arr: Option<seq<T>>, max: int): (r: seq<T>)
    ensures arr.None? ==> r == []
    ensures arr.Some? ==> |r| == Min(|arr.value|, if max < 0 then 0 else max) && r == arr.value[..|r|]
  {
    if arr.None? then [] else arr.value[..Min(|arr.value|, if max < 0 then 0 else max)]
  }

  // ---------------------------------------------------------------------
  // formatProfile

  datatype MatchEntry = MatchEntry(winnerUsername: Json, winnerScore: Json, loserUsername: Json, loserScore: Json,
                                   eloChange: Json, recordedAt: Json)

  datatype CoinEntry = CoinEntry(name: Json, symbol: Json, price: Json, balance: Json)

  datatype Profile = Profile(
    username: string,
    twitchId: Json,
    discordMention: Option<string>,
    elo: Json,
    ladderRank: Option<nat>,
    wins: Json,
    losses: Json,
    matchHistory: seq<MatchEntry>,
    wallet: seq<CoinEntry>)

  const MaxListed := 8
  const Dash := "—"

  predicate Nullish(v: Json) {
    v.Missing? || v.Null?
  }

  /** `v ?? d` inside a template string. */
  function TextOr(v: Json, d: string, fracText: real -> string): string
  {
    if Nullish(v) then d else JsText(v, fracText)
  }

  /** `v === 0 || v`: the value is shown. */
  predicate Shown(v: Json) {
    v == Num(0.0) || Truthy(v)
  }

  /** `v > 0` */
  predicate Positive(v: Json) {
    match ToNumber(v)
    case Finite(x) => x > 0.0
    case PosInf => true
    case _ => false
  }

  /** ` (+5)`, ` (-3)`, ` (0)`, or nothing when there is no Elo change. */
  function DeltaText(e: Json, fracText: real -> string): string
  {
    if Shown(e) then " (" + (if Positive(e) then "+" else "") + JsText(e, fracText) + ")" else ""
  }

  /** A change of 0 is shown, a `+` marks exactly the positive changes, and a missing change is not shown. */
  lemma DeltaTextCases(e: Json, fracText: real -> string)
    ensures DeltaText(Num(0.0), fracText) == " (" + "0" + ")"
    ensures Nullish(e) ==> DeltaText(e, fracText) == ""
    ensures Shown(e) && Positive(e) ==> DeltaText(e, fracText) == " (+" + JsText(e, fracText) + ")"
    ensures Shown(e) && !Positive(e) ==> DeltaText(e, fracText) == " (" + JsText(e, fracText) + ")"
  {
    assert " (" + "+" + JsText(e, fracText) + ")" == " (+" + JsText(e, fracText) + ")";
    assert " (" + "" + JsText(e, fracText) + ")" == " (" + JsText(e, fracText) + ")";
    assert NumberText(0.0, fracText) == "0";
  }

  function MatchLine(m: MatchEntry, fracText: real -> string): string
  {
    "• " + JsText(m.winnerUsername, fracText) + " " + TextOr(m.winnerScore, "", fracText) + " – "
    + JsText(m.loserUsername, fracText) + " " + TextOr(m.loserScore, "", fracText)
    + DeltaText(m.eloChange, fracText)
    + (if Truthy(m.recordedAt) then " • " + JsText(m.recordedAt, fracText) else "")
  }

  function CoinLine(c: CoinEntry, fracText: real -> string): string
  {
    "• " + JsText(Or(c.name, c.symbol), fracText) + " (" + JsText(c.symbol, fracText) + ")"
    + (if Shown(c.price) then " @ " + JsText(c.price, fracText) else "")
    + (if Shown(c.balance) then " × " + JsText(c.balance, fracText) else "")
  }

  function MatchLines(ms: seq<MatchEntry>, fracText: real -> string): (r: seq<string>)
    ensures |r| == |ms|
    ensures forall i :: 0 <= i < |ms| ==> r[i] == MatchLine(ms[i], fracText)
  {
    if ms == [] then [] else MatchLines(ms[..|ms| - 1], fracText) + [MatchLine(ms[|ms| - 1], fracText)]
  }

  function CoinLines(cs: seq<CoinEntry>, fracText: real -> string): (r: seq<string>)
    ensures |r| == |cs|
    ensures forall i :: 0 <= i < |cs| ==> r[i] == CoinLine(cs[i], fracText)
  {
    if cs == [] then [] else CoinLines(cs[..|cs| - 1], fracText) + [CoinLine(cs[|cs| - 1], fracText)]
  }

  /** The rank as shown: the number, or a dash. */
  function RankText(rank: Option<nat>): string
  {
    if rank.Some? then NatToString(rank.value) else Dash
  }

  /** The lines before the lists: title, mention, Twitch id, Elo and rank, record. */
  function HeaderLines(p: Profile, fracText: real -> string): seq<string>
  {
    ["**Stats for " + p.username + "**"]
    + (if p.discordMention.Some? && p.discordMention.value != "" then ["Discord: " + p.discordMention.value] else [])
    + (if Truthy(p.twitchId) then ["TwitchID: " + JsText(p.twitchId, fracText)] else [])
    + ["ELO: " + TextOr(p.elo, Dash, fracText) + "   Ladder Rank: " + RankText(p.ladderRank),
       "Record: " + TextOr(p.wins, "0", fracText) + "W-" + TextOr(p.losses, "0", fracText) + "L"]
  }

  /** A blank line, a heading and one line per item, or nothing for no items. */
  function Section(heading: string, items: seq<string>): seq<string>
  {
    if items == [] then [] else ["", heading] + items
  }

  /** The profile's lines, as `formatProfile` pushes them. */
  function ProfileLines(p: Profile, fracText: real -> string): seq<string>
  {
    HeaderLines(p, fracText)
    + Section("**Recent Matches**", MatchLines(TrimArray(Some(p.matchHistory), MaxListed), fracText))
    + Section("**Wallet**", CoinLines(TrimArray(Some(p.wallet), MaxListed), fracText))
  }

  /** At most eight matches and eight coins are listed: the first ones, in order. */
  lemma ListsAtMostEight(p: Profile, fracText: real -> string)
    ensures var ms := TrimArray(Some(p.matchHistory), MaxListed);
            |ms| == Min(|p.matchHistory|, 8) && ms == p.matchHistory[..|ms|]
    ensures var cs := TrimArray(Some(p.wallet), MaxListed);
            |cs| == Min(|p.wallet|, 8) && cs == p.wallet[..|cs|]
  {
  }

  /** A missing Elo and a missing rank are shown as a dash, missing wins and losses as 0. */
  lemma MissingValuesShown(p: Profile, fracText: real -> string)
    requires Nullish(p.elo) && p.ladderRank.None? && Nullish(p.wins) && Nullish(p.losses)
    ensures var h := HeaderLines(p, fracText);
            h[|h| - 2] == "ELO: " + Dash + "   Ladder Rank: " + Dash && h[|h| - 1] == "Record: " + "0" + "W-" + "0" + "L"
  {
  }

  /** `formatProfile(p)`: the lines pushed one by one, joined by newlines. */
  method FormatProfile(p: Profile, fracText: real -> string) returns (out: string)
    ensures out == Join(ProfileLines(p, fracText), "\n")
  {
    var lines := HeaderLines(p, fracText);
    var matches := TrimArray(Some(p.matchHistory), MaxListed);
    lines := PushMatchSection(lines, matches, fracText);
    var coins := TrimArray(Some(p.wallet), MaxListed);
    lines := PushCoinSection(lines, coins, fracText);
    out := Join(lines, "\n");
  }

  /** `if (matches.length) { lines.push("", heading); ... }` */
  method PushMatchSection(before: seq<string>, ms: seq<MatchEntry>, fracText: real -> string) returns (lines: seq<string>)
    ensures lines == before + Section("**Recent Matches**", MatchLines(ms, fracText))
  {
    SectionAfter(before, "**Recent Matches**", MatchLines(ms, fracText));
    lines := before;
    if |ms| > 0 {
      lines := PushMatchLines(lines + ["", "**Recent Matches**"], ms, fracText);
    }
  }

  /** `if (coins.length) { lines.push("", heading); ... }` */
  method PushCoinSection(before: seq<string>, cs: seq<CoinEntry>, fracText: real -> string) returns (lines: seq<string>)
    ensures lines == before + Section("**Wallet**", CoinLines(cs, fracText))
  {
    SectionAfter(before, "**Wallet**", CoinLines(cs, fracText));
    lines := before;
    if |cs| > 0 {
      lines := PushCoinLines(lines + ["", "**Wallet**"], cs, fracText);
    }
  }

  /** A section pushed after some lines: nothing for no items, else a blank line, the heading and the items. */
  lemma SectionAfter(before: seq<string>, heading: string, items: seq<string>)
    ensures items == [] ==> before + Section(heading, items) == before
    ensures items != [] ==> before + Section(heading, items) == before + ["", heading] + items
  {
    if items == [] {
      assert before + [] == before;
    }
  }

  /** `for (const m of matches) lines.push(...)` */
  method PushMatchLines(before: seq<string>, ms: seq<MatchEntry>, fracText: real -> string) returns (lines: seq<string>)
    ensures lines == before + MatchLines(ms, fracText)
  {
    lines := before;
    var i := 0;
    while i < |ms|
      invariant 0 <= i <= |ms|
      invariant lines == before + MatchLines(ms[..i], fracText)
    {
      MatchLinesStep(before, ms, i, fracText);
      lines := lines + [MatchLine(ms[i], fracText)];
      i := i + 1;
    }
    assert ms[..i] == ms;
  }

  /** `for (const c of coins) lines.push(...)` */
  method PushCoinLines(before: seq<string>, cs: seq<CoinEntry>, fracText: real -> string) returns (lines: seq<string>)
    ensures lines == before + CoinLines(cs, fracText)
  {
    lines := before;
    var i := 0;
    while i < |cs|
      invariant 0 <= i <= |cs|
      invariant lines == before + CoinLines(cs[..i], fracText)
    {
      CoinLinesStep(before, cs, i, fracText);
      lines := lines + [CoinLine(cs[i], fracText)];
      i := i + 1;
    }
    assert cs[..i] == cs;
  }

  /** One more match line pushed. */
  lemma MatchLinesStep(before: seq<string>, ms: seq<MatchEntry>, i: nat, fracText: real -> string)
    requires i < |ms|
    ensures before + MatchLines(ms[..i], fracText) + [MatchLine(ms[i], fracText)] == before + MatchLines(ms[..i + 1], fracText)
  {
    assert ms[..i + 1][..i] == ms[..i];
  }

  /** One more wallet line pushed. */
  lemma CoinLinesStep(before: seq<string>, cs: seq<CoinEntry>, i: nat, fracText: real -> string)
    requires i < |cs|
    ensures before + CoinLines(cs[..i], fracText) + [CoinLine(cs[i], fracText)] == before + CoinLines(cs[..i + 1], fracText)
  {
    assert cs[..i + 1][..i] == cs[..i];
  }

  // ---------------------------------------------------------------------
  // The ladder rank

  /** The index of the first item satisfying `p`, or the number of items. */
  function FirstIndex(items: seq<Json>, p: Json -> bool): (k: nat)
    ensures k <= |items|
    ensures forall i :: 0 <= i < k ==> !p(items[i])
    ensures k < |items| ==> p(items[k])
  {
    if items == [] then 0 else if p(items[0]) then 0 else 1 + FirstIndex(items[1..], p)
  }

  /** The 1-based position of the first item satisfying `p`. */
  function RankBy(items: seq<Json>, p: Json -> bool): (r: Option<nat>)
    ensures r.Some? ==> 1 <= r.value <= |items| && p(items[r.value - 1])
    ensures r.Some? ==> forall i :: 0 <= i < r.value - 1 ==> !p(items[i])
    ensures r.None? ==> forall i :: 0 <= i < |items| ==> !p(items[i])
  {
    var k := FirstIndex(items, p);
    if k < |items| then Some(k + 1) else None
  }

  /** The counting loop: `i++` for each row until one satisfies `p`. */
  method CountToRank(items: seq<Json>, p: Json -> bool) returns (rank: Option<nat>)
    ensures rank == RankBy(items, p)
  {
    rank := None;
    var i := 0;
    while i < |items|
      invariant 0 <= i <= |items|
      invariant forall j :: 0 <= j < i ==> !p(items[j])
    {
      var row := items[i];
      i := i + 1;
      if p(row) {
        rank := Some(i);
        FirstIndexAt(items, p, i - 1);
        return;
      }
    }
    FirstIndexAt(items, p, |items|);
  }

  /** The first index is the index before which no item satisfies `p` and at which one does (or the end). */
  lemma {:induction false} FirstIndexAt(items: seq<Json>, p: Json -> bool, k: nat)
    requires k <= |items|
    requires forall j :: 0 <= j < k ==> !p(items[j])
    requires k < |items| ==> p(items[k])
    ensures FirstIndex(items, p) == k
  {
    if items != [] && k > 0 {
      FirstIndexAt(items[1..], p, k - 1);
    }
  }

  /** A ladder row names the login: `(row?.username || row?.name) === login`. */
  predicate LadderRowIs(row: Json, login: string) {
    Or(Get(row, "username"), Get(row, "name")) == Str(login)
  }

  /** A user row names the login: `row.username === login`. */
  predicate UserRowIs(row: Json, login: string) {
    Get(row, "username") == Str(login)
  }

  /** `r.elo !== undefined && r.elo !== null` */
  predicate HasElo(row: Json) {
    !Nullish(Get(row, "elo"))
  }

  /**
   * `b.elo ?? 0` as the number the comparator subtracts, after JavaScript's
   * conversion; an Elo that converts to NaN is taken as 0.
   */
  function EloKey(row: Json): Number
  {
    match ToNumber(Get(row, "elo"))
    case NaN => Finite(0.0)
    case n => n
  }

  /**
   * `x` may be sorted before `y` by `y - x`: the difference is not positive,
   * or it is NaN (`Infinity - Infinity`), which `sort` reads as 0.
   */
  predicate AtLeast(x: Number, y: Number) {
    x == PosInf || y == NegInf || (x.Finite? && y.Finite? && x.v >= y.v)
  }

  /** The comparator `(b.elo ?? 0) - (a.elo ?? 0)`: `a` may come first when its Elo is at least `b`'s. */
  predicate EloFirst(a: Json, b: Json) {
    AtLeast(EloKey(a), EloKey(b))
  }

  lemma EloFirstTotalPreorder()
    ensures TotalPreorder((a: Json, b: Json) => EloFirst(a, b))
  {
  }

  /** The users with an Elo, highest first; `None` when one of the users is `null` and reading its Elo throws. */
  function RankedUsers(items: seq<Json>): (r: Option<seq<Json>>)
    ensures r.None? <==> exists i :: 0 <= i < |items| && Nullish(items[i])
  {
    if exists i :: 0 <= i < |items| && Nullish(items[i]) then None
    else Some(SortBy(Filter(items, HasElo), (a: Json, b: Json) => EloFirst(a, b)))
  }

  /** The fallback ranking lists exactly the users with an Elo, highest first. */
  lemma RankedUsersSorted(items: seq<Json>)
    requires RankedUsers(items).Some?
    ensures var s := RankedUsers(items).value;
            multiset(s) == multiset(Filter(items, HasElo))
            && forall i, j :: 0 <= i < j < |s| ==> AtLeast(EloKey(s[i]), EloKey(s[j]))
  {
    EloFirstTotalPreorder();
    SortBySorted(Filter(items, HasElo), (a: Json, b: Json) => EloFirst(a, b));
  }

  /** A fetched answer: `res.ok` and the parsed body. */
  datatype Fetched = Fetched(ok: bool, data: Json)

  /** `x.ok && x.data && Array.isArray(x.data.items)` */
  predicate ListAnswer(f: Fetched) {
    f.ok && Truthy(f.data) && Get(f.data, "items").Arr?
  }

  /** The rank `buildProfile` finds from the ladder answer and, when that fails, the all-users answer; `None` when it throws. */
  function LadderRank(login: string, ladder: Fetched, all: Fetched): Option<Option<nat>>
  {
    if ListAnswer(ladder) then Some(RankBy(Get(ladder.data, "items").items, row => LadderRowIs(row, login)))
    else if ListAnswer(all) then
      match RankedUsers(Get(all.data, "items").items)
      case None => None
      case Some(sorted) => Some(RankBy(sorted, row => UserRowIs(row, login)))
    else Some(None)
  }

  /** Through the ladder, the rank is the position of the first row naming the login by username, or else by name. */
  lemma LadderRankFirstRow(login: string, ladder: Fetched, all: Fetched, k: nat)
    requires ListAnswer(ladder)
    requires var items := Get(ladder.data, "items").items;
             k < |items| && LadderRowIs(items[k], login) && forall j :: 0 <= j < k ==> !LadderRowIs(items[j], login)
    ensures LadderRank(login, ladder, all) == Some(Some(k + 1))
  {
    FirstIndexAt(Get(ladder.data, "items").items, row => LadderRowIs(row, login), k);
  }

  /** The rank loop over a listing, as the method `CountToRank`. */
  method FindLadderRank(login: string, ladder: Fetched, all: Fetched) returns (rank: Option<Option<nat>>)
    ensures rank == LadderRank(login, ladder, all)
  {
    if ListAnswer(ladder) {
      var r := CountToRank(Get(ladder.data, "items").items, row => LadderRowIs(row, login));
      rank := Some(r);
    } else if ListAnswer(all) {
      var sorted := RankedUsers(Get(all.data, "items").items);
      if sorted.None? {
        rank := None;
      } else {
        var r := CountToRank(sorted.value, row => UserRowIs(row, login));
        rank := Some(r);
      }
    } else {
      rank := Some(None);
    }
  }

  // ---------------------------------------------------------------------
  // The command

  const StatsUsage := "Usage: `!stats <twitchLogin>`"

  /** `(args[0] || "").trim().toLowerCase()` */
  function Login(args: seq<string>): (login: string)
    ensures login == LowerStr(login)
  {
    LowerStrIdempotent(Trim(if |args| > 0 then args[0] else ""));
    LowerStr(Trim(if |args| > 0 then args[0] else ""))
  }

  /** `(l.twitchLogin || "").toLowerCase()`; `None` when it throws. */
  function LinkLogin(l: Json): Option<string>
  {
    if Nullish(l) then None
    else
      var t := Get(l, "twitchLogin");
      if !Truthy(t) then Some("") else if t.Str? then Some(LowerStr(t.s)) else None
  }

  /** `links.find(l => (l.twitchLogin || "").toLowerCase() === login)`: `Some(None)` when none matches, `None` when it throws first. */
  function FindLink(links: seq<Json>, login: string): (r: Option<Option<Json>>)
    ensures r == Some(None) <==> forall i :: 0 <= i < |links| ==> LinkLogin(links[i]).Some? && LinkLogin(links[i]).value != login
    ensures r.Some? && r.value.Some? ==> r.value.value in links && LinkLogin(r.value.value) == Some(login)
  {
    if links == [] then Some(None)
    else match LinkLogin(links[0])
      case None => None
      case Some(k) => if k == login then Some(Some(links[0])) else FindLink(links[1..], login)
  }

  /** No link before index `k` reads without throwing and has the login. */
  predicate PassedBy(links: seq<Json>, login: string, k: nat)
    requires k <= |links|
  {
    forall j :: 0 <= j < k ==> LinkLogin(links[j]).Some? && LinkLogin(links[j]).value != login
  }

  /** The link found is the first one with the login. */
  lemma {:induction false} FindLinkFirst(links: seq<Json>, login: string, k: nat)
    requires k < |links| && LinkLogin(links[k]) == Some(login) && PassedBy(links, login, k)
    ensures FindLink(links, login) == Some(Some(links[k]))
  {
    if k > 0 {
      assert PassedBy(links[1..], login, k - 1) by {
        forall j | 0 <= j < k - 1 ensures LinkLogin(links[1..][j]) == LinkLogin(links[j + 1]) { }
      }
      FindLinkFirst(links[1..], login, k - 1);
    }
  }

  /** `find` throws exactly at the first link whose login cannot be read, when no match comes before it. */
  lemma {:induction false} FindLinkThrows(links: seq<Json>, login: string, k: nat)
    requires k < |links| && LinkLogin(links[k]).None? && PassedBy(links, login, k)
    ensures FindLink(links, login).None?
  {
    if k > 0 {
      assert PassedBy(links[1..], login, k - 1) by {
        forall j | 0 <= j < k - 1 ensures LinkLogin(links[1..][j]) == LinkLogin(links[j + 1]) { }
      }
      FindLinkThrows(links[1..], login, k - 1);
    }
  }

  /** The reply of `!stats`; `None` when the command throws. A linked Discord id becomes the mention. */
  function StatsReply(args: seq<string>, links: seq<Json>, built: Profile, fracText: real -> string): Option<string>
  {
    var login := Login(args);
    if login == "" then Some(StatsUsage)
    else
      match FindLink(links, login)
      case None => None
      case Some(link) =>
        var p := if link.Some? && Truthy(Get(link.value, "discordId"))
                 then built.(discordMention := Some("<@" + JsText(Get(link.value, "discordId"), fracText) + ">"))
                 else built;
        Some(Join(ProfileLines(p, fracText), "\n"))
  }

  /** An empty or blank login is answered with the usage text. */
  lemma BlankLoginIsUsage(args: seq<string>, links: seq<Json>, built: Profile, fracText: real -> string)
    requires |args| == 0 || Blank(args[0])
    ensures StatsReply(args, links, built, fracText) == Some(StatsUsage)
  {
    if |args| > 0 {
      TrimEmptyIffBlank(args[0]);
    }
  }

  /** A link found for the login with a Discord id replaces the mention by `<@id>`. */
  lemma LinkedMentionShown(args: seq<string>, links: seq<Json>, built: Profile, fracText: real -> string, l: Json, d: string)
    requires Login(args) != "" && FindLink(links, Login(args)) == Some(Some(l))
    requires Get(l, "discordId") == Str(d) && d != ""
    ensures StatsReply(args, links, built, fracText)
            == Some(Join(ProfileLines(built.(discordMention := Some("<@" + d + ">")), fracText), "\n"))
  {
    assert Truthy(Get(l, "discordId")) && JsText(Get(l, "discordId"), fracText) == d;
  }

  /** A non-empty mention is the second line of the profile. */
  lemma MentionLine(p: Profile, fracText: real -> string)
    requires p.discordMention.Some? && p.discordMention.value != ""
    ensures ProfileLines(p, fracText)[1] == "Discord: " + p.discordMention.value
  {
    assert HeaderLines(p, fracText)[1] == "Discord: " + p.discordMention.value;
  }

  /** Without a link, or with a link lacking a Discord id, the profile is shown as built. */
  lemma UnlinkedProfileAsBuilt(args: seq<string>, links: seq<Json>, built: Profile, fracText: real -> string)
    requires Login(args) != "" && FindLink(links, Login(args)).Some?
    requires FindLink(links, Login(args)).value.None? || !Truthy(Get(FindLink(links, Login(args)).value.value, "discordId"))
    ensures StatsReply(args, links, built, fracText) == Some(Join(ProfileLines(built, fracText), "\n"))
  {
  }
}
