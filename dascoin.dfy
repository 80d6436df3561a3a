/**
 * The `!dascoin` command of the Discord bot (`bots/discord/src/commands/dascoin.ts`):
 * the StreamElements channel candidates are gathered from the environment
 * and the payload of the StreamElements JWT, de-duplicated ignoring case,
 * and every channel is tried with the linked Twitch login and id until a
 * response carries a points balance.
 *
 * The environment is a map; base64 decoding followed by `JSON.parse` is
 * the parameter `parse` (`None` when it throws); each HTTP request is the
 * parameter `respond` (`None` when it throws); the text of a fractional
 * number and `toLocaleString("en-US")` are parameters too.
 */
module Dascoin {
  import opened Common
  import opened DiscordIds

  // ---------------------------------------------------------------------
  // pickDiscordId

  /** `pickDiscordId(input, authorId)` */
  function PickDiscordId(input: Option<string>, authorId: string): (r: string)
    ensures input.None? || input == Some("") ==> r == authorId
  {
    if input.None? || input.value == "" then authorId
    else
      match MentionDigits(input.value)
      case Some(d) => d
      case None => if AllDigits(input.value) then input.value else authorId
  }

  /** The id picked is the mention's digits, an all-digit input itself, or else the author. */
  lemma PickDiscordIdCases(input: string, authorId: string)
    requires input != ""
    ensures MentionDigits(input).Some? ==> PickDiscordId(Some(input), authorId) == MentionDigits(input).value
    ensures AllDigits(input) ==> PickDiscordId(Some(input), authorId) == input
    ensures MentionDigits(input).None? && !AllDigits(input) ==> PickDiscordId(Some(input), authorId) == authorId
  {
    if AllDigits(input) {
      assert input[0] != '<' by { assert IsDigit(input[0]); }
    }
  }

  // ---------------------------------------------------------------------
  // The JWT payload

  /** The base64url alphabet's `-` and `_` become base64's `+` and `/`. */
  function FromUrlAlphabet(s: string): (r: string)
    ensures |r| == |s|
    ensures forall i :: 0 <= i < |s| ==> r[i] == (if s[i] == '-' then '+' else if s[i] == '_' then '/' else s[i])
  {
    if s == [] then [] else [if s[0] == '-' then '+' else if s[0] == '_' then '/' else s[0]] + FromUrlAlphabet(s[1..])
  }

  /** The padding: `==` for a length 2 mod 4, `=` for 3 mod 4, none otherwise. */
  function Padding(n: nat): (r: string)
  {
    if n % 4 == 2 then "==" else if n % 4 == 3 then "=" else ""
  }

  /** The padded text is whole base64 quanta, except for a length 1 mod 4 that no padding can fix. */
  lemma PaddedLength(s: string)
    ensures var t := FromUrlAlphabet(s) + Padding(|FromUrlAlphabet(s)|);
            (|s| % 4 != 1 <==> |t| % 4 == 0) && |t| - |s| <= 2
  {
  }

  /** The translated text holds neither `-` nor `_`. */
  lemma FromUrlAlphabetClean(s: string)
    ensures '-' !in FromUrlAlphabet(s) && '_' !in FromUrlAlphabet(s)
  {
    var r := FromUrlAlphabet(s);
    forall i | 0 <= i < |r| ensures r[i] != '-' && r[i] != '_' { }
  }

  /** `b64urlToJson(b64)`: `None` when decoding or parsing throws. */
  function B64UrlToJson(b64: string, parse: string -> Option<Json>): Option<Json>
  {
    var s := FromUrlAlphabet(b64);
    parse(s + Padding(|s|))
  }

  /** `decodeJwtPayload(jwt)`: the decoded middle part of a token of exactly three dot-separated parts. */
  function DecodeJwtPayload(jwt: string, parse: string -> Option<Json>): (r: Option<Json>)
    ensures jwt == "" ==> r.None?
    ensures |Split(jwt, '.')| != 3 ==> r.None?
  {
    if jwt == "" then None
    else
      var parts := Split(jwt, '.');
      if |parts| != 3 then None else B64UrlToJson(parts[1], parse)
  }

  /** A token `header.payload.signature` decodes its payload part. */
  lemma DecodesMiddlePart(header: string, payload: string, signature: string, parse: string -> Option<Json>)
    requires '.' !in header && '.' !in payload && '.' !in signature
    ensures DecodeJwtPayload(header + "." + payload + "." + signature, parse) == B64UrlToJson(payload, parse)
  {
    var parts := [header, payload, signature];
    assert Join(parts, ".") == header + "." + payload + "." + signature by {
      assert Join(parts[1..], ".") == payload + "." + signature by {
        assert parts[1..][1..] == [signature];
      }
    }
    JoinSplit(parts, '.');
  }

  // ---------------------------------------------------------------------
  // Channel candidates

  /** `(process.env[a] || process.env[b] || "").trim()` */
  function EnvValue(env: map<string, string>, a: string, b: string): string
  {
    Trim(if a in env && env[a] != "" then env[a] else if b in env && env[b] != "" then env[b] else "")
  }

  /** `payload?.[k] ? String(payload[k]).trim() : ""` */
  function PayloadText(payload: Option<Json>, k: string, fracText: real -> string): string
  {
    if payload.Some? && Truthy(Get(payload.value, k)) then Trim(JsText(Get(payload.value, k), fracText)) else ""
  }

  /** `payload && typeof payload.channel === "string" ? payload.channel.trim() : ""` */
  function PayloadChannel(payload: Option<Json>): string
  {
    if payload.Some? && Truthy(payload.value) && Get(payload.value, "channel").Str? then Trim(Get(payload.value, "channel").s) else ""
  }

  /** The non-empty values among the five candidates, in the order they are tried. */
  function NonEmpty(xs: seq<string>): (r: seq<string>)
    ensures forall i :: 0 <= i < |r| ==> r[i] != ""
    ensures forall x :: x in r <==> x in xs && x != ""
  {
    Filter(xs, Filled)
  }

  predicate Filled(x: string) {
    x != ""
  }

  /** The channel candidates: JWT channel, env login, env id, JWT `channel_id`, JWT `provider_id`, empty ones dropped. */
  function ChannelCandidates(env: map<string, string>, payload: Option<Json>, fracText: real -> string): seq<string>
  {
    NonEmpty([PayloadChannel(payload),
              EnvValue(env, "SE_CHANNEL_LOGIN", "STREAMELEMENTS_CHANNEL_LOGIN"),
              EnvValue(env, "SE_CHANNEL_ID", "STREAMELEMENTS_CHANNEL"),
              PayloadText(payload, "channel_id", fracText),
              PayloadText(payload, "provider_id", fracText)])
  }

  /** The key of a candidate: its lowercase form. */
  function KeysOf(xs: seq<string>): set<string>
  {
    set i | 0 <= i < |xs| :: LowerStr(xs[i])
  }

  /** The `filter` with the `seen` set: a candidate is kept when its lowercase key is non-empty and new. */
  function DedupeIgnoringCase(xs: seq<string>): seq<string>
  {
    if xs == [] then []
    else
      var d := DedupeIgnoringCase(xs[..|xs| - 1]);
      var x := xs[|xs| - 1];
      if LowerStr(x) == "" || LowerStr(x) in KeysOf(d) then d else d + [x]
  }

  /** The kept candidates are candidates, and no two of them are equal ignoring case. */
  lemma {:induction false} DedupeDistinct(xs: seq<string>)
    ensures forall y :: y in DedupeIgnoringCase(xs) ==> y in xs
    ensures forall i, j :: 0 <= i < j < |DedupeIgnoringCase(xs)| ==>
              LowerStr(DedupeIgnoringCase(xs)[i]) != LowerStr(DedupeIgnoringCase(xs)[j])
  {
    if xs != [] {
      var q := xs[..|xs| - 1];
      DedupeDistinct(q);
      var d := DedupeIgnoringCase(q);
      var x := xs[|xs| - 1];
      if !(LowerStr(x) == "" || LowerStr(x) in KeysOf(d)) {
        var r := d + [x];
        forall i | 0 <= i < |d| ensures LowerStr(r[i]) != LowerStr(x) {
          assert LowerStr(d[i]) in KeysOf(d);
        }
      }
      assert xs == q + [x];
    }
  }

  /** Every candidate with a key is represented by a kept candidate with the same key. */
  lemma {:induction false} DedupeCovers(xs: seq<string>)
    ensures forall x :: x in xs && LowerStr(x) != "" ==> LowerStr(x) in KeysOf(DedupeIgnoringCase(xs))
  {
    if xs != [] {
      var q := xs[..|xs| - 1];
      DedupeCovers(q);
      var d := DedupeIgnoringCase(q);
      var x := xs[|xs| - 1];
      if !(LowerStr(x) == "" || LowerStr(x) in KeysOf(d)) {
        var r := d + [x];
        assert LowerStr(r[|d|]) in KeysOf(r);
        forall k | k in KeysOf(d) ensures k in KeysOf(r) {
          var i :| 0 <= i < |d| && LowerStr(d[i]) == k;
          assert r[i] == d[i];
        }
      }
      assert xs == q + [x];
    }
  }

  /** The first candidate of each key is the one kept: a candidate whose key no earlier candidate has is kept. */
  lemma {:induction false} DedupeKeepsFirst(xs: seq<string>, j: nat)
    requires j < |xs| && LowerStr(xs[j]) != ""
    requires forall k :: 0 <= k < j ==> LowerStr(xs[k]) != LowerStr(xs[j])
    ensures xs[j] in DedupeIgnoringCase(xs)
  {
    var q := xs[..|xs| - 1];
    var d := DedupeIgnoringCase(q);
    if j < |q| {
      assert q[j] == xs[j];
      DedupeKeepsFirst(q, j);
    } else {
      NewKeyKept(q, xs[j]);
      assert xs == q + [xs[j]];
    }
  }

  /** A candidate whose key no candidate before it has is kept. */
  lemma NewKeyKept(q: seq<string>, x: string)
    requires LowerStr(x) != ""
    requires forall k :: 0 <= k < |q| ==> LowerStr(q[k]) != LowerStr(x)
    ensures x in DedupeIgnoringCase(q + [x])
  {
    var d := DedupeIgnoringCase(q);
    DedupeDistinct(q);
    forall i | 0 <= i < |d| ensures LowerStr(d[i]) != LowerStr(x) {
      assert d[i] in q;
    }
    assert (q + [x])[..|q|] == q;
    assert LowerStr(x) !in KeysOf(d);
    assert DedupeIgnoringCase(q + [x]) == d + [x];
  }

  /** The `filter` over the candidates. */
  method DedupeChannels(xs: seq<string>) returns (channels: seq<string>)
    ensures channels == DedupeIgnoringCase(xs)
  {
    var seen: set<string> := {};
    channels := [];
    var i := 0;
    while i < |xs|
      invariant 0 <= i <= |xs|
      invariant channels == DedupeIgnoringCase(xs[..i])
      invariant seen == KeysOf(channels)
    {
      assert xs[..i + 1][..i] == xs[..i];
      var key := LowerStr(xs[i]);
      if key != "" && key !in seen {
        KeysOfSnoc(channels, xs[i]);
        seen := seen + {key};
        channels := channels + [xs[i]];
      }
      i := i + 1;
    }
    assert xs[..i] == xs;
  }

  lemma KeysOfSnoc(xs: seq<string>, x: string)
    ensures KeysOf(xs + [x]) == KeysOf(xs) + {LowerStr(x)}
  {
    var r := xs + [x];
    assert LowerStr(r[|xs|]) in KeysOf(r);
    forall k | k in KeysOf(r) ensures k in KeysOf(xs) + {LowerStr(x)} {
      var i :| 0 <= i < |r| && LowerStr(r[i]) == k;
      if i < |xs| { assert r[i] == xs[i]; }
    }
    forall k | k in KeysOf(xs) ensures k in KeysOf(r) {
      var i :| 0 <= i < |xs| && LowerStr(xs[i]) == k;
      assert r[i] == xs[i];
    }
  }

  // ---------------------------------------------------------------------
  // The link and the user candidates

  /** `links.find(l => l.discordId === targetId)`: an entry that is `null` throws before a match is reached. */
  datatype Found = FoundLink(link: Json) | NoLink | FindThrew

  function FindLink(links: seq<Json>, target: string): (r: Found)
    ensures r.FoundLink? ==> r.link in links && Get(r.link, "discordId") == Str(target)
  {
    if links == [] then NoLink
    else if links[0].Null? || links[0].Missing? then FindThrew
    else if Get(links[0], "discordId") == Str(target) then FoundLink(links[0])
    else FindLink(links[1..], target)
  }

  /** The link found is the first entry with the target id, and no entry before it is `null`. */
  lemma {:induction false} FindLinkFirst(links: seq<Json>, target: string, k: nat)
    requires k < |links| && Get(links[k], "discordId") == Str(target)
    requires forall j :: 0 <= j < k ==> !(links[j].Null? || links[j].Missing?) && Get(links[j], "discordId") != Str(target)
    ensures FindLink(links, target) == FoundLink(links[k])
  {
    if k > 0 {
      FindLinkFirst(links[1..], target, k - 1);
    }
  }

  /** The users to try: the lowercase Twitch login, then the Twitch id, each when present. */
  function UserCandidates(link: Json, fracText: real -> string): (r: seq<string>)
    ensures |r| <= 2
    ensures Truthy(Get(link, "twitchLogin")) ==> |r| > 0 && r[0] == LowerStr(JsText(Get(link, "twitchLogin"), fracText))
    ensures r == [] <==> !Truthy(Get(link, "twitchLogin")) && !Truthy(Get(link, "twitchId"))
  {
    (if Truthy(Get(link, "twitchLogin")) then [LowerStr(JsText(Get(link, "twitchLogin"), fracText))] else [])
    + (if Truthy(Get(link, "twitchId")) then [JsText(Get(link, "twitchId"), fracText)] else [])
  }

  // ---------------------------------------------------------------------
  // The points search

  /** The points of a response body: `points`, else `total`, else `current`, else `point.current`, when it is a number. */
  function PointsOf(data: Json): Option<real>
  {
    if !Truthy(data) then None
    else if Get(data, "points").Num? then Some(Get(data, "points").n)
    else if Get(data, "total").Num? then Some(Get(data, "total").n)
    else if Get(data, "current").Num? then Some(Get(data, "current").n)
    else if Truthy(Get(data, "point")) && Get(Get(data, "point"), "current").Num? then Some(Get(Get(data, "point"), "current").n)
    else None
  }

  /** A field that is a number shadows every field after it in the order. */
  lemma PointsPrecedence(data: Json)
    requires Truthy(data)
    ensures Get(data, "points").Num? ==> PointsOf(data) == Some(Get(data, "points").n)
    ensures !Get(data, "points").Num? && Get(data, "total").Num? ==> PointsOf(data) == Some(Get(data, "total").n)
    ensures !Get(data, "points").Num? && !Get(data, "total").Num? && Get(data, "current").Num? ==> PointsOf(data) == Some(Get(data, "current").n)
    ensures PointsOf(data).None? <==>
              !Get(data, "points").Num? && !Get(data, "total").Num? && !Get(data, "current").Num?
              && !(Truthy(Get(data, "point")) && Get(Get(data, "point"), "current").Num?)
  {
  }

  /** What a request returns: the HTTP outcome and the parsed body (`Missing` when empty or not JSON). */
  datatype Response = Response(ok: bool, status: int, body: Json)

  /** One recorded attempt. */
  datatype Attempt = Attempt(channel: string, user: string, status: int)

  /** One channel with every user, in order. */
  function Row(channel: string, users: seq<string>): (r: seq<(string, string)>)
    ensures |r| == |users|
    ensures forall j :: 0 <= j < |users| ==> r[j] == (channel, users[j])
  {
    seq(|users|, j requires 0 <= j < |users| => (channel, users[j]))
  }

  /** The pairs in the order the two loops try them: every user of the first channel, then of the next. */
  function Pairs(channels: seq<string>, users: seq<string>): (r: seq<(string, string)>)
    ensures |r| == |channels| * |users|
  {
    if channels == [] then []
    else Pairs(channels[..|channels| - 1], users) + Row(channels[|channels| - 1], users)
  }

  /** Pair `i * |users| + j` is channel `i` with user `j`. */
  lemma {:induction false} PairsAt(channels: seq<string>, users: seq<string>, i: nat, j: nat)
    requires i < |channels| && j < |users|
    ensures i * |users| + j < |Pairs(channels, users)|
    ensures Pairs(channels, users)[i * |users| + j] == (channels[i], users[j])
  {
    var q := channels[..|channels| - 1];
    if i < |q| {
      PairsAt(q, users, i, j);
      assert q[i] == channels[i];
      assert i * |users| + j < |q| * |users| by {
        assert i * |users| + j < (i + 1) * |users|;
        assert (i + 1) * |users| <= |q| * |users|;
      }
    } else {
      assert |q| * |users| + j == i * |users| + j;
    }
  }

  /** A response with `ok` and a numeric points balance ends the search. */
  predicate Hit(r: Option<Response>) {
    r.Some? && r.value.ok && PointsOf(r.value.body).Some?
  }

  /** The index of the first pair whose response is a hit, or the number of pairs. */
  function FirstHit(pairs: seq<(string, string)>, respond: (string, string) -> Option<Response>): (k: nat)
    ensures k <= |pairs|
    ensures forall i :: 0 <= i < k ==> !Hit(respond(pairs[i].0, pairs[i].1))
    ensures k < |pairs| ==> Hit(respond(pairs[k].0, pairs[k].1))
  {
    if pairs == [] then 0
    else if Hit(respond(pairs[0].0, pairs[0].1)) then 0
    else 1 + FirstHit(pairs[1..], respond)
  }

  /** The attempts recorded for some pairs: one per request that did not throw. */
  function Attempts(pairs: seq<(string, string)>, respond: (string, string) -> Option<Response>): seq<Attempt>
  {
    if pairs == [] then []
    else
      var p := pairs[|pairs| - 1];
      var r := respond(p.0, p.1);
      Attempts(pairs[..|pairs| - 1], respond) + (if r.Some? then [Attempt(p.0, p.1, r.value.status)] else [])
  }

  /** The outcome of the search: the points found, with the pair, or the attempts made. */
  datatype Search = Points(channel: string, user: string, points: real) | NotFound(attempts: seq<Attempt>)

  /** The search result as a function of the responses. */
  function SearchOf(channels: seq<string>, users: seq<string>, respond: (string, string) -> Option<Response>): (s: Search)
  {
    var pairs := Pairs(channels, users);
    var k := FirstHit(pairs, respond);
    if k < |pairs| then Points(pairs[k].0, pairs[k].1, PointsOf(respond(pairs[k].0, pairs[k].1).value.body).value)
    else NotFound(Attempts(pairs, respond))
  }

  /** The search stops at the first channel and user, in loop order, whose response is a hit. */
  lemma SearchStopsAtFirstHit(channels: seq<string>, users: seq<string>, respond: (string, string) -> Option<Response>, i: nat, j: nat)
    requires i < |channels| && j < |users| && Hit(respond(channels[i], users[j]))
    requires forall i', j' :: 0 <= i' < |channels| && 0 <= j' < |users| && (i' < i || (i' == i && j' < j)) ==> !Hit(respond(channels[i'], users[j']))
    ensures SearchOf(channels, users, respond) == Points(channels[i], users[j], PointsOf(respond(channels[i], users[j]).value.body).value)
  {
    var done := Pairs(channels[..i], users);
    var row := Row(channels[i], users);
    forall m | 0 <= m < |done| ensures !Hit(respond(done[m].0, done[m].1)) {
      PairsMember(channels[..i], users, m);
    }
    assert FirstHit(done, respond) == |done|;
    var p := done + row[..j];
    forall m | 0 <= m < |p| ensures !Hit(respond(p[m].0, p[m].1)) {
      if m < |done| {
        assert p[m] == done[m];
      } else {
        assert p[m] == (channels[i], users[m - |done|]);
      }
    }
    assert FirstHit(p, respond) == |p|;
    HitAfterPrefix(channels, users, respond, i, j);
  }

  /** Every pair is one of the channels with one of the users. */
  lemma {:induction false} PairsMember(channels: seq<string>, users: seq<string>, m: nat)
    requires m < |Pairs(channels, users)|
    ensures exists a, b :: 0 <= a < |channels| && 0 <= b < |users| && Pairs(channels, users)[m] == (channels[a], users[b])
  {
    var q := channels[..|channels| - 1];
    var last := channels[|channels| - 1];
    if m < |Pairs(q, users)| {
      PairsMember(q, users, m);
      var a, b :| 0 <= a < |q| && 0 <= b < |users| && Pairs(q, users)[m] == (q[a], users[b]);
      assert q[a] == channels[a];
    } else {
      var b := m - |Pairs(q, users)|;
      assert Pairs(channels, users)[m] == (channels[|channels| - 1], users[b]);
    }
  }

  /** The two loops of the command, returning as soon as a response carries points. */
  method SearchPoints(channels: seq<string>, users: seq<string>, respond: (string, string) -> Option<Response>) returns (s: Search)
    ensures s == SearchOf(channels, users, respond)
  {
    var attempts: seq<Attempt> := [];
    var c := 0;
    while c < |channels|
      invariant 0 <= c <= |channels|
      invariant FirstHit(Pairs(channels[..c], users), respond) == |Pairs(channels[..c], users)|
      invariant attempts == Attempts(Pairs(channels[..c], users), respond)
    {
      var u;
      u, attempts := TryUsers(channels[c], users, respond, Pairs(channels[..c], users), attempts);
      if u < |users| {
        HitAfterPrefix(channels, users, respond, c, u);
        return Points(channels[c], users[u], PointsOf(respond(channels[c], users[u]).value.body).value);
      }
      PairsStep(channels, users, c);
      assert Row(channels[c], users)[..u] == Row(channels[c], users);
      c := c + 1;
    }
    assert channels[..c] == channels;
    return NotFound(attempts);
  }

  lemma PairsStep(channels: seq<string>, users: seq<string>, c: nat)
    requires c < |channels|
    ensures Pairs(channels[..c + 1], users) == Pairs(channels[..c], users) + Row(channels[c], users)
  {
    assert channels[..c + 1][..c] == channels[..c];
  }

  /** The inner loop: every user with one channel, stopping at the first hit `u`. */
  method TryUsers(ch: string, users: seq<string>, respond: (string, string) -> Option<Response>,
                  ghost done: seq<(string, string)>, attemptsBefore: seq<Attempt>)
    returns (u: nat, attempts: seq<Attempt>)
    requires FirstHit(done, respond) == |done|
    requires attemptsBefore == Attempts(done, respond)
    ensures u <= |users|
    ensures FirstHit(done + Row(ch, users)[..u], respond) == |done| + u
    ensures u < |users| ==> Hit(respond(ch, users[u]))
    ensures u == |users| ==> attempts == Attempts(done + Row(ch, users), respond)
  {
    var row := Row(ch, users);
    attempts := attemptsBefore;
    u := 0;
    assert done + row[..0] == done;
    while u < |users|
      invariant 0 <= u <= |users|
      invariant FirstHit(done + row[..u], respond) == |done| + u
      invariant attempts == Attempts(done + row[..u], respond)
    {
      UserStep(done, row, u);
      var r := respond(ch, users[u]);
      if r.Some? {
        attempts := attempts + [Attempt(ch, users[u], r.value.status)];
      }
      if Hit(r) {
        return;
      }
      NoHitSnoc(done + row[..u], row[u], respond);
      u := u + 1;
    }
    assert row[..u] == row;
  }

  /** One user more: the pairs tried grow by this channel with that user. */
  lemma UserStep(done: seq<(string, string)>, row: seq<(string, string)>, u: nat)
    requires u < |row|
    ensures done + row[..u + 1] == (done + row[..u]) + [row[u]]
    ensures (done + row[..u + 1])[..|done + row[..u + 1]| - 1] == done + row[..u]
  {
    assert row[..u + 1] == row[..u] + [row[u]];
  }

  /** A list without a hit, extended by a pair that is no hit, still has none. */
  lemma {:induction false} NoHitSnoc(p: seq<(string, string)>, x: (string, string), respond: (string, string) -> Option<Response>)
    requires FirstHit(p, respond) == |p|
    requires !Hit(respond(x.0, x.1))
    ensures FirstHit(p + [x], respond) == |p| + 1
  {
    if p != [] {
      assert (p + [x])[1..] == p[1..] + [x];
      NoHitSnoc(p[1..], x, respond);
    }
  }

  /** The first hit after a prefix without one is the hit itself. */
  lemma {:induction false} FirstHitAfter(p: seq<(string, string)>, rest: seq<(string, string)>, respond: (string, string) -> Option<Response>)
    requires FirstHit(p, respond) == |p|
    requires rest != [] && Hit(respond(rest[0].0, rest[0].1))
    ensures FirstHit(p + rest, respond) == |p|
  {
    if p != [] {
      assert (p + rest)[1..] == p[1..] + rest;
      FirstHitAfter(p[1..], rest, respond);
    } else {
      assert p + rest == rest;
    }
  }

  /** When the search returns at channel `c`, user `u`, that pair is the first hit. */
  lemma HitAfterPrefix(channels: seq<string>, users: seq<string>, respond: (string, string) -> Option<Response>, c: nat, u: nat)
    requires c < |channels| && u < |users|
    requires FirstHit(Pairs(channels[..c], users), respond) == |Pairs(channels[..c], users)|
    requires FirstHit(Pairs(channels[..c], users) + Row(channels[c], users)[..u], respond)
             == |Pairs(channels[..c], users)| + u
    requires Hit(respond(channels[c], users[u]))
    ensures SearchOf(channels, users, respond) == Points(channels[c], users[u], PointsOf(respond(channels[c], users[u]).value.body).value)
  {
    var done := Pairs(channels[..c], users);
    var row := Row(channels[c], users);
    var pairs := Pairs(channels, users);
    PairsPrefix(channels, users, c + 1);
    PairsStep(channels, users, c);
    HitInRow(pairs, done, row, u, respond);
    var k := FirstHit(pairs, respond);
    assert k == |done| + u && k < |pairs| && pairs[k] == (channels[c], users[u]);
  }

  /** In pairs that start with a prefix without a hit and then a row, a hit at `u` in the row is the first hit. */
  lemma HitInRow(pairs: seq<(string, string)>, done: seq<(string, string)>, row: seq<(string, string)>, u: nat,
                 respond: (string, string) -> Option<Response>)
    requires done + row <= pairs && u < |row|
    requires FirstHit(done + row[..u], respond) == |done| + u
    requires Hit(respond(row[u].0, row[u].1))
    ensures FirstHit(pairs, respond) == |done| + u && pairs[|done| + u] == row[u]
  {
    var tail := pairs[|done| + |row|..];
    assert pairs == done + row[..u] + (row[u..] + tail);
    FirstHitAfter(done + row[..u], row[u..] + tail, respond);
  }

  /** The pairs of the first `m` channels come first. */
  lemma {:induction false} PairsPrefix(channels: seq<string>, users: seq<string>, m: nat)
    requires m <= |channels|
    ensures Pairs(channels[..m], users) <= Pairs(channels, users)
  {
    if m < |channels| {
      var q := channels[..|channels| - 1];
      PairsPrefix(q, users, m);
      assert q[..m] == channels[..m];
    } else {
      assert channels[..m] == channels;
    }
  }

  // ---------------------------------------------------------------------
  // The command

  const NoChannel := "⚠️ Set **SE_CHANNEL_LOGIN** (your Twitch channel login, e.g. `dasm1ns`) or **SE_CHANNEL_ID** in ROOT `.env`. Keep **SE_JWT** valid if your channel requires it."
  const NoLinkFound := "❌ No Twitch link found. Use `!inputuser <tLogin> <tId|-> <@mention>` first."
  const NoTwitchIds := "❌ Stored link has no twitch login/id. Re-run `!inputuser`."

  /** Who the reply addresses: "You" for the author, else a mention. */
  function Who(targetId: string, authorId: string): string
  {
    if targetId == authorId then "You" else "<@" + targetId + ">"
  }

  /** `channel/user → status` for every attempt, joined by ", ", or "(no attempts)". */
  function Summary(attempts: seq<Attempt>): (r: string)
    ensures attempts == [] ==> r == "(no attempts)"
  {
    var s := Join(seq(|attempts|, i requires 0 <= i < |attempts| =>
                    attempts[i].channel + "/" + attempts[i].user + " → " + IntToString(attempts[i].status)), ", ");
    if s == "" then "(no attempts)" else s
  }

  /** The reply of the command, or `None` when it throws. */
  function DascoinReply(env: map<string, string>, parse: string -> Option<Json>, arg: Option<string>, authorId: string,
                        links: Json, respond: (string, string) -> Option<Response>,
                        fracText: real -> string, localeText: real -> string): Option<string>
  {
    var jwt := EnvValue(env, "SE_JWT", "STREAMELEMENTS_JWT");
    var channels := DedupeIgnoringCase(ChannelCandidates(env, DecodeJwtPayload(jwt, parse), fracText));
    if channels == [] then Some(NoChannel)
    else if !links.Arr? then None
    else
      var target := PickDiscordId(arg, authorId);
      match FindLink(links.items, target)
      case FindThrew => None
      case NoLink => Some(NoLinkFound)
      case FoundLink(link) =>
        var users := UserCandidates(link, fracText);
        if users == [] then Some(NoTwitchIds)
        else
          match SearchOf(channels, users, respond)
          case Points(_, _, pts) => Some("💰 " + Who(target, authorId) + " have **" + localeText(pts) + "** Dascoin.")
          case NotFound(attempts) =>
            Some("❌ Could not find points for " + Who(target, authorId) + ". Tried: " + Summary(attempts)
                 + ". Set **SE_CHANNEL_LOGIN** to your Twitch login (e.g. dasm1ns) or keep **SE_JWT** valid. (Enable DEBUG=dascoin for response bodies.)")
  }

  /** With no usable JWT and neither channel variable set, the command answers that no channel is configured, whatever the links hold. */
  lemma NoChannelConfigured(env: map<string, string>, parse: string -> Option<Json>, arg: Option<string>, authorId: string,
                            links: Json, respond: (string, string) -> Option<Response>,
                            fracText: real -> string, localeText: real -> string)
    requires DecodeJwtPayload(EnvValue(env, "SE_JWT", "STREAMELEMENTS_JWT"), parse).None?
    requires EnvValue(env, "SE_CHANNEL_LOGIN", "STREAMELEMENTS_CHANNEL_LOGIN") == ""
    requires EnvValue(env, "SE_CHANNEL_ID", "STREAMELEMENTS_CHANNEL") == ""
    ensures DascoinReply(env, parse, arg, authorId, links, respond, fracText, localeText) == Some(NoChannel)
  {
    var payload := DecodeJwtPayload(EnvValue(env, "SE_JWT", "STREAMELEMENTS_JWT"), parse);
    NoCandidates(env, payload, fracText);
    assert DedupeIgnoringCase(ChannelCandidates(env, payload, fracText)) == [];
  }

  /** No payload and no channel variables leave no candidate. */
  lemma NoCandidates(env: map<string, string>, payload: Option<Json>, fracText: real -> string)
    requires payload.None?
    requires EnvValue(env, "SE_CHANNEL_LOGIN", "STREAMELEMENTS_CHANNEL_LOGIN") == ""
    requires EnvValue(env, "SE_CHANNEL_ID", "STREAMELEMENTS_CHANNEL") == ""
    ensures ChannelCandidates(env, payload, fracText) == []
  {
    var xs := [PayloadChannel(payload),
               EnvValue(env, "SE_CHANNEL_LOGIN", "STREAMELEMENTS_CHANNEL_LOGIN"),
               EnvValue(env, "SE_CHANNEL_ID", "STREAMELEMENTS_CHANNEL"),
               PayloadText(payload, "channel_id", fracText),
               PayloadText(payload, "provider_id", fracText)];
    FilterNone(xs, Filled);
  }

  /** With a channel configured, a links file that is not an array makes the command throw. */
  lemma LinksMustBeArray(env: map<string, string>, parse: string -> Option<Json>, arg: Option<string>, authorId: string,
                         links: Json, respond: (string, string) -> Option<Response>,
                         fracText: real -> string, localeText: real -> string)
    requires EnvValue(env, "SE_CHANNEL_LOGIN", "STREAMELEMENTS_CHANNEL_LOGIN") != ""
    requires !links.Arr?
    ensures DascoinReply(env, parse, arg, authorId, links, respond, fracText, localeText).None?
  {
    var xs := ChannelCandidates(env, DecodeJwtPayload(EnvValue(env, "SE_JWT", "STREAMELEMENTS_JWT"), parse), fracText);
    var login := EnvValue(env, "SE_CHANNEL_LOGIN", "STREAMELEMENTS_CHANNEL_LOGIN");
    assert login in xs;
    assert |LowerStr(login)| == |login|;
    DedupeCovers(xs);
  }
}
