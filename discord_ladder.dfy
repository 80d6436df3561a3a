/**
 * The `!ladder` command of the Discord bot (`bots/discord/src/commands/ladder.ts`):
 * the user links and a stats file are read from the data directory, merged
 * into one row per player (link rows first, then players who only have
 * stats), sorted by Elo and name, numbered and sent in chunks.
 *
 * The files are parameters: a missing file is `None`, a file that does not
 * parse is `Null` (what `readJson` returns). The text of a fractional number
 * is the parameter `fracText`.
 */
module DiscordLadder {
  import opened Common
  import opened Chunking

  /** `ensureArray(x)`: nothing for a falsy value, an array as it is, anything else as a one-element array. */
  function EnsureArray(x: Json): (r: seq<Json>)
    ensures !Truthy(x) ==> r == []
    ensures x.Arr? ==> r == x.items
    ensures Truthy(x) && !x.Arr? ==> r == [x]
  {
    if !Truthy(x) then [] else if x.Arr? then x.items else [x]
  }

  /** An array is its own `ensureArray`, and `ensureArray` of what it returns is the same. */
  lemma EnsureArrayIdempotent(x: Json)
    ensures EnsureArray(Arr(EnsureArray(x))) == EnsureArray(x)
  {
  }

  // ---------------------------------------------------------------------
  // Links and stats as the loaders read them

  datatype Link = Link(discordId: string, username: Option<string>, twitchLogin: Option<string>, twitchId: Option<string>)

  datatype Stat = Stat(username: Option<string>, twitchLogin: Option<string>, discordId: Option<string>, elo: Option<real>, wins: real, losses: real)

  /** `(v[a] || v[b] || v[c] || "").toString().trim() || undefined` */
  function TrimmedName(v: Json, a: string, b: string, c: string, fracText: real -> string): (r: Option<string>)
    ensures r.Some? ==> r.value != "" && r.value == Trim(r.value)
  {
    var t := Trim(JsText(Or(Get(v, a), Or(Get(v, b), Or(Get(v, c), Str("")))), fracText));
    TrimIdempotent(JsText(Or(Get(v, a), Or(Get(v, b), Or(Get(v, c), Str("")))), fracText));
    if t == "" then None else Some(t)
  }

  /** `typeof v[k] === "number" && v[k]` when it is truthy: a non-zero number. */
  function NonZero(v: Json, k: string): (r: Option<real>)
    ensures r.Some? <==> Get(v, k).Num? && Get(v, k).n != 0.0
    ensures r.Some? ==> r.value == Get(v, k).n
  {
    if Get(v, k).Num? && Get(v, k).n != 0.0 then Some(Get(v, k).n) else None
  }

  /**
   * The elo of a stats entry: the first of `elo`, `rating` that is a
   * non-zero number, else `ELO` if it is a number at all, zero included
   * (the last operand of `||` is returned whatever it is).
   */
  function EloOf(v: Json): Option<real>
  {
    var e := NonZero(v, "elo");
    if e.Some? then e
    else
      var r := NonZero(v, "rating");
      if r.Some? then r
      else if Get(v, "ELO").Num? then Some(Get(v, "ELO").n) else None
  }

  /** Wins or losses: the first of three fields that is a non-zero number, else 0. */
  function CountOf(v: Json, a: string, b: string, c: string): real
  {
    var x := NonZero(v, a);
    if x.Some? then x.value
    else
      var y := NonZero(v, b);
      if y.Some? then y.value
      else
        var z := NonZero(v, c);
        if z.Some? then z.value else 0.0
  }

  /** The `map` callback of `loadStatsFrom` for an entry that is not `null` or `undefined`. */
  function StatOf(v: Json, fracText: real -> string): Stat
  {
    Stat(TrimmedName(v, "username", "name", "user", fracText),
         TrimmedName(v, "twitchLogin", "twitch", "twitchName", fracText),
         TrimmedName(v, "discordId", "discord", "id", fracText),
         EloOf(v),
         CountOf(v, "wins", "win", "W"),
         CountOf(v, "losses", "loss", "L"))
  }

  /** The stats entries are well formed when none is `null`: reading a field of `null` throws. */
  predicate NoNullEntry(items: seq<Json>) {
    forall i :: 0 <= i < |items| ==> !(items[i].Null? || items[i].Missing?)
  }

  /** `loadStatsFrom`: `None` when the callback throws on a `null` entry. */
  function LoadStats(body: Json, fracText: real -> string): (r: Option<seq<Stat>>)
    ensures !Truthy(body) ==> r == Some([])
    ensures Truthy(body) ==> (r.Some? <==> NoNullEntry(EnsureArray(body)))
    ensures r.Some? && Truthy(body) ==> |r.value| == |EnsureArray(body)|
  {
    if !Truthy(body) then Some([])
    else
      var arr := EnsureArray(body);
      if !NoNullEntry(arr) then None
      else Some(seq(|arr|, i requires 0 <= i < |arr| => StatOf(arr[i], fracText)))
  }

  /** A stat's elo is the first non-zero number of `elo`, `rating`, `ELO`, or `ELO` when it is the number 0. */
  lemma EloPrecedence(v: Json)
    ensures Get(v, "elo").Num? && Get(v, "elo").n != 0.0 ==> EloOf(v) == Some(Get(v, "elo").n)
    ensures (!(Get(v, "elo").Num? && Get(v, "elo").n != 0.0) && Get(v, "rating").Num? && Get(v, "rating").n != 0.0)
              ==> EloOf(v) == Some(Get(v, "rating").n)
    ensures EloOf(v).Some? && EloOf(v).value == 0.0 ==> Get(v, "ELO") == Num(0.0)
    ensures EloOf(v).None? <==> NonZero(v, "elo").None? && NonZero(v, "rating").None? && !Get(v, "ELO").Num?
  {
  }

  /** Wins and losses are 0 when no field holds a non-zero number, and otherwise one of the fields. */
  lemma CountDefault(v: Json, a: string, b: string, c: string)
    ensures CountOf(v, a, b, c) == 0.0 <==> NonZero(v, a).None? && NonZero(v, b).None? && NonZero(v, c).None?
    ensures CountOf(v, a, b, c) != 0.0 ==> Some(CountOf(v, a, b, c)) in {NonZero(v, a), NonZero(v, b), NonZero(v, c)}
  {
  }

  /** The `map` callback of `loadLinks`. */
  function LinkOf(v: Json, fracText: real -> string): Link
  {
    Link(JsText(Or(Get(v, "discordId"), Or(Get(v, "discord"), Or(Get(v, "id"), Str("")))), fracText),
         TrimmedName(v, "username", "name", "user", fracText),
         TrimmedName(v, "twitchLogin", "twitch", "twitchName", fracText),
         TrimmedName(v, "twitchId", "twitchID", "tid", fracText))
  }

  /** `loadLinks`: the truthy entries read as links, keeping those with a Discord id. */
  function LoadLinks(body: Json, fracText: real -> string): (r: seq<Link>)
    ensures forall i :: 0 <= i < |r| ==> r[i].discordId != ""
  {
    var arr := Filter(EnsureArray(body), (v: Json) => Truthy(v));
    var links := seq(|arr|, i requires 0 <= i < |arr| => LinkOf(arr[i], fracText));
    Filter(links, (l: Link) => l.discordId != "")
  }

  /**
   * `findStats`: the stats of the first candidate file (`stats.json`,
   * `players.json`, `users.json`, `profiles.json`, `elo.json`) that exists
   * and yields at least one entry; `None` when reading one throws.
   */
  function FindStats(files: seq<Option<Json>>, fracText: real -> string): (r: Option<seq<Stat>>)
  {
    if files == [] then Some([])
    else if files[0].None? then FindStats(files[1..], fracText)
    else
      match LoadStats(files[0].value, fracText)
      case None => None
      case Some(arr) => if arr != [] then Some(arr) else FindStats(files[1..], fracText)
  }

  /** The stats come from the first file that exists and has entries; absent or empty files are skipped. */
  lemma {:induction false} FindStatsFirst(files: seq<Option<Json>>, fracText: real -> string, k: nat)
    requires k < |files| && files[k].Some?
    requires LoadStats(files[k].value, fracText).Some? && LoadStats(files[k].value, fracText).value != []
    requires forall j :: 0 <= j < k && files[j].Some? ==> LoadStats(files[j].value, fracText) == Some([])
    ensures FindStats(files, fracText) == LoadStats(files[k].value, fracText)
  {
    if k > 0 {
      FindStatsFirst(files[1..], fracText, k - 1);
    }
  }

  // ---------------------------------------------------------------------
  // buildRows

  datatype Row = Row(key: string, username: Option<string>, twitchLogin: Option<string>, discordId: Option<string>,
                     elo: real, wins: real, losses: real)

  /** `x || ""` for an optional string. */
  function OrEmpty(x: Option<string>): string
  {
    if x.Some? then x.value else ""
  }

  /** The keys the three indexes use: the lowercase username or login, or the Discord id as it is. */
  function UserKey(s: Stat): string { LowerStr(OrEmpty(s.username)) }
  function LoginKey(s: Stat): string { LowerStr(OrEmpty(s.twitchLogin)) }
  function DiscordKey(s: Stat): string { OrEmpty(s.discordId) }

  /** The index after the stats `p`: every stat with a non-empty key is stored under it, a later one over an earlier one. */
  function Index(p: seq<Stat>, key: Stat -> string): map<string, Stat>
  {
    if p == [] then map[]
    else
      var m := Index(p[..|p| - 1], key);
      var s := p[|p| - 1];
      if key(s) != "" then m[key(s) := s] else m
  }

  /** Every stat with a non-empty key is indexed under it. */
  lemma {:induction false} IndexHas(p: seq<Stat>, key: Stat -> string, i: nat)
    requires i < |p| && key(p[i]) != ""
    ensures key(p[i]) in Index(p, key)
  {
    if i < |p| - 1 {
      var q := p[..|p| - 1];
      assert q[i] == p[i];
      IndexHas(q, key, i);
    }
  }

  /**
   * Only non-empty keys are indexed, and the stat stored under a key is the
   * last one with that key: later stats overwrite earlier ones.
   */
  lemma {:induction false} IndexLatest(p: seq<Stat>, key: Stat -> string, k: string)
    requires k in Index(p, key)
    ensures k != ""
    ensures exists i :: 0 <= i < |p| && Index(p, key)[k] == p[i] && key(p[i]) == k
                        && forall j :: i < j < |p| ==> key(p[j]) != k
  {
    var q := p[..|p| - 1];
    var last := |p| - 1;
    if key(p[last]) == k && k != "" {
      assert Index(p, key)[k] == p[last];
    } else {
      assert Index(p, key)[k] == Index(q, key)[k];
      IndexLatest(q, key, k);
      var i :| 0 <= i < |q| && Index(q, key)[k] == q[i] && key(q[i]) == k
               && forall j :: i < j < |q| ==> key(q[j]) != k;
      assert p[i] == q[i];
      forall j | i < j < |p| ensures key(p[j]) != k {
        if j < last { assert p[j] == q[j]; }
      }
    }
  }

  /** Builds the three indexes in one pass over the stats, as the first loop of `buildRows` does. */
  method IndexStats(stats: seq<Stat>) returns (byUser: map<string, Stat>, byLogin: map<string, Stat>, byDiscord: map<string, Stat>)
    ensures byUser == Index(stats, UserKey)
    ensures byLogin == Index(stats, LoginKey)
    ensures byDiscord == Index(stats, DiscordKey)
  {
    byUser, byLogin, byDiscord := map[], map[], map[];
    var i := 0;
    while i < |stats|
      invariant 0 <= i <= |stats|
      invariant byUser == Index(stats[..i], UserKey)
      invariant byLogin == Index(stats[..i], LoginKey)
      invariant byDiscord == Index(stats[..i], DiscordKey)
    {
      assert stats[..i + 1][..i] == stats[..i];
      var s := stats[i];
      var u := LowerStr(OrEmpty(s.username));
      var l := LowerStr(OrEmpty(s.twitchLogin));
      var d := OrEmpty(s.discordId);
      if u != "" { byUser := byUser[u := s]; }
      if l != "" { byLogin := byLogin[l := s]; }
      if d != "" { byDiscord := byDiscord[d := s]; }
      i := i + 1;
    }
    assert stats[..i] == stats;
  }

  /** The stat of a link: by username, else by login (both lowercased), else by Discord id. */
  function LookupStat(l: Link, byUser: map<string, Stat>, byLogin: map<string, Stat>, byDiscord: map<string, Stat>): Option<Stat>
  {
    var u := LowerStr(OrEmpty(l.username));
    var t := LowerStr(OrEmpty(l.twitchLogin));
    var d := l.discordId;
    if u != "" && u in byUser then Some(byUser[u])
    else if t != "" && t in byLogin then Some(byLogin[t])
    else if d != "" && d in byDiscord then Some(byDiscord[d])
    else None
  }

  /**
   * A stat found under the link's username wins over one found under its
   * login, which wins over one found under its Discord id; a link found
   * under none of the three has no stat.
   */
  lemma LookupPrecedence(l: Link, stats: seq<Stat>)
    ensures var r := LookupStat(l, Index(stats, UserKey), Index(stats, LoginKey), Index(stats, DiscordKey));
            var u, t, d := LowerStr(OrEmpty(l.username)), LowerStr(OrEmpty(l.twitchLogin)), l.discordId;
            && (u in Index(stats, UserKey) ==> r == Some(Index(stats, UserKey)[u]))
            && (u !in Index(stats, UserKey) && t in Index(stats, LoginKey) ==> r == Some(Index(stats, LoginKey)[t]))
            && (u !in Index(stats, UserKey) && t !in Index(stats, LoginKey) && d in Index(stats, DiscordKey) ==> r == Some(Index(stats, DiscordKey)[d]))
            && (r.None? <==> u !in Index(stats, UserKey) && t !in Index(stats, LoginKey) && d !in Index(stats, DiscordKey))
  {
    if LowerStr(OrEmpty(l.username)) in Index(stats, UserKey) { IndexLatest(stats, UserKey, LowerStr(OrEmpty(l.username))); }
    if LowerStr(OrEmpty(l.twitchLogin)) in Index(stats, LoginKey) { IndexLatest(stats, LoginKey, LowerStr(OrEmpty(l.twitchLogin))); }
    if l.discordId in Index(stats, DiscordKey) { IndexLatest(stats, DiscordKey, l.discordId); }
  }

  /** The keys seen so far and the rows pushed so far. */
  datatype Acc = Acc(seen: set<string>, rows: seq<Row>)

  /** `(username || twitchLogin || discordId || "").toLowerCase()` */
  function RowKey(username: Option<string>, twitchLogin: Option<string>, discordId: Option<string>): string
  {
    LowerStr(if OrEmpty(username) != "" then OrEmpty(username)
             else if OrEmpty(twitchLogin) != "" then OrEmpty(twitchLogin)
             else OrEmpty(discordId))
  }

  /** `pushRow`: a row with a new non-empty key is added, with elo 1000 and no wins or losses when there is no stat. */
  function Push(acc: Acc, username: Option<string>, twitchLogin: Option<string>, discordId: Option<string>, stat: Option<Stat>): Acc
  {
    var elo := if stat.Some? && stat.value.elo.Some? then stat.value.elo.value else 1000.0;
    var wins := if stat.Some? then stat.value.wins else 0.0;
    var losses := if stat.Some? then stat.value.losses else 0.0;
    var key := RowKey(username, twitchLogin, discordId);
    if key == "" || key in acc.seen then acc
    else Acc(acc.seen + {key}, acc.rows + [Row(key, username, twitchLogin, discordId, elo, wins, losses)])
  }

  /** The rows of the link loop after the links `p`. */
  function LinkRows(acc: Acc, p: seq<Link>, byUser: map<string, Stat>, byLogin: map<string, Stat>, byDiscord: map<string, Stat>): Acc
  {
    if p == [] then acc
    else
      var st := LinkRows(acc, p[..|p| - 1], byUser, byLogin, byDiscord);
      var l := p[|p| - 1];
      Push(st, l.username, l.twitchLogin, Some(l.discordId), LookupStat(l, byUser, byLogin, byDiscord))
  }

  /** The key the stats-only loop tests before pushing. */
  function StatRowKey(s: Stat): string
  {
    var u := LowerStr(OrEmpty(s.username));
    var t := LowerStr(OrEmpty(s.twitchLogin));
    var d := OrEmpty(s.discordId);
    LowerStr(if u != "" then u else if t != "" then t else d)
  }

  /** The rows of the stats-only loop after the stats `p`. */
  function StatRows(acc: Acc, p: seq<Stat>): Acc
  {
    if p == [] then acc
    else StatStep(StatRows(acc, p[..|p| - 1]), p[|p| - 1])
  }

  /** One turn of the stats-only loop: a stat whose key is empty or seen is skipped. */
  function StatStep(acc: Acc, s: Stat): Acc
  {
    var key := StatRowKey(s);
    if key == "" || key in acc.seen then acc
    else Push(acc, s.username, s.twitchLogin, s.discordId, Some(s))
  }

  /** After a turn of the stats-only loop the stat's key has been seen, and so has every key seen before. */
  lemma StatStepSeen(acc: Acc, s: Stat)
    ensures acc.seen <= StatStep(acc, s).seen
    ensures StatRowKey(s) != "" ==> StatRowKey(s) in StatStep(acc, s).seen
  {
    StatKeyAgrees(s);
  }

  /** The rows after the link loop. */
  function LinkStage(links: seq<Link>, stats: seq<Stat>): Acc
  {
    LinkRows(Acc({}, []), links, Index(stats, UserKey), Index(stats, LoginKey), Index(stats, DiscordKey))
  }

  /** `buildRows(links, stats)` */
  function BuildRowsOf(links: seq<Link>, stats: seq<Stat>): seq<Row>
  {
    StatRows(LinkStage(links, stats), stats).rows
  }

  /** The keys of some rows. */
  ghost function Keys(rows: seq<Row>): set<string>
  {
    set i | 0 <= i < |rows| :: rows[i].key
  }

  /** Row keys are non-empty, lowercase and distinct, and `seen` is exactly the set of them. */
  ghost predicate RowsOk(acc: Acc) {
    && (forall i :: 0 <= i < |acc.rows| ==> acc.rows[i].key != "" && LowerStr(acc.rows[i].key) == acc.rows[i].key)
    && acc.seen == Keys(acc.rows)
    && (forall i, j :: 0 <= i < j < |acc.rows| ==> acc.rows[i].key != acc.rows[j].key)
  }

  /** `pushRow` keeps the rows before it and adds at most one, under its key. */
  lemma PushGrows(acc: Acc, username: Option<string>, twitchLogin: Option<string>, discordId: Option<string>, stat: Option<Stat>)
    ensures var r := Push(acc, username, twitchLogin, discordId, stat);
            var key := RowKey(username, twitchLogin, discordId);
            && r.seen == (if key == "" then acc.seen else acc.seen + {key})
            && (r.rows == acc.rows || (|r.rows| == |acc.rows| + 1 && r.rows[..|acc.rows|] == acc.rows && r.rows[|acc.rows|].key == key))
  {
    var r := Push(acc, username, twitchLogin, discordId, stat);
    if r.rows != acc.rows {
      assert r.rows[..|acc.rows|] == acc.rows;
    }
  }

  lemma KeysSnoc(rows: seq<Row>, row: Row)
    ensures Keys(rows + [row]) == Keys(rows) + {row.key}
  {
    var r := rows + [row];
    forall k | k in Keys(r) ensures k in Keys(rows) + {row.key} {
      var i :| 0 <= i < |r| && r[i].key == k;
      if i < |rows| { assert rows[i].key == k; }
    }
    assert r[|rows|].key == row.key;
    forall k | k in Keys(rows) ensures k in Keys(r) {
      var i :| 0 <= i < |rows| && rows[i].key == k;
      assert r[i].key == k;
    }
  }

  /** Appending a row under a new lowercase key keeps the invariant of the rows. */
  lemma SnocOk(acc: Acc, row: Row)
    requires RowsOk(acc) && row.key != "" && LowerStr(row.key) == row.key && row.key !in acc.seen
    ensures RowsOk(Acc(acc.seen + {row.key}, acc.rows + [row]))
  {
    KeysSnoc(acc.rows, row);
    var r := acc.rows + [row];
    forall i | 0 <= i < |acc.rows| ensures r[i] == acc.rows[i] && acc.rows[i].key in Keys(acc.rows) { }
  }

  /** `pushRow` keeps the keys of the rows non-empty, lowercase, distinct and equal to `seen`. */
  lemma PushOk(acc: Acc, username: Option<string>, twitchLogin: Option<string>, discordId: Option<string>, stat: Option<Stat>)
    requires RowsOk(acc)
    ensures RowsOk(Push(acc, username, twitchLogin, discordId, stat))
  {
    var key := RowKey(username, twitchLogin, discordId);
    if key != "" && key !in acc.seen {
      LowerStrIdempotent(if OrEmpty(username) != "" then OrEmpty(username)
                         else if OrEmpty(twitchLogin) != "" then OrEmpty(twitchLogin)
                         else OrEmpty(discordId));
      var elo := if stat.Some? && stat.value.elo.Some? then stat.value.elo.value else 1000.0;
      var wins := if stat.Some? then stat.value.wins else 0.0;
      var losses := if stat.Some? then stat.value.losses else 0.0;
      SnocOk(acc, Row(key, username, twitchLogin, discordId, elo, wins, losses));
    }
  }

  /** After `pushRow` its key has been seen, and so has every key seen before. */
  lemma PushSeen(acc: Acc, username: Option<string>, twitchLogin: Option<string>, discordId: Option<string>, stat: Option<Stat>)
    ensures acc.seen <= Push(acc, username, twitchLogin, discordId, stat).seen
    ensures RowKey(username, twitchLogin, discordId) != "" ==> RowKey(username, twitchLogin, discordId) in Push(acc, username, twitchLogin, discordId, stat).seen
  {
  }

  /** Without a stat a pushed row has elo 1000 and no wins or losses; with one it takes the stat's numbers. */
  lemma PushNumbers(acc: Acc, username: Option<string>, twitchLogin: Option<string>, discordId: Option<string>, stat: Option<Stat>)
    ensures var r := Push(acc, username, twitchLogin, discordId, stat).rows;
            |r| == |acc.rows| + 1 ==>
              var row := r[|acc.rows|];
              && row.username == username && row.twitchLogin == twitchLogin && row.discordId == discordId
              && (stat.None? ==> row.elo == 1000.0 && row.wins == 0.0 && row.losses == 0.0)
              && (stat.Some? ==> row.wins == stat.value.wins && row.losses == stat.value.losses
                                 && row.elo == (if stat.value.elo.Some? then stat.value.elo.value else 1000.0))
  {
  }

  lemma {:induction false} LinkRowsOk(acc: Acc, p: seq<Link>, byUser: map<string, Stat>, byLogin: map<string, Stat>, byDiscord: map<string, Stat>)
    requires RowsOk(acc)
    ensures RowsOk(LinkRows(acc, p, byUser, byLogin, byDiscord))
  {
    if p != [] {
      var q := p[..|p| - 1];
      LinkRowsOk(acc, q, byUser, byLogin, byDiscord);
      var l := p[|p| - 1];
      PushOk(LinkRows(acc, q, byUser, byLogin, byDiscord), l.username, l.twitchLogin, Some(l.discordId), LookupStat(l, byUser, byLogin, byDiscord));
    }
  }

  /** The key of a link. */
  function LinkKey(l: Link): string
  {
    RowKey(l.username, l.twitchLogin, Some(l.discordId))
  }

  /** After the link loop every link with a key has been seen. */
  lemma {:induction false} LinkRowsCover(acc: Acc, p: seq<Link>, byUser: map<string, Stat>, byLogin: map<string, Stat>, byDiscord: map<string, Stat>)
    ensures acc.seen <= LinkRows(acc, p, byUser, byLogin, byDiscord).seen
    ensures forall l :: l in p && LinkKey(l) != "" ==> LinkKey(l) in LinkRows(acc, p, byUser, byLogin, byDiscord).seen
  {
    if p != [] {
      var q := p[..|p| - 1];
      LinkRowsCover(acc, q, byUser, byLogin, byDiscord);
      var l := p[|p| - 1];
      PushSeen(LinkRows(acc, q, byUser, byLogin, byDiscord), l.username, l.twitchLogin, Some(l.discordId), LookupStat(l, byUser, byLogin, byDiscord));
      assert p == q + [l];
    }
  }

  /** The stats-only loop's key is the key `pushRow` computes for the same stat. */
  lemma StatKeyAgrees(s: Stat)
    ensures StatRowKey(s) == RowKey(s.username, s.twitchLogin, s.discordId)
  {
    LowerStrIdempotent(OrEmpty(s.username));
    LowerStrIdempotent(OrEmpty(s.twitchLogin));
    LowerStrIdempotent(OrEmpty(s.discordId));
  }

  lemma {:induction false} StatRowsOk(acc: Acc, p: seq<Stat>)
    requires RowsOk(acc)
    ensures RowsOk(StatRows(acc, p))
  {
    if p != [] {
      var q := p[..|p| - 1];
      StatRowsOk(acc, q);
      var s := p[|p| - 1];
      PushOk(StatRows(acc, q), s.username, s.twitchLogin, s.discordId, Some(s));
    }
  }

  /** After the stats-only loop every stat with a key has been seen. */
  lemma {:induction false} StatRowsCover(acc: Acc, p: seq<Stat>)
    ensures acc.seen <= StatRows(acc, p).seen
    ensures forall s :: s in p && StatRowKey(s) != "" ==> StatRowKey(s) in StatRows(acc, p).seen
  {
    if p != [] {
      var q := p[..|p| - 1];
      StatRowsCover(acc, q);
      var s := p[|p| - 1];
      StatStepSeen(StatRows(acc, q), s);
      assert p == q + [s];
    }
  }

  /** The row a stat gives. */
  function StatRow(s: Stat): Row
  {
    Row(RowKey(s.username, s.twitchLogin, s.discordId), s.username, s.twitchLogin, s.discordId,
        if s.elo.Some? then s.elo.value else 1000.0, s.wins, s.losses)
  }

  /** The stats-only loop appends to the link rows, and each row it adds is a stat's own row. */
  lemma {:induction false} StatRowsAppend(acc: Acc, p: seq<Stat>)
    ensures var r := StatRows(acc, p).rows;
            |r| >= |acc.rows| && r[..|acc.rows|] == acc.rows
    ensures var r := StatRows(acc, p).rows;
            forall i :: |acc.rows| <= i < |r| ==> exists j :: 0 <= j < |p| && r[i] == StatRow(p[j])
  {
    if p != [] {
      var q := p[..|p| - 1];
      StatRowsAppend(acc, q);
      var st := StatRows(acc, q);
      var s := p[|p| - 1];
      var r := StatRows(acc, p);
      PushGrows(st, s.username, s.twitchLogin, s.discordId, Some(s));
      if r.rows != st.rows {
        assert r.rows == st.rows + [StatRow(s)];
        assert r.rows[..|acc.rows|] == st.rows[..|acc.rows|];
      }
      forall i | |acc.rows| <= i < |r.rows| ensures exists j :: 0 <= j < |p| && r.rows[i] == StatRow(p[j]) {
        if i < |st.rows| {
          assert r.rows[i] == st.rows[i];
          var j :| 0 <= j < |q| && st.rows[i] == StatRow(q[j]);
          assert p[j] == q[j];
        } else {
          assert r.rows[i] == StatRow(p[|p| - 1]);
        }
      }
    }
  }

  /** The rows of `buildRows` have non-empty, lowercase, distinct keys. */
  lemma BuildRowsDistinct(links: seq<Link>, stats: seq<Stat>)
    ensures RowsOk(StatRows(LinkStage(links, stats), stats))
  {
    LinkRowsOk(Acc({}, []), links, Index(stats, UserKey), Index(stats, LoginKey), Index(stats, DiscordKey));
    StatRowsOk(LinkStage(links, stats), stats);
  }

  /** Every link and every stat with a key has its row in `buildRows`. */
  lemma BuildRowsCover(links: seq<Link>, stats: seq<Stat>)
    ensures forall l :: l in links && LinkKey(l) != "" ==> LinkKey(l) in Keys(BuildRowsOf(links, stats))
    ensures forall s :: s in stats && StatRowKey(s) != "" ==> StatRowKey(s) in Keys(BuildRowsOf(links, stats))
  {
    BuildRowsDistinct(links, stats);
    LinkRowsCover(Acc({}, []), links, Index(stats, UserKey), Index(stats, LoginKey), Index(stats, DiscordKey));
    StatRowsCover(LinkStage(links, stats), stats);
  }

  /** The link rows come first, and each later row is the row of one of the stats. */
  lemma BuildRowsOrder(links: seq<Link>, stats: seq<Stat>)
    ensures var rows, first := BuildRowsOf(links, stats), LinkStage(links, stats).rows;
            |first| <= |rows| && rows[..|first|] == first
              && forall i :: |first| <= i < |rows| ==> exists j :: 0 <= j < |stats| && rows[i] == StatRow(stats[j])
  {
    StatRowsAppend(LinkStage(links, stats), stats);
  }

  /** `buildRows`: the three loops, with `seen` and `rows` updated as `pushRow` does. */
  method BuildRows(links: seq<Link>, stats: seq<Stat>) returns (rows: seq<Row>)
    ensures rows == BuildRowsOf(links, stats)
  {
    var byUser, byLogin, byDiscord := IndexStats(stats);
    var seen, rows1 := AddLinkRows(links, byUser, byLogin, byDiscord);
    rows := AddStatRows(seen, rows1, stats);
  }

  /** The link loop of `buildRows`. */
  method AddLinkRows(links: seq<Link>, byUser: map<string, Stat>, byLogin: map<string, Stat>, byDiscord: map<string, Stat>)
    returns (seen: set<string>, rows: seq<Row>)
    ensures Acc(seen, rows) == LinkRows(Acc({}, []), links, byUser, byLogin, byDiscord)
  {
    seen, rows := {}, [];
    var i := 0;
    while i < |links|
      invariant 0 <= i <= |links|
      invariant Acc(seen, rows) == LinkRows(Acc({}, []), links[..i], byUser, byLogin, byDiscord)
    {
      assert links[..i + 1][..i] == links[..i];
      var l := links[i];
      var stat := LookupStat(l, byUser, byLogin, byDiscord);
      var acc := Push(Acc(seen, rows), l.username, l.twitchLogin, Some(l.discordId), stat);
      seen, rows := acc.seen, acc.rows;
      i := i + 1;
    }
    assert links[..i] == links;
  }

  /** The stats-only loop of `buildRows`. */
  method AddStatRows(seen0: set<string>, rows0: seq<Row>, stats: seq<Stat>) returns (rows: seq<Row>)
    ensures rows == StatRows(Acc(seen0, rows0), stats).rows
  {
    var seen := seen0;
    rows := rows0;
    var i := 0;
    while i < |stats|
      invariant 0 <= i <= |stats|
      invariant Acc(seen, rows) == StatRows(Acc(seen0, rows0), stats[..i])
    {
      assert stats[..i + 1][..i] == stats[..i];
      var s := stats[i];
      var key := StatRowKey(s);
      if key != "" && key !in seen {
        var acc := Push(Acc(seen, rows), s.username, s.twitchLogin, s.discordId, Some(s));
        seen, rows := acc.seen, acc.rows;
      }
      i := i + 1;
    }
    assert stats[..i] == stats;
  }

  // ---------------------------------------------------------------------
  // Sorting and output

  /** `displayName(r)`: username, else login, else a mention of the Discord id, else `<unknown>`. */
  function DisplayName(r: Row): string
  {
    if OrEmpty(r.username) != "" then OrEmpty(r.username)
    else if OrEmpty(r.twitchLogin) != "" then OrEmpty(r.twitchLogin)
    else if OrEmpty(r.discordId) != "" then "<@" + OrEmpty(r.discordId) + ">"
    else "<unknown>"
  }

  /** The order of `rows.sort`: higher elo first, then lowercase display name. */
  predicate RowLe(a: Row, b: Row) {
    a.elo > b.elo || (a.elo == b.elo && StrLe(LowerStr(DisplayName(a)), LowerStr(DisplayName(b))))
  }

  lemma RowLeTotalPreorder()
    ensures TotalPreorder((a: Row, b: Row) => RowLe(a, b))
  {
    forall a: Row, b: Row ensures RowLe(a, b) || RowLe(b, a) {
      StrLeTotal(LowerStr(DisplayName(a)), LowerStr(DisplayName(b)));
    }
    forall a: Row, b: Row, c: Row | RowLe(a, b) && RowLe(b, c) ensures RowLe(a, c) {
      if a.elo == b.elo == c.elo {
        StrLeTrans(LowerStr(DisplayName(a)), LowerStr(DisplayName(b)), LowerStr(DisplayName(c)));
      }
    }
  }

  /** The sorted rows. */
  function SortRows(rows: seq<Row>): seq<Row>
  {
    SortBy(rows, (a: Row, b: Row) => RowLe(a, b))
  }

  /** Sorted: elo never rises down the list, and equal elos are in name order; the rows are the same rows. */
  lemma SortRowsSorted(rows: seq<Row>)
    ensures var s := SortRows(rows);
            && multiset(s) == multiset(rows)
            && (forall i, j :: 0 <= i < j < |s| ==> s[i].elo >= s[j].elo)
            && (forall i, j :: 0 <= i < j < |s| && s[i].elo == s[j].elo ==> StrLe(LowerStr(DisplayName(s[i])), LowerStr(DisplayName(s[j]))))
  {
    RowLeTotalPreorder();
    SortBySorted(rows, (a: Row, b: Row) => RowLe(a, b));
  }

  const LadderTitle := "**🏆 Ladder**"

  /** The line of the row of rank `rank`. */
  function RankLine(rank: nat, r: Row, fracText: real -> string): string
  {
    NatToString(rank) + ". " + RankTail(r, fracText)
  }

  /** What follows the rank: the name, the rounded Elo and the record. */
  function RankTail(r: Row, fracText: real -> string): string
  {
    DisplayName(r) + " — ELO " + IntToString(Round(r.elo))
    + " (W-" + NumberText(r.wins, fracText) + ", L-" + NumberText(r.losses, fracText) + ")"
  }

  /** One line per row, ranked from 1. */
  function RankedLines(rows: seq<Row>, fracText: real -> string): (r: seq<string>)
    ensures |r| == |rows|
  {
    if rows == [] then []
    else RankedLines(rows[..|rows| - 1], fracText) + [RankLine(|rows|, rows[|rows| - 1], fracText)]
  }

  /** Line `i` is the line of row `i` with rank `i + 1`. */
  lemma {:induction false} RankedLinesAt(rows: seq<Row>, fracText: real -> string, i: nat)
    requires i < |rows|
    ensures RankedLines(rows, fracText)[i] == RankLine(i + 1, rows[i], fracText)
  {
    if i < |rows| - 1 {
      var q := rows[..|rows| - 1];
      RankedLinesAt(q, fracText, i);
      assert q[i] == rows[i];
    }
  }

  /** The output lines: the title, then one line per row, ranked from 1. */
  method OutputLines(rows: seq<Row>, fracText: real -> string) returns (lines: seq<string>)
    ensures lines == [LadderTitle] + RankedLines(rows, fracText)
  {
    var ranked: seq<string> := [];
    var rank := 1;
    var i := 0;
    while i < |rows|
      invariant 0 <= i <= |rows| && rank == i + 1
      invariant ranked == RankedLines(rows[..i], fracText)
    {
      RankedLinesSnoc(rows, fracText, i);
      ranked := ranked + [RankLine(rank, rows[i], fracText)];
      rank := rank + 1;
      i := i + 1;
    }
    assert rows[..i] == rows;
    lines := [LadderTitle] + ranked;
  }

  /** One more row adds its line, ranked one past the rows before it. */
  lemma RankedLinesSnoc(rows: seq<Row>, fracText: real -> string, i: nat)
    requires i < |rows|
    ensures RankedLines(rows[..i + 1], fracText) == RankedLines(rows[..i], fracText) + [RankLine(i + 1, rows[i], fracText)]
  {
    assert rows[..i + 1][..i] == rows[..i];
  }

  /** The rank in front of the first `.` of a line reads back as that rank: ranks run 1..n without gaps. */
  lemma RankLineNumber(rank: nat, r: Row, fracText: real -> string)
    ensures var line := RankLine(rank, r, fracText);
            var k := IndexOf(line, '.');
            AllDigits(line[..k]) && DigitsValue(line[..k]) == rank
  {
    var d := NatToString(rank);
    var rest := " " + RankTail(r, fracText);
    assert RankLine(rank, r, fracText) == d + ['.'] + rest;
    NumberedPrefix(d, rest);
  }

  /** Digits followed by a `.`: the first `.` ends the digits. */
  lemma NumberedPrefix(d: string, rest: string)
    requires AllDigits(d)
    ensures var line := d + ['.'] + rest;
            IndexOf(line, '.') == |d| && line[..|d|] == d
  {
    assert '.' !in d by {
      forall j | 0 <= j < |d| ensures d[j] != '.' { assert IsDigit(d[j]); }
    }
    IndexOfPrefix(d, rest, '.');
    assert (d + ['.'] + rest)[..|d|] == d;
  }

  const MissingLinks := "❌ Missing `data/userlinks.json`."
  const NoUsers := "ℹ️ No users found to list."

  /** What the command does: a reply, or the error it throws while reading a stats file. */
  datatype Outcome = Sent(messages: seq<string>) | Threw

  /**
   * The `!ladder` command: the links file (`None` when it does not exist),
   * the candidate stats files in order, and what is sent.
   */
  method Ladder(linksFile: Option<Json>, statFiles: seq<Option<Json>>, fracText: real -> string) returns (out: Outcome)
    ensures linksFile.None? ==> out == Sent([MissingLinks])
    ensures linksFile.Some? && FindStats(statFiles, fracText).None? ==> out == Threw
    ensures linksFile.Some? && FindStats(statFiles, fracText).Some? ==>
              var rows := BuildRowsOf(LoadLinks(linksFile.value, fracText), FindStats(statFiles, fracText).value);
              (rows == [] ==> out == Sent([NoUsers]))
              && (rows != [] ==> out.Sent? && exists rest :: Blank(rest) && Concat(out.messages) + rest == Terminated([LadderTitle] + RankedLines(SortRows(rows), fracText)))
  {
    if linksFile.None? {
      return Sent([MissingLinks]);
    }
    var links := LoadLinks(linksFile.value, fracText);
    var stats := FindStats(statFiles, fracText);
    if stats.None? {
      return Threw;
    }
    var rows := BuildRows(links, stats.value);
    if |rows| == 0 {
      return Sent([NoUsers]);
    }
    var sorted := SortRows(rows);
    var lines := OutputLines(sorted, fracText);
    var sent, rest := ChunkAndSend(lines);
    out := Sent(sent);
  }
}
