/**
 * The three listing commands of the bots: `listall.ts` (every username,
 * sorted, in comma-separated replies under a header), the Discord
 * `listall.ts` (numbered ladder lines in pages of 40) and
 * `myMatchHistory.ts` (numbered match lines, one reply or 1800-character
 * chunks).
 *
 * What the API answers is a parameter; a failed fetch is a value of its own.
 */
module Listing {
  import opened Common
  import opened Chunking

  /** What a command's fetch gives: the data, or the error's message if it has one. */
  datatype Fetch<T> = Fetched(data: T) | Failed(message: Option<string>)

  // ---------------------------------------------------------------------
  // listall.ts

  /** The usernames that are truthy, in the order of the list; a missing or null username is `None`. */
  function PresentNames(users: seq<Option<string>>): (r: seq<string>)
    ensures forall i :: 0 <= i < |r| ==> r[i] != ""
    ensures forall s :: s in r <==> s != "" && Some(s) in users
  {
    if users == [] then []
    else
      var rest := PresentNames(users[1..]);
      assert forall s :: Some(s) in users <==> users[0] == Some(s) || Some(s) in users[1..];
      if users[0].Some? && users[0].value != "" then [users[0].value] + rest else rest
  }

  /** The names `listall.ts` lists: the truthy ones, sorted by `localeCompare`, taken as character-code order. */
  function SortedNames(users: seq<Option<string>>): seq<string>
  {
    SortBy(PresentNames(users), (a: string, b: string) => StrLe(a, b))
  }

  lemma SortedNamesSorted(users: seq<Option<string>>)
    ensures SortedBy(SortedNames(users), (a: string, b: string) => StrLe(a, b))
    ensures multiset(SortedNames(users)) == multiset(PresentNames(users))
  {
    StrLeTotalPreorder();
    SortBySorted(PresentNames(users), (a: string, b: string) => StrLe(a, b));
  }

  /** `All users (n):` and a newline. */
  function Header(n: nat): string
  {
    "All users (" + NatToString(n) + "):\n"
  }

  /** `s` ends with ", " (what `/, $/` matches). */
  predicate EndsWithSep(s: string) {
    |s| >= 2 && s[|s| - 2] == ',' && s[|s| - 1] == ' '
  }

  /** `s.replace(/, $/, '')`: one trailing ", " removed. */
  function StripSep(s: string): (r: string)
  {
    if EndsWithSep(s) then s[..|s| - 2] else s
  }

  /** Each name followed by ", ", concatenated. */
  function Pieces(names: seq<string>): string
  {
    if names == [] then "" else Pieces(names[..|names| - 1]) + names[|names| - 1] + ", "
  }

  lemma {:induction false} PiecesJoin(names: seq<string>)
    requires names != []
    ensures Pieces(names) == Join(names, ", ") + ", "
  {
    var last := |names| - 1;
    if last > 0 {
      PiecesJoin(names[..last]);
      JoinSnoc(names[..last], names[last], ", ");
      assert names[..last] + [names[last]] == names;
    } else {
      assert Pieces(names[..0]) == "";
    }
  }

  /** The reply a chunk gives: its trailing separator stripped. */
  lemma StripPieces(prefix: string, names: seq<string>)
    requires names == [] ==> !EndsWithSep(prefix)
    ensures StripSep(prefix + Pieces(names)) == prefix + Join(names, ", ")
  {
    if names != [] {
      PiecesJoin(names);
      var s := prefix + Pieces(names);
      assert s == prefix + Join(names, ", ") + ", ";
      assert s[|s| - 2..] == ", ";
      assert s[..|s| - 2] == prefix + Join(names, ", ");
    } else {
      assert prefix + Pieces(names) == prefix;
    }
  }

  /** The replies sent, the names of each, the open chunk and its names, after some names. */
  datatype Listed = Listed(replies: seq<string>, groups: seq<seq<string>>, chunk: string, cur: seq<string>)

  /** One turn of the loop of `listall.ts`: the chunk is sent first when the name and its ", " would take it past `max`. */
  function Step(st: Listed, name: string, max: int): Listed
  {
    var piece := name + ", ";
    if |st.chunk| + |piece| > max then Listed(st.replies + [StripSep(st.chunk)], st.groups + [st.cur], piece, [name])
    else Listed(st.replies, st.groups, st.chunk + piece, st.cur + [name])
  }

  /** The state of the loop of `listall.ts` after the names `p`. */
  function ListedAfter(p: seq<string>, header: string, max: int): Listed
  {
    if p == [] then Listed([], [], header, [])
    else Step(ListedAfter(p[..|p| - 1], header, max), p[|p| - 1], max)
  }

  /** The chunk a group of names gives: the header in front of the first. */
  function Raw(j: nat, names: seq<string>, header: string): string
  {
    (if j == 0 then header else "") + Pieces(names)
  }

  /** Each reply is its group of names joined by ", ", the first behind the header. */
  predicate Joined(replies: seq<string>, groups: seq<seq<string>>, header: string) {
    forall j :: 0 <= j < |replies| && j < |groups| ==> replies[j] == (if j == 0 then header else "") + Join(groups[j], ", ")
  }

  /**
   * What the loop keeps after the names `p`: one group per reply, the sent
   * names followed by the open ones are `p`, the open chunk holds a name once
   * there is one, and it is its names' pieces, behind the header while
   * nothing is sent.
   */
  predicate Shaped(st: Listed, p: seq<string>, header: string) {
    && |st.replies| == |st.groups|
    && Flatten(st.groups) + st.cur == p
    && (p != [] ==> st.cur != [])
    && st.chunk == Raw(|st.replies|, st.cur, header)
  }

  lemma {:induction false} ListedShaped(p: seq<string>, header: string, max: int)
    ensures Shaped(ListedAfter(p, header, max), p, header)
  {
    if p != [] {
      var q := p[..|p| - 1];
      assert p == q + [p[|p| - 1]];
      ListedShaped(q, header, max);
      StepShaped(ListedAfter(q, header, max), q, p[|p| - 1], header, max);
    }
  }

  lemma StepShaped(st: Listed, q: seq<string>, x: string, header: string, max: int)
    requires Shaped(st, q, header)
    ensures Shaped(Step(st, x, max), q + [x], header)
  {
    if |st.chunk| + |x + ", "| > max {
      SendShaped(st, q, x, header);
    } else {
      KeepShaped(st, q, x, header);
    }
  }

  /** Sending the chunk starts a group with the name alone. */
  lemma SendShaped(st: Listed, q: seq<string>, x: string, header: string)
    requires Shaped(st, q, header)
    ensures Shaped(Listed(st.replies + [StripSep(st.chunk)], st.groups + [st.cur], x + ", ", [x]), q + [x], header)
  {
    FlattenSnoc(st.groups, st.cur);
    assert Flatten(st.groups + [st.cur]) + [x] == q + [x];
    assert Raw(|st.replies| + 1, [x], header) == x + ", " by {
      assert Pieces([x]) == Pieces([]) + x + ", " by { assert [x][..0] == []; }
    }
  }

  /** Otherwise the name joins the open group. */
  lemma KeepShaped(st: Listed, q: seq<string>, x: string, header: string)
    requires Shaped(st, q, header)
    ensures Shaped(Listed(st.replies, st.groups, st.chunk + (x + ", "), st.cur + [x]), q + [x], header)
  {
    assert (st.cur + [x])[..|st.cur|] == st.cur;
    assert Flatten(st.groups) + (st.cur + [x]) == q + [x];
  }

  /** Each reply is its group's names joined by ", ", the first behind the header. */
  lemma {:induction false} ListedReplies(p: seq<string>, header: string, max: int)
    requires !EndsWithSep(header)
    ensures Joined(ListedAfter(p, header, max).replies, ListedAfter(p, header, max).groups, header)
  {
    if p != [] {
      var q := p[..|p| - 1];
      ListedReplies(q, header, max);
      ListedShaped(q, header, max);
      StepReplies(ListedAfter(q, header, max), q, p[|p| - 1], header, max);
    }
  }

  lemma StepReplies(st: Listed, q: seq<string>, x: string, header: string, max: int)
    requires !EndsWithSep(header) && Shaped(st, q, header)
    requires Joined(st.replies, st.groups, header)
    ensures var nx := Step(st, x, max);
            Joined(nx.replies, nx.groups, header)
  {
    if |st.chunk| + |x + ", "| > max {
      SendReplies(st, q, header);
    }
  }

  /** Sending the chunk adds its names joined by ", " as the next reply. */
  lemma SendReplies(st: Listed, q: seq<string>, header: string)
    requires !EndsWithSep(header) && Shaped(st, q, header)
    requires Joined(st.replies, st.groups, header)
    ensures Joined(st.replies + [StripSep(st.chunk)], st.groups + [st.cur], header)
  {
    StripPieces(if |st.replies| == 0 then header else "", st.cur);
    var replies, groups := st.replies + [StripSep(st.chunk)], st.groups + [st.cur];
    forall k | 0 <= k < |replies| && k < |groups| ensures replies[k] == (if k == 0 then header else "") + Join(groups[k], ", ") {
      if k < |st.replies| {
        assert replies[k] == st.replies[k] && groups[k] == st.groups[k];
      }
    }
  }

  /** Only the first group can be empty: when the first name does not fit behind the header. */
  lemma {:induction false} ListedEmptyFirst(p: seq<string>, header: string, max: int)
    ensures forall j :: 0 <= j < |ListedAfter(p, header, max).groups| && ListedAfter(p, header, max).groups[j] == [] ==> j == 0 && |p| > 0 && |header| + |p[0]| + 2 > max
  {
    if p != [] {
      var q := p[..|p| - 1];
      ListedEmptyFirst(q, header, max);
      ListedShaped(q, header, max);
      assert q != [] ==> p[0] == q[0];
    }
  }

  /** Group `j` was started because its first name and its ", " would take group `j - 1`'s chunk past `max`. */
  predicate Overflowed(groups: seq<seq<string>>, j: int, header: string, max: int)
    requires 0 < j < |groups|
  {
    groups[j] != [] && |Raw(j - 1, groups[j - 1], header)| + |groups[j][0]| + 2 > max
  }

  /** A chunk is sent only when the next name and its separator would take it past the limit. */
  lemma {:induction false} ListedGreedy(p: seq<string>, header: string, max: int)
    ensures forall j :: 0 < j <= |ListedAfter(p, header, max).groups| ==> Overflowed(Groups(ListedAfter(p, header, max)), j, header, max)
  {
    if p != [] {
      var q := p[..|p| - 1];
      ListedGreedy(q, header, max);
      ListedShaped(q, header, max);
      StepGreedy(ListedAfter(q, header, max), q, p[|p| - 1], header, max);
    }
  }

  lemma StepGreedy(st: Listed, q: seq<string>, x: string, header: string, max: int)
    requires Shaped(st, q, header)
    requires |st.groups| > 0 ==> st.cur != []
    requires forall j :: 0 < j <= |st.groups| ==> Overflowed(Groups(st), j, header, max)
    ensures var nx := Step(st, x, max);
            forall j :: 0 < j <= |nx.groups| ==> Overflowed(Groups(nx), j, header, max)
  {
    var old_gs := Groups(st);
    var nx := Step(st, x, max);
    var gs := Groups(nx);
    forall j | 0 < j <= |nx.groups| ensures Overflowed(gs, j, header, max) {
      if j <= |st.groups| {
        assert Overflowed(old_gs, j, header, max);
        assert gs[j - 1] == old_gs[j - 1];
        if j < |st.groups| || nx.groups == st.groups + [st.cur] {
          assert gs[j] == old_gs[j];
        } else {
          assert gs[j] == st.cur + [x] && gs[j][0] == st.cur[0];
        }
      } else {
        assert gs[j] == [x] && gs[j - 1] == st.cur;
      }
    }
  }

  /** If the header and every name with its separator fit, every chunk fits. */
  lemma {:induction false} ListedFits(p: seq<string>, header: string, max: int)
    requires |header| <= max
    requires forall k :: 0 <= k < |p| ==> |p[k]| + 2 <= max
    ensures |ListedAfter(p, header, max).chunk| <= max && forall j :: 0 <= j < |ListedAfter(p, header, max).replies| ==> |ListedAfter(p, header, max).replies[j]| <= max
  {
    if p != [] {
      var q := p[..|p| - 1];
      ListedFits(q, header, max);
      var st := ListedAfter(q, header, max);
      assert |StripSep(st.chunk)| <= |st.chunk|;
    }
  }

  /** The replies for the sorted names: "No users.", or the chunks behind the header. */
  function NameReplies(names: seq<string>): seq<string>
  {
    if names == [] then ["No users."] else ChunkReplies(names, Header(|names|))
  }

  /** The replies the loop and the final flush send, for the limit 1900 less the header. */
  function ChunkReplies(names: seq<string>, header: string): seq<string>
  {
    Flushed(ListedAfter(names, header, 1900 - |header|))
  }

  /** The replies sent once the open chunk, if any, is flushed. */
  function Flushed(st: Listed): seq<string>
  {
    if st.chunk != "" then st.replies + [StripSep(st.chunk)] else st.replies
  }

  /** The names of each reply of `ChunkReplies`. */
  function ChunkGroups(names: seq<string>, header: string): seq<seq<string>>
  {
    Groups(ListedAfter(names, header, 1900 - |header|))
  }

  /** The names of each reply once the open chunk is flushed. */
  function Groups(st: Listed): seq<seq<string>>
  {
    st.groups + [st.cur]
  }

  /** The replies of `listall.ts`. */
  function ListAllOf(fetched: Fetch<seq<Option<string>>>): seq<string>
  {
    match fetched
    case Failed(m) => ["❌ " + (if m.Some? then m.value else "fetch failed")]
    case Fetched(users) => NameReplies(SortedNames(users))
  }

  /** `listAll`: the replies the command sends. */
  method ListAll(fetched: Fetch<seq<Option<string>>>) returns (replies: seq<string>)
    ensures replies == ListAllOf(fetched)
  {
    if fetched.Failed? {
      var m := if fetched.message.Some? then fetched.message.value else "fetch failed";
      return ["❌ " + m];
    }
    var users := SortedNames(fetched.data);
    if |users| == 0 {
      return ["No users."];
    }
    replies := SendChunks(users, Header(|users|));
  }

  /** The loop of `listAll` and its last flush. */
  method SendChunks(users: seq<string>, header: string) returns (replies: seq<string>)
    ensures replies == ChunkReplies(users, header)
  {
    var max := 1900 - |header|;
    var chunk := header;
    replies := [];
    var i := 0;
    ghost var st := ListedAfter([], header, max);
    while i < |users|
      invariant 0 <= i <= |users|
      invariant st == ListedAfter(users[..i], header, max)
      invariant replies == st.replies && chunk == st.chunk
    {
      assert users[..i + 1][..i] == users[..i];
      var piece := users[i] + ", ";
      if |chunk| + |piece| > max {
        replies := replies + [StripSep(chunk)];
        chunk := "";
      }
      chunk := chunk + piece;
      st := Step(st, users[i], max);
      i := i + 1;
    }
    assert users[..i] == users;
    if chunk != "" {
      replies := replies + [StripSep(chunk)];
    }
  }

  /** The header ends in a newline, so it never loses a separator, and is longer than "No users.". */
  lemma HeaderShape(n: nat)
    ensures !EndsWithSep(Header(n))
    ensures |Header(n)| >= 13 && Header(n)[0] == 'A'
  {
    var h := Header(n);
    assert h[|h| - 1] == '\n';
  }

  /** One reply per group of names, and the groups one after the other are the names. */
  lemma ChunkRepliesCover(names: seq<string>, header: string)
    requires names != []
    ensures |ChunkReplies(names, header)| == |ChunkGroups(names, header)|
    ensures Flatten(ChunkGroups(names, header)) == names
  {
    ListedShaped(names, header, 1900 - |header|);
    CoverOf(ListedAfter(names, header, 1900 - |header|), header, names);
  }

  /** The final flush adds the open chunk as one more reply and the open names as one more group. */
  lemma CoverOf(st: Listed, header: string, names: seq<string>)
    requires names != [] && Shaped(st, names, header)
    ensures |Flushed(st)| == |Groups(st)|
    ensures Flatten(Groups(st)) == names
  {
    assert |Pieces(st.cur)| > 0;
    FlattenSnoc(st.groups, st.cur);
  }

  /** Each reply is its group joined by ", ", the first behind the header. */
  lemma ChunkRepliesJoined(names: seq<string>, header: string)
    requires names != [] && !EndsWithSep(header)
    ensures Joined(ChunkReplies(names, header), ChunkGroups(names, header), header)
  {
    ListedFlushJoined(names, header, 1900 - |header|);
  }

  lemma ListedFlushJoined(p: seq<string>, header: string, max: int)
    requires p != [] && !EndsWithSep(header)
    ensures Joined(Flushed(ListedAfter(p, header, max)), Groups(ListedAfter(p, header, max)), header)
  {
    ListedShaped(p, header, max);
    ListedReplies(p, header, max);
    FlushJoined(ListedAfter(p, header, max), p, header);
  }

  /** The final flush keeps each reply its group joined by ", ". */
  lemma FlushJoined(st: Listed, names: seq<string>, header: string)
    requires names != [] && Shaped(st, names, header)
    requires Joined(st.replies, st.groups, header)
    ensures Joined(Flushed(st), Groups(st), header)
  {
    LastReplyOf(st, header);
    assert |Pieces(st.cur)| > 0;
    var replies, groups := Flushed(st), Groups(st);
    forall k | 0 <= k < |replies| && k < |groups| ensures replies[k] == (if k == 0 then header else "") + Join(groups[k], ", ") {
      if k < |st.replies| {
        assert replies[k] == st.replies[k] && groups[k] == st.groups[k];
      }
    }
  }

  /** An open chunk holding names is sent as those names joined by ", ", behind the header if nothing was sent yet. */
  lemma LastReplyOf(st: Listed, header: string)
    requires st.cur != [] && st.chunk == Raw(|st.replies|, st.cur, header)
    ensures StripSep(st.chunk) == (if |st.replies| == 0 then header else "") + Join(st.cur, ", ")
  {
    StripRaw(|st.replies|, st.cur, header);
  }

  /** A chunk with names in it loses exactly its last separator. */
  lemma StripRaw(j: nat, cur: seq<string>, header: string)
    requires cur != []
    ensures StripSep(Raw(j, cur, header)) == (if j == 0 then header else "") + Join(cur, ", ")
  {
    StripPieces(if j == 0 then header else "", cur);
  }

  /** Only the first group can be empty, when the first name does not fit behind the header. */
  lemma ChunkRepliesEmptyFirst(names: seq<string>, header: string)
    requires names != []
    ensures var groups := ChunkGroups(names, header);
            forall j :: 0 <= j < |groups| && groups[j] == [] ==> j == 0 && |header| + |names[0]| + 2 > 1900 - |header|
  {
    ListedShaped(names, header, 1900 - |header|);
    ListedEmptyFirst(names, header, 1900 - |header|);
    EmptyFirstOf(ListedAfter(names, header, 1900 - |header|), names, header, 1900 - |header|);
  }

  /** The final flush adds a group that is not empty. */
  lemma EmptyFirstOf(st: Listed, names: seq<string>, header: string, max: int)
    requires names != [] && Shaped(st, names, header)
    requires forall j :: 0 <= j < |st.groups| && st.groups[j] == [] ==> j == 0 && |header| + |names[0]| + 2 > max
    ensures forall j :: 0 <= j < |Groups(st)| && Groups(st)[j] == [] ==> j == 0 && |header| + |names[0]| + 2 > max
  {
    forall k | 0 <= k < |Groups(st)| && Groups(st)[k] == [] ensures k == 0 && |header| + |names[0]| + 2 > max {
      assert k < |st.groups| && Groups(st)[k] == st.groups[k];
    }
  }

  /** The first reply starts with the header. */
  lemma ChunkRepliesHeader(names: seq<string>, header: string)
    requires names != [] && !EndsWithSep(header)
    ensures |ChunkReplies(names, header)| > 0 && StartsWith(ChunkReplies(names, header)[0], header)
  {
    ChunkRepliesCover(names, header);
    ChunkRepliesJoined(names, header);
    var r := ChunkReplies(names, header);
    assert r[0][..|header|] == header;
  }

  /** No names, the one reply "No users."; otherwise the first reply starts with `All users (n):`. */
  lemma NameRepliesEmpty(names: seq<string>)
    ensures names == [] <==> NameReplies(names) == ["No users."]
    ensures names != [] ==> StartsWith(NameReplies(names)[0], Header(|names|))
  {
    if names != [] {
      HeaderShape(|names|);
      ChunkRepliesHeader(names, Header(|names|));
      assert NameReplies(names)[0][0] == 'A';
    }
  }

  /** A reply is sent only when the next name and its ", " would take the chunk past 1900 less the header. */
  lemma ChunkRepliesGreedy(names: seq<string>, header: string)
    ensures var groups := ChunkGroups(names, header);
            forall j :: 0 < j < |groups| ==> Started(groups, j, header)
  {
    var max := 1900 - |header|;
    ListedGreedy(names, header, max);
    assert var st := ListedAfter(names, header, max);
            forall j :: 0 < j <= |st.groups| ==> Overflowed(Groups(st), j, header, max);
    var st := ListedAfter(names, header, max);
    var groups := ChunkGroups(names, header);
    forall j | 0 < j < |groups| ensures Started(groups, j, header) {
      assert Overflowed(Groups(st), j, header, max);
    }
  }

  /** Group `j` of a listing under `header` was started because the one before it was full. */
  predicate Started(groups: seq<seq<string>>, j: int, header: string)
    requires 0 < j < |groups|
  {
    Overflowed(groups, j, header, 1900 - |header|)
  }

  /** If the header and every name with its ", " fit in 1900 less the header, so does every reply. */
  lemma ChunkRepliesFit(names: seq<string>, header: string)
    requires 2 * |header| <= 1900
    requires forall k :: 0 <= k < |names| ==> |names[k]| + 2 <= 1900 - |header|
    ensures forall j :: 0 <= j < |ChunkReplies(names, header)| ==> |ChunkReplies(names, header)[j]| <= 1900 - |header|
  {
    var max := 1900 - |header|;
    var st := ListedAfter(names, header, max);
    ListedFits(names, header, max);
    FlushFits(st, max);
    assert ChunkReplies(names, header) == Flushed(st);
  }

  /** Flushing a chunk that fits sends a reply that fits. */
  lemma FlushFits(st: Listed, max: int)
    requires |st.chunk| <= max && forall j :: 0 <= j < |st.replies| ==> |st.replies[j]| <= max
    ensures forall j :: 0 <= j < |Flushed(st)| ==> |Flushed(st)[j]| <= max
  {
    assert |StripSep(st.chunk)| <= |st.chunk|;
  }

  // ---------------------------------------------------------------------
  // bots/discord/src/commands/listall.ts

  /** A ladder item as the command prints it: the text of its username and of its elo. */
  datatype LadderItem = LadderItem(username: string, elo: string)

  /** Line `i`: the rank right-aligned to width 3, then the username and the elo. */
  function LadderLine(i: nat, u: LadderItem): string
  {
    PadStart(NatToString(i + 1), 3, ' ') + ". " + LadderTail(u)
  }

  /** What follows the rank: the username and the elo. */
  function LadderTail(u: LadderItem): string
  {
    u.username + " — " + u.elo
  }

  function LadderLines(items: seq<LadderItem>): (r: seq<string>)
    ensures |r| == |items|
    ensures forall i :: 0 <= i < |r| ==> r[i] == LadderLine(i, items[i])
  {
    seq(|items|, i requires 0 <= i < |items| => LadderLine(i, items[i]))
  }

  /** The rank in front of the first `.` of line `i` is `i + 1`, behind spaces that pad it to three characters. */
  lemma LadderLineRank(i: nat, u: LadderItem)
    ensures var line, k := LadderLine(i, u), IndexOf(LadderLine(i, u), '.');
            && k >= 3
            && Blank(line[..k][..k - |NatToString(i + 1)|])
            && TrimStart(line[..k]) == NatToString(i + 1)
            && DigitsValue(NatToString(i + 1)) == i + 1
  {
    var d := NatToString(i + 1);
    var rest := " " + LadderTail(u);
    assert LadderLine(i, u) == PadStart(d, 3, ' ') + ['.'] + rest;
    PaddedRank(d, rest);
  }

  /** In a padded number followed by `.`, the first `.` ends the padding and the number. */
  lemma PaddedRank(d: string, rest: string)
    requires d != [] && AllDigits(d)
    ensures var line := PadStart(d, 3, ' ') + ['.'] + rest;
            var k := IndexOf(line, '.');
            && k >= 3
            && Blank(line[..k][..k - |d|])
            && TrimStart(line[..k]) == d
  {
    var pad := PadStart(d, 3, ' ');
    PadNoDot(d);
    IndexOfPrefix(pad, rest, '.');
    assert (pad + ['.'] + rest)[..|pad|] == pad;
    PadTrims(d);
  }

  /** Padding digits with spaces brings in no `.`. */
  lemma PadNoDot(d: string)
    requires AllDigits(d)
    ensures '.' !in PadStart(d, 3, ' ')
  {
    var pad := PadStart(d, 3, ' ');
    forall j | 0 <= j < |pad| ensures pad[j] != '.' {
      if j >= |pad| - |d| {
        assert pad[j] == d[j - (|pad| - |d|)];
      }
    }
  }

  /** The padding is white space, and `trimStart` takes exactly it away. */
  lemma PadTrims(d: string)
    requires d != [] && AllDigits(d)
    ensures var pad := PadStart(d, 3, ' ');
            Blank(pad[..|pad| - |d|]) && TrimStart(pad) == d
  {
    var pad := PadStart(d, 3, ' ');
    var pre := pad[..|pad| - |d|];
    assert pad == pre + d;
    assert IsDigit(d[0]);
    TrimStartBlankPrefix(pre, d);
  }

  const LadderPage := 40
  const LadderTitle := "**Ladder (ELO)**\n"
  const LadderFailed := "Failed to fetch ladder."
  const LadderEmpty := "No users found on the ladder."

  /** The lines of each message: 40 at a time, the last page holding the rest. */
  function PagesOf(lines: seq<string>): seq<seq<string>>
    decreases |lines|
  {
    if lines == [] then []
    else
      var k := if |lines| < LadderPage then |lines| else LadderPage;
      [lines[..k]] + PagesOf(lines[k..])
  }

  /** Each page behind the title. */
  function PageMessages(lines: seq<string>): seq<string>
    decreases |lines|
  {
    if lines == [] then []
    else
      var k := if |lines| < LadderPage then |lines| else LadderPage;
      [LadderTitle + Join(lines[..k], "\n")] + PageMessages(lines[k..])
  }

  /** The messages of the Discord `listall`. */
  function LadderMessagesOf(fetched: Fetch<seq<LadderItem>>): seq<string>
  {
    match fetched
    case Failed(_) => [LadderFailed]
    case Fetched(items) => if items == [] then [LadderEmpty] else PageMessages(LadderLines(items))
  }

  /** `listAll` of the Discord bot: the messages it sends. */
  method LadderMessages(fetched: Fetch<seq<LadderItem>>) returns (msgs: seq<string>)
    ensures msgs == LadderMessagesOf(fetched)
  {
    if fetched.Failed? {
      return [LadderFailed];
    }
    var items := fetched.data;
    if |items| == 0 {
      return [LadderEmpty];
    }
    msgs := SendPages(LadderLines(items));
  }

  /** The `for` loop of `listAll`: one message per 40 lines. */
  method SendPages(lines: seq<string>) returns (msgs: seq<string>)
    ensures msgs == PageMessages(lines)
  {
    msgs := [];
    var i := 0;
    while i < |lines|
      invariant 0 <= i <= |lines|
      invariant msgs + PageMessages(lines[i..]) == PageMessages(lines)
      decreases |lines| - i
    {
      var hi := if i + LadderPage < |lines| then i + LadderPage else |lines|;
      var slice := lines[i..hi];
      assert lines[i..][..hi - i] == slice;
      assert lines[i..][hi - i..] == lines[hi..];
      msgs := msgs + [LadderTitle + Join(slice, "\n")];
      i := hi;
    }
  }

  /** Message `k` is page `k` behind the title. */
  lemma {:induction false} PageMessagesPages(lines: seq<string>)
    ensures |PageMessages(lines)| == |PagesOf(lines)|
    ensures forall k :: 0 <= k < |PagesOf(lines)| ==> PageMessages(lines)[k] == LadderTitle + Join(PagesOf(lines)[k], "\n")
    decreases |lines|
  {
    if lines != [] {
      var k := if |lines| < LadderPage then |lines| else LadderPage;
      PageMessagesPages(lines[k..]);
    }
  }

  lemma {:induction false} FlattenCons(g: seq<string>, gs: seq<seq<string>>)
    ensures Flatten([g] + gs) == g + Flatten(gs)
    decreases |gs|
  {
    if gs == [] {
      assert [g] + gs == [g];
      assert [g][..0] == [];
    } else {
      var last := |gs| - 1;
      var h := [g] + gs;
      FlattenCons(g, gs[..last]);
      assert h[..|h| - 1] == [g] + gs[..last];
      assert h[|h| - 1] == gs[last];
      calc {
        Flatten(h);
        Flatten([g] + gs[..last]) + gs[last];
        (g + Flatten(gs[..last])) + gs[last];
        g + (Flatten(gs[..last]) + gs[last]);
        g + Flatten(gs);
      }
    }
  }

  /** The pages one after the other are the lines, in order. */
  lemma {:induction false} PagesCover(lines: seq<string>)
    ensures Flatten(PagesOf(lines)) == lines
    decreases |lines|
  {
    if lines != [] {
      var k := if |lines| < LadderPage then |lines| else LadderPage;
      PagesCover(lines[k..]);
      FlattenCons(lines[..k], PagesOf(lines[k..]));
      assert lines[..k] + lines[k..] == lines;
    }
  }

  /** There are ceil(n / 40) pages of 1 to 40 lines each. */
  lemma {:induction false} PagesSizes(lines: seq<string>)
    ensures |PagesOf(lines)| == (|lines| + LadderPage - 1) / LadderPage
    ensures forall k :: 0 <= k < |PagesOf(lines)| ==> 1 <= |PagesOf(lines)[k]| <= LadderPage
    decreases |lines|
  {
    if lines != [] {
      var k := if |lines| < LadderPage then |lines| else LadderPage;
      PagesSizes(lines[k..]);
      var ps := PagesOf(lines);
      assert forall j :: 1 <= j < |ps| ==> ps[j] == PagesOf(lines[k..])[j - 1];
    }
  }

  // ---------------------------------------------------------------------
  // myMatchHistory.ts

  /** A match of the history as the command prints it: the text of each field. */
  datatype HistoryMatch = HistoryMatch(p1Name: string, p2Name: string, winnerName: string, winnerScore: string, loserScore: string)

  /** Line `i`: its number `i + 1`, the players, the winner and the score. */
  function HistoryLine(i: nat, m: HistoryMatch): string
  {
    NatToString(i + 1) + ". " + m.p1Name + " vs " + m.p2Name + " — " + m.winnerName + " won " + m.winnerScore + "-" + m.loserScore
  }

  function HistoryLines(ms: seq<HistoryMatch>): (r: seq<string>)
    ensures |r| == |ms|
    ensures forall i :: 0 <= i < |r| ==> r[i] == HistoryLine(i, ms[i])
  {
    seq(|ms|, i requires 0 <= i < |ms| => HistoryLine(i, ms[i]))
  }

  /** The digits in front of the first `.` of line `i` read as `i + 1`: lines are numbered 1..n in order. */
  lemma HistoryLineNumber(i: nat, m: HistoryMatch)
    ensures var line, k := HistoryLine(i, m), IndexOf(HistoryLine(i, m), '.');
            && AllDigits(line[..k]) && DigitsValue(line[..k]) == i + 1
  {
    var d := NatToString(i + 1);
    var rest := " " + m.p1Name + " vs " + m.p2Name + " — " + m.winnerName + " won " + m.winnerScore + "-" + m.loserScore;
    var line := HistoryLine(i, m);
    assert line == d + ['.'] + rest;
    assert '.' !in d by {
      forall j | 0 <= j < |d| ensures d[j] != '.' { assert IsDigit(d[j]); }
    }
    IndexOfPrefix(d, rest, '.');
    assert line[..|d|] == d;
  }

  /**
   * The replies of `myMatchHistory`: "No matches found." for no matches,
   * the joined lines as one reply when they fit in 1900 characters, and
   * otherwise the 1800-character chunks; a failed fetch replies its message.
   */
  method MatchHistoryReplies(fetched: Fetch<seq<HistoryMatch>>) returns (replies: seq<string>)
    ensures fetched.Failed? ==>
              replies == ["❌ " + (if fetched.message.Some? && fetched.message.value != "" then fetched.message.value else "internal error")]
    ensures fetched.Fetched? && fetched.data == [] ==> replies == ["No matches found."]
    ensures fetched.Fetched? && fetched.data != [] && |Join(HistoryLines(fetched.data), "\n")| <= MessageMax ==>
              replies == [Join(HistoryLines(fetched.data), "\n")]
    ensures fetched.Fetched? && |Join(HistoryLines(fetched.data), "\n")| > MessageMax ==>
              var lines := HistoryLines(fetched.data);
              && Concat(replies) == Terminated(lines)
              && ((forall k :: 0 <= k < |lines| ==> |lines[k]| + 1 <= HistoryChunkMax) ==> forall j :: 0 <= j < |replies| ==> |replies[j]| <= HistoryChunkMax)
              && (forall j :: 0 <= j < |replies| && replies[j] == "" ==> j == 0 && |lines[0]| + 1 > HistoryChunkMax)
              && (exists gs :: HistoryCutOf(lines, replies, gs))
  {
    if fetched.Failed? {
      var m := fetched.message;
      return ["❌ " + (if m.Some? && m.value != "" then m.value else "internal error")];
    }
    var matches := fetched.data;
    if |matches| == 0 {
      return ["No matches found."];
    }
    var lines := HistoryLines(matches);
    var out := Join(lines, "\n");
    if |out| <= MessageMax {
      return [out];
    }
    replies := HistoryChunks(lines);
  }
}
