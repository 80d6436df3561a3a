/**
 * The `!help` command of the Discord bot (`bots/discord/src/commands/help.ts`):
 * the command names are read from the `.ts` files of the commands
 * directory tree, de-duplicated and sorted, and listed one per line with
 * an optional description, sent in chunks of at most 1900 characters.
 *
 * The directory tree is a parameter; a directory that cannot be read is
 * an entry of its own.
 */
module Help {
  import opened Common
  import opened Chunking

  /** A directory entry: a readable directory, one that cannot be read, a file, or anything else. */
  datatype Entry = Dir(name: string, children: seq<Entry>) | Unreadable(name: string) | File(name: string) | Other(name: string)

  const TsSuffix := ".ts"

  /**
   * `path.basename(file, ".ts")` of a bare entry name: the suffix is removed,
   * and a name that is the suffix itself gives the empty name.
   */
  function BaseName(file: string): (r: string)
    ensures EndsWith(file, TsSuffix) ==> r + TsSuffix == file
    ensures !EndsWith(file, TsSuffix) ==> r == file
  {
    if EndsWith(file, TsSuffix) then file[..|file| - 3] else file
  }

  /** A file that is listed: a `.ts` file (not `.ts.disabled`), not starting with `_`, whose base is not `index` in any case. */
  predicate Included(file: string) {
    && EndsWith(file, TsSuffix)
    && !EndsWith(file, ".ts.disabled")
    && !StartsWith(file, "_")
    && LowerStr(BaseName(file)) != "index"
  }

  /** A file named just `.ts` passes every test and is listed under the empty name. */
  lemma BareSuffixListed()
    ensures Included(TsSuffix) && CommandName(TsSuffix) == ""
  {
    assert TsSuffix[..1] == "." != "_";
  }

  /** The `.ts.disabled` test never removes anything: a name ending in `.ts` does not end in `.ts.disabled`. */
  lemma DisabledNeverTs(file: string)
    ensures EndsWith(file, TsSuffix) ==> !EndsWith(file, ".ts.disabled")
  {
    if EndsWith(file, TsSuffix) {
      assert file[|file| - 1] == 's';
    }
  }

  /** The name a listed file contributes: its base name in lowercase. */
  function CommandName(file: string): string
  {
    LowerStr(BaseName(file))
  }

  /** The names `walk` pushes for `entries`, in the order it visits them, depth first. */
  function Names(entries: seq<Entry>): seq<string>
    decreases entries
  {
    if entries == [] then []
    else Names(entries[..|entries| - 1]) + EntryNames(entries[|entries| - 1])
  }

  /** The names one entry contributes: a directory not named `_disabled…` its own, a listed file its command name. */
  function EntryNames(e: Entry): seq<string>
    decreases e
  {
    match e
    case Dir(n, children) => if StartsWith(n, "_disabled") then [] else Names(children)
    case Unreadable(_) => []
    case File(f) => if Included(f) then [CommandName(f)] else []
    case Other(_) => []
  }

  /** Every name that is pushed is the lowercase base name of a listed file somewhere in the tree. */
  lemma {:induction false} NamesAreCommands(entries: seq<Entry>, x: string)
    requires x in Names(entries)
    ensures exists f :: Included(f) && x == CommandName(f)
    decreases entries
  {
    var e := entries[|entries| - 1];
    var q := entries[..|entries| - 1];
    if x in Names(q) {
      NamesAreCommands(q, x);
    } else {
      match e
      case Dir(n, children) =>
        NamesAreCommands(children, x);
      case File(f) =>
        assert Included(f) && x == CommandName(f);
    }
  }

  /** What an entry contributes appears among the names of the entries around it. */
  lemma {:induction false} EntryNamesIn(entries: seq<Entry>, i: nat, x: string)
    requires i < |entries| && x in EntryNames(entries[i])
    ensures x in Names(entries)
  {
    var q := entries[..|entries| - 1];
    assert Names(entries) == Names(q) + EntryNames(entries[|entries| - 1]);
    if i < |q| {
      assert q[i] == entries[i];
      EntryNamesIn(q, i, x);
    }
  }

  /** Every listed file of the top level is pushed. */
  lemma TopFilesListed(entries: seq<Entry>, i: nat)
    requires i < |entries| && entries[i].File? && Included(entries[i].name)
    ensures CommandName(entries[i].name) in Names(entries)
  {
    var e := entries[i];
    FileNames(e);
    EntryNamesIn(entries, i, CommandName(e.name));
  }

  lemma FileNames(e: Entry)
    requires e.File? && Included(e.name)
    ensures CommandName(e.name) in EntryNames(e)
  {
  }

  /** Everything in an enabled sub-directory is pushed, and nothing from a `_disabled` one. */
  lemma {:induction false} SubdirNames(entries: seq<Entry>, i: nat)
    requires i < |entries| && entries[i].Dir?
    ensures !StartsWith(entries[i].name, "_disabled") ==> forall x :: x in Names(entries[i].children) ==> x in Names(entries)
  {
    var q := entries[..|entries| - 1];
    if i < |q| {
      assert q[i] == entries[i];
      SubdirNames(q, i);
    }
  }

  /** Command names are lowercase and never `index`. */
  lemma NamesLowercase(entries: seq<Entry>, x: string)
    requires x in Names(entries)
    ensures LowerStr(x) == x && x != "index"
  {
    NamesAreCommands(entries, x);
    var f :| Included(f) && x == CommandName(f);
    LowerStrIdempotent(BaseName(f));
  }

  /** `walk(dir)`: each entry in order, descending into every directory not named `_disabled…`. */
  method Walk(entries: seq<Entry>) returns (out: seq<string>)
    ensures out == Names(entries)
    decreases entries
  {
    out := [];
    var i := 0;
    while i < |entries|
      invariant 0 <= i <= |entries|
      invariant out == Names(entries[..i])
    {
      assert entries[..i + 1][..i] == entries[..i];
      var e := entries[i];
      match e {
        case Dir(n, children) =>
          if !StartsWith(n, "_disabled") {
            var sub := Walk(children);
            out := out + sub;
          }
        case Unreadable(_) =>
        case File(f) =>
          if EndsWith(f, TsSuffix) && !EndsWith(f, ".ts.disabled") && !StartsWith(f, "_") {
            var base := BaseName(f);
            if LowerStr(base) != "index" {
              out := out + [LowerStr(base)];
            }
          }
        case Other(_) =>
      }
      i := i + 1;
    }
    assert entries[..i] == entries;
  }

  // ---------------------------------------------------------------------
  // De-duplication and sorting

  /** The names after the `seen` filter: the first occurrence of each, in order. */
  function Dedupe(names: seq<string>): seq<string>
  {
    if names == [] then []
    else
      var d := Dedupe(names[..|names| - 1]);
      var x := names[|names| - 1];
      if x in d then d else d + [x]
  }

  /** The filter keeps every name once and adds none. */
  lemma {:induction false} DedupeSet(names: seq<string>)
    ensures forall x :: x in Dedupe(names) <==> x in names
  {
    if names != [] {
      var q := names[..|names| - 1];
      DedupeSet(q);
      assert names == q + [names[|names| - 1]];
    }
  }

  lemma {:induction false} DedupeDistinct(names: seq<string>)
    ensures forall i, j :: 0 <= i < j < |Dedupe(names)| ==> Dedupe(names)[i] != Dedupe(names)[j]
  {
    if names != [] {
      DedupeDistinct(names[..|names| - 1]);
    }
  }

  /** The filter over a list that repeats nothing returns it unchanged. */
  lemma {:induction false} DedupeDistinctUnchanged(names: seq<string>)
    requires forall i, j :: 0 <= i < j < |names| ==> names[i] != names[j]
    ensures Dedupe(names) == names
  {
    if names != [] {
      var q := names[..|names| - 1];
      DedupeDistinctUnchanged(q);
      DedupeSet(q);
      assert names[|names| - 1] !in q;
      assert names == q + [names[|names| - 1]];
    }
  }

  /** `out.filter(...)` with the `seen` set. */
  method DedupeNames(out: seq<string>) returns (uniq: seq<string>)
    ensures uniq == Dedupe(out)
  {
    var seen: set<string> := {};
    uniq := [];
    var i := 0;
    while i < |out|
      invariant 0 <= i <= |out|
      invariant uniq == Dedupe(out[..i])
      invariant forall x :: x in seen <==> x in uniq
    {
      assert out[..i + 1][..i] == out[..i];
      var n := out[i];
      if n !in seen {
        seen := seen + {n};
        uniq := uniq + [n];
      }
      i := i + 1;
    }
    assert out[..i] == out;
  }

  /** `listAvailableCommands()`: nothing when the commands directory cannot be read. */
  function AvailableOf(root: Option<seq<Entry>>): seq<string>
  {
    if root.None? then [] else SortBy(Dedupe(Names(root.value)), (a: string, b: string) => StrLe(a, b))
  }

  /**
   * The command list is sorted, repeats nothing, and holds exactly the
   * names of the listed files of the tree.
   */
  lemma AvailableSortedUnique(root: Option<seq<Entry>>)
    ensures var r := AvailableOf(root);
            && SortedBy(r, (a: string, b: string) => StrLe(a, b))
            && (forall i, j :: 0 <= i < j < |r| ==> r[i] != r[j])
            && (root.Some? ==> forall x :: x in r <==> x in Names(root.value))
  {
    StrLeTotalPreorder();
    if root.Some? {
      var d := Dedupe(Names(root.value));
      var r := AvailableOf(root);
      SortBySorted(d, (a: string, b: string) => StrLe(a, b));
      DedupeSet(Names(root.value));
      DedupeDistinct(Names(root.value));
      assert multiset(r) == multiset(d);
      forall x ensures x in r <==> x in d {
        assert x in r <==> x in multiset(r);
        assert x in d <==> x in multiset(d);
      }
      forall i, j | 0 <= i < j < |r| ensures r[i] != r[j] {
        DistinctMultiset(d, r, i, j);
      }
    }
  }

  /** Two equal elements of a permutation of a sequence without repeats would be two in the original. */
  lemma DistinctMultiset(d: seq<string>, r: seq<string>, i: nat, j: nat)
    requires forall a, b :: 0 <= a < b < |d| ==> d[a] != d[b]
    requires multiset(r) == multiset(d)
    requires i < j < |r|
    ensures r[i] != r[j]
  {
    if r[i] == r[j] {
      var x := r[i];
      assert multiset(r)[x] >= 2 by {
        assert r == r[..i] + [x] + r[i + 1..j] + [x] + r[j + 1..];
        assert multiset(r) == multiset(r[..i]) + multiset{x} + multiset(r[i + 1..j]) + multiset{x} + multiset(r[j + 1..]);
      }
      MultisetAtMostOnce(d, x);
    }
  }

  /** In a sequence without repeats every element occurs at most once. */
  lemma {:induction false} MultisetAtMostOnce(d: seq<string>, x: string)
    requires forall a, b :: 0 <= a < b < |d| ==> d[a] != d[b]
    ensures multiset(d)[x] <= 1
  {
    if d != [] {
      var q := d[..|d| - 1];
      MultisetAtMostOnce(q, x);
      assert d == q + [d[|d| - 1]];
      if d[|d| - 1] == x {
        assert x !in q;
        assert multiset(q)[x] == 0;
      }
    }
  }

  // ---------------------------------------------------------------------
  // The reply

  /** The descriptions of the known commands. */
  const Descriptions: map<string, string> := map[
    "bet" := "Place a bet",
    "dascoin" := "Show your StreamElements coin balance",
    "help" := "Show this help",
    "inputdiscordname" := "Link a Discord name to your user",
    "inputplayer" := "Link a player name",
    "inputtwitchname" := "Link a Twitch name",
    "inputuser" := "Link username, Twitch login, and Discord mention",
    "ladder" := "Show the ladder in ELO order",
    "listall" := "List all users",
    "matchhistory" := "Show match history for a user",
    "mymatchhistory" := "Show your match history",
    "mystats" := "Show your stats",
    "mywallet" := "Show your wallet",
    "record" := "Record a match result",
    "remove" := "Remove a user link",
    "search" := "Search users",
    "stats" := "Show stats for a user"
  ]

  /** The line of a command: its name in backticks, then ` — ` and its description when it has one. */
  function CommandLine(c: string): string
  {
    "`" + c + "`" + (if c in Descriptions then " — " + Descriptions[c] else "")
  }

  const HelpTitle := "**Available Commands**"
  const HelpUsage := "Use: `!<command> [args]`"
  const NoCommands := "ℹ️ No commands found."

  /** The lines of the reply: a title, the usage line, an empty line, and one line per command. */
  function HelpLines(cmds: seq<string>): (r: seq<string>)
    ensures |r| == |cmds| + 3
    ensures r[..3] == [HelpTitle, HelpUsage, ""]
    ensures forall i :: 0 <= i < |cmds| ==> r[i + 3] == CommandLine(cmds[i])
  {
    [HelpTitle, HelpUsage, ""] + seq(|cmds|, i requires 0 <= i < |cmds| => CommandLine(cmds[i]))
  }

  /** What `!help` sends for a given tree. */
  datatype Reply = Replied(text: string) | Chunks(messages: seq<string>)

  /**
   * The `!help` command: the lines are joined with newlines, split again
   * and sent by `chunkAndSend`. When no line holds a newline (a command
   * name comes from a file name, which may) the split gives back the
   * lines, so the chunks are exactly those lines.
   */
  method HelpCommand(root: Option<seq<Entry>>) returns (r: Reply)
    ensures AvailableOf(root) == [] ==> r == Replied(NoCommands)
    ensures AvailableOf(root) != [] ==>
              && r.Chunks?
              && (forall i :: 0 <= i < |r.messages| ==> !Blank(r.messages[i]))
              && exists rest :: Blank(rest) && Concat(r.messages) + rest == Terminated(Split(Join(HelpLines(AvailableOf(root)), "\n"), '\n'))
    ensures AvailableOf(root) != [] && (forall i :: 0 <= i < |HelpLines(AvailableOf(root))| ==> '\n' !in HelpLines(AvailableOf(root))[i]) ==>
              && r.Chunks?
              && exists rest :: Blank(rest) && Concat(r.messages) + rest == Terminated(HelpLines(AvailableOf(root)))
  {
    var cmds: seq<string>;
    if root.None? {
      cmds := [];
    } else {
      var out := Walk(root.value);
      var uniq := DedupeNames(out);
      cmds := SortBy(uniq, (a: string, b: string) => StrLe(a, b));
    }
    if |cmds| == 0 {
      return Replied(NoCommands);
    }
    var lines := HelpLines(cmds);
    var body := Join(lines, "\n");
    var sent, rest := ChunkAndSend(Split(body, '\n'));
    r := Chunks(sent);
    if forall i :: 0 <= i < |lines| ==> '\n' !in lines[i] {
      JoinSplit(lines, '\n');
    }
  }
}
