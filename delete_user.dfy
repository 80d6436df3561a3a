/**
 * The `!deleteuser <username>` command of the Discord bot
 * (`bots/discord/src/commands/deleteUser.ts`): every link in
 * `data/userlinks.json` whose username equals the target, ignoring case,
 * is removed, and the file is rewritten when anything was removed.
 *
 * The file's parsed content is a parameter: `None` when it does not parse
 * (the code then works on an empty list); a file that does not exist yet
 * is created holding `[]`, so it reads as an empty array.
 */
module DeleteUser {
  import opened Common

  const Usage := "Usage: `!deleteuser <username>`"

  /** `(u.username || "").toLowerCase()`; `None` when it throws: a `null` entry, or a username that is truthy but not a string. */
  function UsernameKey(u: Json): Option<string>
  {
    if u.Missing? || u.Null? then None
    else
      var name := Get(u, "username");
      if !Truthy(name) then Some("")
      else if name.Str? then Some(LowerStr(name.s))
      else None
  }

  /** Every entry's username can be read. */
  predicate Readable(arr: seq<Json>) {
    forall i :: 0 <= i < |arr| ==> UsernameKey(arr[i]).Some?
  }

  /** An entry to remove: its lowercased username is non-empty and equals the lowercased target. */
  predicate Matches(u: Json, targetLc: string) {
    UsernameKey(u).Some? && UsernameKey(u).value != "" && UsernameKey(u).value == targetLc
  }

  /** `arr.filter(u => !match)` */
  function Kept(arr: seq<Json>, targetLc: string): (kept: seq<Json>)
    ensures forall u :: u in kept <==> u in arr && !Matches(u, targetLc)
  {
    Filter(arr, u => !Matches(u, targetLc))
  }

  /** How the command ends: the usage reply, a throw, or the reply and the rewritten file, if any. */
  datatype Outcome = UsageReply | Threw | Done(written: Option<seq<Json>>, reply: string)

  /** `(args[0] || "").trim()` */
  function Target(args: seq<string>): string
  {
    Trim(if |args| > 0 then args[0] else "")
  }

  /** The list the command works on: the parsed array, `[]` when the file does not parse, `None` when it is no array. */
  function Links(file: Option<Json>): Option<seq<Json>>
  {
    if file.None? then Some([])
    else if file.value.Arr? then Some(file.value.items)
    else None
  }

  /** `!deleteuser <username>` */
  function DeleteUserCmd(args: seq<string>, file: Option<Json>): Outcome
  {
    var target := Target(args);
    if target == "" then UsageReply
    else
      match Links(file)
      case None => Threw
      case Some(arr) =>
        if !Readable(arr) then Threw
        else
          var kept := Kept(arr, LowerStr(target));
          var removed := |arr| - |kept|;
          if removed > 0 then
            Done(Some(kept), "🗑️ Removed **" + NatToString(removed) + "** user(s) with username `" + target + "` from the database.")
          else Done(None, "❌ No user with username `" + target + "` found.")
  }

  /** An empty target gets the usage reply and leaves the file alone. */
  lemma EmptyTargetIsUsage(args: seq<string>, file: Option<Json>)
    requires Target(args) == ""
    ensures DeleteUserCmd(args, file) == UsageReply
  {
  }

  /** The number reported is the number of matching entries, and the file is written exactly when it is positive. */
  lemma RemovedCount(args: seq<string>, arr: seq<Json>)
    requires Target(args) != "" && Readable(arr)
    ensures var n := CountIf(arr, u => Matches(u, LowerStr(Target(args))));
            var o := DeleteUserCmd(args, Some(Arr(arr)));
            o.Done? && (o.written.Some? <==> n > 0)
            && (n > 0 ==> o.reply == "🗑️ Removed **" + NatToString(n) + "** user(s) with username `" + Target(args) + "` from the database.")
  {
    var t := LowerStr(Target(args));
    FilterCount(arr, u => !Matches(u, t), u => Matches(u, t));
  }

  /** What is written is every entry but the matching ones, in their original order. */
  lemma WrittenKeepsOrder(arr: seq<Json>, more: seq<Json>, targetLc: string)
    ensures Kept(arr + more, targetLc) == Kept(arr, targetLc) + Kept(more, targetLc)
  {
    FilterAppend(arr, more, u => !Matches(u, targetLc));
  }

  /** Entries without a username are always kept; the match ignores case on both sides. */
  lemma MatchIgnoresCase(u: Json, target: string)
    requires target != ""
    ensures !Truthy(Get(u, "username")) ==> !Matches(u, LowerStr(target))
    ensures Get(u, "username").Str? && Get(u, "username").s != "" && !u.Missing? && !u.Null? ==>
              (Matches(u, LowerStr(target)) <==> LowerStr(Get(u, "username").s) == LowerStr(target))
  {
    assert |LowerStr(target)| == |target|;
  }
}
