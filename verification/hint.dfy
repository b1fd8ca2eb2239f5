/** The re-invocation hint PrintCommandLineWithCursor writes after a paginated
    listing: the command path, every positional argument in single quotes, every
    visited flag except `cursor` as `--name=value`, and `--cursor=<cursor>` last. */
module Hint {
  import opened Wrappers

  /** A command-line flag that was set, with its value rendered as text. */
  datatype Flag = Flag(name: string, value: string)

  /** The command as invoked: its path ("vt search"), its positional arguments
      and the flags that were set, in the order the flag set visits them. */
  datatype CommandLine = CommandLine(path: string, args: seq<string>, visited: seq<Flag>)

  const Banner: string := "\nMORE WITH:\n"

  /** Each argument wrapped in single quotes, in order. */
  function Quoted(args: seq<string>): (q: seq<string>)
    ensures |q| == |args|
    ensures forall i :: 0 <= i < |args| ==> q[i] == "'" + args[i] + "'"
  {
    if |args| == 0 then []
    else Quoted(args[..|args| - 1]) + ["'" + args[|args| - 1] + "'"]
  }

  /** The visited flags other than `cursor`, in visiting order. */
  function NonCursorFlags(visited: seq<Flag>): (kept: seq<Flag>)
    ensures |kept| <= |visited|
    ensures forall i :: 0 <= i < |kept| ==> kept[i].name != "cursor" && kept[i] in visited
    ensures forall f :: f in visited && f.name != "cursor" ==> f in kept
  {
    if |visited| == 0 then []
    else if visited[0].name == "cursor" then NonCursorFlags(visited[1..])
    else [visited[0]] + NonCursorFlags(visited[1..])
  }

  function RenderFlag(f: Flag): string {
    "--" + f.name + "=" + f.value
  }

  /** The flag part of the hint, built as the visiting loop builds it: each
      non-cursor flag rendered in turn, then the new cursor. */
  function HintFlags(visited: seq<Flag>, cursor: string): (flags: seq<string>)
    ensures |flags| == |NonCursorFlags(visited)| + 1
    ensures flags[|flags| - 1] == "--cursor=" + cursor
  {
    if |visited| == 0 then ["--cursor=" + cursor]
    else if visited[0].name == "cursor" then HintFlags(visited[1..], cursor)
    else [RenderFlag(visited[0])] + HintFlags(visited[1..], cursor)
  }

  /** Each flag rendered as `--name=value`, in order. */
  function Rendered(flags: seq<Flag>): (r: seq<string>)
    ensures |r| == |flags|
    ensures forall i :: 0 <= i < |flags| ==> r[i] == RenderFlag(flags[i])
  {
    if |flags| == 0 then [] else [RenderFlag(flags[0])] + Rendered(flags[1..])
  }

  /** The flag part is exactly the non-cursor visited flags, rendered in
      visiting order, followed by the new cursor. */
  lemma {:induction false} HintFlagsRenderNonCursor(visited: seq<Flag>, cursor: string)
    ensures HintFlags(visited, cursor) == Rendered(NonCursorFlags(visited)) + ["--cursor=" + cursor]
  {
    if |visited| > 0 {
      HintFlagsRenderNonCursor(visited[1..], cursor);
      if visited[0].name != "cursor" {
        var kept := NonCursorFlags(visited);
        assert kept == [visited[0]] + NonCursorFlags(visited[1..]);
        assert kept[0] == visited[0] && kept[1..] == NonCursorFlags(visited[1..]);
      }
    }
  }

  /** `parts` separated by `sep`, as Go's strings.Join. */
  function Join(parts: seq<string>, sep: string): string {
    if |parts| == 0 then ""
    else if |parts| == 1 then parts[0]
    else parts[0] + sep + Join(parts[1..], sep)
  }

  /** Joining a list with one more part at the end appends the separator and it. */
  lemma {:induction false} JoinSnoc(rest: seq<string>, last: string, sep: string)
    ensures Join(rest + [last], sep) == if |rest| == 0 then last else Join(rest, sep) + sep + last
    decreases |rest|
  {
    var all := rest + [last];
    if |rest| > 0 {
      assert all[1..] == rest[1..] + [last];
      JoinSnoc(rest[1..], last, sep);
      if |rest| > 1 {
        assert Join(all, sep) == rest[0] + sep + (Join(rest[1..], sep) + sep + last);
      }
    }
  }

  predicate StartsWith(s: string, prefix: string) {
    |prefix| <= |s| && s[..|prefix|] == prefix
  }

  predicate EndsWith(s: string, suffix: string) {
    |suffix| <= |s| && s[|s| - |suffix|..] == suffix
  }

  /** Small sequence facts for LineEnd, kept apart so that each is proved in a
      small context. */
  lemma SplitLast(parts: seq<string>)
    requires |parts| > 0
    ensures parts == parts[..|parts| - 1] + [parts[|parts| - 1]]
  {
  }

  lemma EndsAfterOne(front: string, last: string)
    ensures EndsWith(front + " " + last + "\n", " " + last + "\n")
  {
  }

  lemma EndsAfterMany(front: string, joined: string, last: string)
    ensures EndsWith(front + " " + (joined + " " + last) + "\n", " " + last + "\n")
  {
  }

  /** A hint line ends with a space, its last flag and a newline. */
  lemma LineEnd(front: string, flags: seq<string>)
    requires |flags| > 0
    ensures EndsWith(front + " " + Join(flags, " ") + "\n", " " + flags[|flags| - 1] + "\n")
  {
    var last := flags[|flags| - 1];
    var rest := flags[..|flags| - 1];
    SplitLast(flags);
    JoinSnoc(rest, last, " ");
    if |rest| == 0 {
      EndsAfterOne(front, last);
    } else {
      EndsAfterMany(front, Join(rest, " "), last);
    }
  }

  /** The hint text, or None when the cursor is empty (the listing is exhausted). */
  function CommandLineWithCursor(cmd: CommandLine, cursor: string): (hint: Option<string>)
    ensures hint.None? <==> cursor == ""
    ensures hint.Some? ==> StartsWith(hint.value, Banner + cmd.path + " ")
    ensures hint.Some? ==> EndsWith(hint.value, " " + ("--cursor=" + cursor) + "\n")
  {
    if cursor == "" then None
    else
      var flags := HintFlags(cmd.visited, cursor);
      var args := Join(Quoted(cmd.args), " ");
      var head := Banner + cmd.path + " ";
      assert (head + args + " " + Join(flags, " ") + "\n")[..|head|] == head;
      LineEnd(Banner + cmd.path + " " + args, flags);
      Some(Banner + cmd.path + " " + args + " " + Join(flags, " ") + "\n")
  }

  /** An example: `vt search foo --limit=3` with resulting cursor XYZ. */
  lemma ExampleFlags()
    ensures HintFlags([Flag("limit", "3")], "XYZ") == ["--limit=3", "--cursor=XYZ"]
  {
    var visited := [Flag("limit", "3")];
    assert visited[0].name != "cursor" by { assert "limit"[0] != "cursor"[0]; }
    assert visited[1..] == [];
    assert "--" + "limit" + "=" + "3" == "--limit=3";
    assert "--cursor=" + "XYZ" == "--cursor=XYZ";
  }

  lemma SearchHintExample()
    ensures CommandLineWithCursor(CommandLine("vt search", ["foo"], [Flag("limit", "3")]), "XYZ")
      == Some(Banner + "vt search" + " " + "'foo'" + " " + "--limit=3" + " " + "--cursor=XYZ" + "\n")
  {
    var q := Quoted(["foo"]);
    assert "'" + "foo" + "'" == "'foo'";
    assert q == ["'foo'"];
    assert Join(q, " ") == "'foo'";
    ExampleFlags();
    assert Join(["--limit=3", "--cursor=XYZ"], " ") == "--limit=3" + " " + "--cursor=XYZ";
    var cmd := CommandLine("vt search", ["foo"], [Flag("limit", "3")]);
    assert "XYZ" != "";
    assert CommandLineWithCursor(cmd, "XYZ")
      == Some(Banner + cmd.path + " " + Join(q, " ") + " " + Join(HintFlags(cmd.visited, "XYZ"), " ") + "\n");
    var head := Banner + "vt search" + " " + "'foo'" + " ";
    assert head + ("--limit=3" + " " + "--cursor=XYZ") + "\n" == head + "--limit=3" + " " + "--cursor=XYZ" + "\n";
  }
}
