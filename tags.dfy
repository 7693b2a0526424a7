/** Tag queries of the release plugin: the latest tag (0.1.0 when there is none),
    the list of tags and the number of commits in a range. None of them fails: a
    failed command prints a warning on stderr and yields a default. */
module Tags {
  import opened Wrappers
  import opened Strs
  import opened Effects
  import CliErrors

  const DefaultVersion := "0.1.0"

  const DescribeTags := Cmd("git", ["describe", "--tags", "--abbrev=0"])
  const ListTags := Cmd("git", ["tag"])

  const DescribeFailed := "No tags found or could not execute git describe.\nUsing default version 0.1.0."
  const NoTags := "No tags exist in this repository.\nUsing default version 0.1.0."

  /** `LatestTag`: the trimmed output of `git describe --tags --abbrev=0`, or 0.1.0
      with a warning when the command fails or prints only space. */
  function LatestTagSpec(w: World, h: seq<Call>): (r: Out<string>)
    ensures |r.calls| >= 1 && r.calls[0] == Ask(w, h, DescribeTags)
    ensures var reply := w(h, DescribeTags);
      (!reply.Done? || AllSpace(reply.out) ==> r.value == DefaultVersion && |r.calls| == 2) &&
      (reply.Done? && !AllSpace(reply.out) ==> r.value == TrimSpace(reply.out) && r.calls == [r.calls[0]])
    ensures r.value != ""
  {
    var c := Ask(w, h, DescribeTags);
    if !c.reply.Done? then
      Out(DefaultVersion, [c] + CliErrors.WarningCalls(w, h + [c], "Failed to get latest tag", DescribeFailed))
    else
      TrimSpaceShape(c.reply.out);
      if TrimSpace(c.reply.out) == "" then
        Out(DefaultVersion, [c] + CliErrors.WarningCalls(w, h + [c], "No tags found", NoTags))
      else Out(TrimSpace(c.reply.out), [c])
  }

  method LatestTag(sh: Shell) returns (tag: string)
    modifies sh`trace
    ensures Performs(old(sh.trace), sh.trace, tag, LatestTagSpec(sh.world, old(sh.trace)))
  {
    var reply := sh.Do(DescribeTags);
    if !reply.Done? {
      CliErrors.Warning(sh, "Failed to get latest tag", DescribeFailed);
      return DefaultVersion;
    }
    var trimmed := TrimSpace(reply.out);
    if trimmed == "" {
      CliErrors.Warning(sh, "No tags found", NoTags);
      return DefaultVersion;
    }
    return trimmed;
  }

  /** The tag list in the output of `git tag`: one tag per line, none for empty output. */
  function TagList(out: string): (tags: seq<string>)
    ensures forall t :: t in tags ==> '\n' !in t
    ensures tags == [] <==> AllSpace(out)
    ensures tags != [] ==> Join(tags, "\n") == TrimSpace(out)
  {
    TrimSpaceShape(out);
    var parts := Split(TrimSpace(out), '\n');
    JoinSplit(TrimSpace(out), '\n');
    assert forall t :: t in parts ==> '\n' !in t by {
      forall t | t in parts ensures '\n' !in t {
        var i :| 0 <= i < |parts| && parts[i] == t;
      }
    }
    if |parts| == 1 && parts[0] == "" then [] else parts
  }

  /** Tags written one per line, surrounded by any space, are read back. */
  lemma TagListJoin(tags: seq<string>, lead: string, trail: string)
    requires tags != [] && AllSpace(lead) && AllSpace(trail)
    requires forall i :: 0 <= i < |tags| ==> '\n' !in tags[i]
    requires tags[0] != [] && !IsSpace(tags[0][0])
    requires tags[|tags| - 1] != [] && !IsSpace(tags[|tags| - 1][|tags[|tags| - 1]| - 1])
    ensures TagList(lead + Join(tags, "\n") + trail) == tags
  {
    var body := Join(tags, "\n");
    JoinEnds(tags, "\n");
    TrimAround(lead, body, trail);
    SplitJoin(tags, '\n');
  }

  /** The joined text starts with the first part and ends with the last. */
  lemma JoinEnds(parts: seq<string>, sep: string)
    requires parts != [] && parts[0] != [] && parts[|parts| - 1] != []
    ensures var s := Join(parts, sep);
      s != [] && s[0] == parts[0][0] && s[|s| - 1] == parts[|parts| - 1][|parts[|parts| - 1]| - 1]
  {
    var s := Join(parts, sep);
    JoinEndsWith(parts, sep);
    assert HasPrefix(s, parts[0]);
    assert s[0] == s[..|parts[0]|][0];
    var last := parts[|parts| - 1];
    assert s[|s| - 1] == s[|s| - |last|..][|last| - 1];
  }

  lemma {:induction false} JoinEndsWith(parts: seq<string>, sep: string)
    requires parts != []
    ensures HasPrefix(Join(parts, sep), parts[0])
    ensures HasSuffix(Join(parts, sep), parts[|parts| - 1])
  {
    if |parts| > 1 {
      var rest := Join(parts[1..], sep);
      assert parts[1..][|parts[1..]| - 1] == parts[|parts| - 1];
      JoinEndsWith(parts[1..], sep);
      assert Join(parts, sep) == parts[0] + sep + rest;
      var s := Join(parts, sep);
      var last := parts[|parts| - 1];
      assert s[|s| - |last|..] == rest[|rest| - |last|..];
    }
  }

  /** Trimming removes exactly the surrounding space of text without space at its ends. */
  lemma TrimAround(lead: string, body: string, trail: string)
    requires AllSpace(lead) && AllSpace(trail)
    requires body != [] && !IsSpace(body[0]) && !IsSpace(body[|body| - 1])
    ensures TrimSpace(lead + body + trail) == body
  {
    assert lead + body + trail == lead + (body + trail);
    TrimLeftAround(lead, body + trail);
    TrimRightAround(body, trail);
    assert TrimLeftSpace(lead + body + trail) == body + trail;
    assert TrimRightSpace(TrimLeftSpace(lead + body + trail)) == body;
  }

  lemma {:induction false} TrimLeftAround(lead: string, rest: string)
    requires AllSpace(lead) && rest != [] && !IsSpace(rest[0])
    ensures TrimLeftSpace(lead + rest) == rest
  {
    if lead != [] {
      assert lead[0] in lead;
      assert (lead + rest)[1..] == lead[1..] + rest;
      TrimLeftAround(lead[1..], rest);
    }
  }

  lemma {:induction false} TrimRightAround(body: string, trail: string)
    requires AllSpace(trail) && body != [] && !IsSpace(body[|body| - 1])
    ensures TrimRightSpace(body + trail) == body
  {
    if trail != [] {
      assert trail[|trail| - 1] in trail;
      assert (body + trail)[..|body + trail| - 1] == body + trail[..|trail| - 1];
      TrimRightAround(body, trail[..|trail| - 1]);
    }
  }

  /** `GetTags`: the tags in the output of `git tag`; a failure warns and yields none. */
  function GetTagsSpec(w: World, h: seq<Call>): (r: Out<seq<string>>)
    ensures |r.calls| >= 1 && r.calls[0] == Ask(w, h, ListTags)
    ensures var reply := w(h, ListTags);
      (reply.Done? ==> r.value == TagList(reply.out) && r.calls == [r.calls[0]]) &&
      (!reply.Done? ==> r.value == [] && |r.calls| == 2)
  {
    var c := Ask(w, h, ListTags);
    if !c.reply.Done? then
      Out([], [c] + CliErrors.WarningCalls(w, h + [c], "Failed to fetch tags", "Command failed: " + ErrorText(c.reply)))
    else Out(TagList(c.reply.out), [c])
  }

  method GetTags(sh: Shell) returns (tags: seq<string>)
    modifies sh`trace
    ensures Performs(old(sh.trace), sh.trace, tags, GetTagsSpec(sh.world, old(sh.trace)))
  {
    var reply := sh.Do(ListTags);
    if !reply.Done? {
      CliErrors.Warning(sh, "Failed to fetch tags", "Command failed: " + ErrorText(reply));
      return [];
    }
    var list := Split(TrimSpace(reply.out), '\n');
    if |list| == 1 && list[0] == "" {
      return [];
    }
    return list;
  }

  /** The revision argument: the target alone, or the range `from..to`. */
  function RangeArg(from: string, to: string): string {
    if from == "" then to else from + ".." + to
  }

  function CountCmd(from: string, to: string): Effect {
    Cmd("git", ["rev-list", "--count", RangeArg(from, to)])
  }

  /** `CountCommitsBetween`: the count `git rev-list --count` prints; a failed command
      or output that is not a number warns and yields 0. */
  function CountCommitsSpec(w: World, h: seq<Call>, from: string, to: string): (r: Out<int>)
    ensures MinInt <= r.value <= MaxInt
    ensures |r.calls| >= 1 && r.calls[0] == Ask(w, h, CountCmd(from, to))
    ensures var reply := w(h, CountCmd(from, to));
      (!reply.Done? ==> r.value == 0 && |r.calls| == 2) &&
      (reply.Done? && Atoi(TrimSpace(reply.out)).None? ==> r.value == 0 && |r.calls| == 2) &&
      (reply.Done? && Atoi(TrimSpace(reply.out)).Some? ==>
         r.value == Atoi(TrimSpace(reply.out)).value && r.calls == [r.calls[0]])
  {
    var c := Ask(w, h, CountCmd(from, to));
    if !c.reply.Done? then
      Out(0, [c] + CliErrors.WarningCalls(w, h + [c], "Failed to count commits",
        "Command failed for range " + from + ".." + to + ": " + ErrorText(c.reply)))
    else
      var text := TrimSpace(c.reply.out);
      match Atoi(text)
      case None => Out(0, [c] + CliErrors.WarningCalls(w, h + [c], "Failed to parse commit count", "Invalid count value: " + text))
      case Some(n) => Out(n, [c])
  }

  method CountCommitsBetween(sh: Shell, from: string, to: string) returns (count: int)
    modifies sh`trace
    ensures Performs(old(sh.trace), sh.trace, count, CountCommitsSpec(sh.world, old(sh.trace), from, to))
  {
    var reply := sh.Do(CountCmd(from, to));
    if !reply.Done? {
      CliErrors.Warning(sh, "Failed to count commits",
        "Command failed for range " + from + ".." + to + ": " + ErrorText(reply));
      return 0;
    }
    var text := TrimSpace(reply.out);
    var n := Atoi(text);
    if n.None? {
      CliErrors.Warning(sh, "Failed to parse commit count", "Invalid count value: " + text);
      return 0;
    }
    return n.value;
  }

  /** A count printed by git as digits and a newline is read back exactly, without a
      warning. */
  lemma CountCommitsReadsCount(w: World, h: seq<Call>, from: string, to: string, n: nat)
    requires n <= MaxInt
    requires w(h, CountCmd(from, to)) == Done(Itoa(n) + "\n")
    ensures CountCommitsSpec(w, h, from, to) == Out(n, [Call(CountCmd(from, to), Done(Itoa(n) + "\n"))])
  {
    PrintedCount(n);
    AtoiItoa(n);
  }

  /** A count too large for Go's `int` is not read: it warns and yields 0. */
  lemma CountCommitsOutOfRange(w: World, h: seq<Call>, from: string, to: string, n: nat)
    requires n > MaxInt
    requires w(h, CountCmd(from, to)) == Done(Itoa(n) + "\n")
    ensures CountCommitsSpec(w, h, from, to).value == 0
    ensures |CountCommitsSpec(w, h, from, to).calls| == 2
  {
    PrintedCount(n);
    AtoiOutOfRange(n);
  }

  lemma PrintedCount(n: nat)
    ensures TrimSpace(Itoa(n) + "\n") == Itoa(n)
  {
    assert IsSpace('\n');
    assert AllSpace("\n");
    TrimAround("", Itoa(n), "\n");
    assert "" + Itoa(n) + "\n" == Itoa(n) + "\n";
  }
}
