/** `HandleHistory`, the plugin command behind `history`: one item per tag, in the
    order git lists them, each with the number of commits since the tag before it
    (since the beginning for the first). */
module History {
  import opened Wrappers
  import opened Effects
  import opened PluginTypes
  import Tags

  /** The tag an item counts from: none for the first. */
  function From(tags: seq<string>, i: nat): string
    requires i < |tags|
  {
    if i == 0 then "" else tags[i - 1]
  }

  function Item(version: string, from: string, commits: int): (v: Value)
    ensures IsItemOf(v, version, from, commits)
  {
    Obj(map["version" := Str(version), "from" := Str(from), "commits" := Num(IntText(commits))])
  }

  /** An item for tag `version` counted from `from`, with `commits` commits. */
  predicate IsItemOf(v: Value, version: string, from: string, commits: int) {
    v.Obj? && "version" in v.fields && v.fields["version"] == Str(version) &&
    "from" in v.fields && v.fields["from"] == Str(from) &&
    "commits" in v.fields && v.fields["commits"] == Num(IntText(commits))
  }

  /** The trace at the moment tag `i + j` is counted, when the counting of the tags
      from `i` on starts at `h`. */
  function TraceAt(w: World, h: seq<Call>, tags: seq<string>, i: nat, j: nat): seq<Call>
    requires i + j <= |tags|
    decreases j
  {
    if j == 0 then h
    else TraceAt(w, h + Tags.CountCommitsSpec(w, h, From(tags, i), tags[i]).calls, tags, i + 1, j - 1)
  }

  /** The number of commits `git rev-list --count` gives for tag `i + j`, counted from
      the tag before it at that moment. */
  function CountAt(w: World, h: seq<Call>, tags: seq<string>, i: nat, j: nat): int
    requires i + j < |tags|
  {
    Tags.CountCommitsSpec(w, TraceAt(w, h, tags, i, j), From(tags, i + j), tags[i + j]).value
  }

  /** The items of the tags from index `i` on, with the counting calls they make. */
  function ItemsSpec(w: World, h: seq<Call>, tags: seq<string>, i: nat): (r: Out<seq<Value>>)
    requires i <= |tags|
    decreases |tags| - i
  {
    if i == |tags| then Out([], [])
    else
      var c := Tags.CountCommitsSpec(w, h, From(tags, i), tags[i]);
      var rest := ItemsSpec(w, h + c.calls, tags, i + 1);
      Out([Item(tags[i], From(tags, i), c.value)] + rest.value, c.calls + rest.calls)
  }

  /** The items from `i` on: that of tag `i`, then those after it, with the calls in
      the same order. */
  lemma ItemsCons(w: World, h: seq<Call>, tags: seq<string>, i: nat)
    requires i < |tags|
    ensures var c := Tags.CountCommitsSpec(w, h, From(tags, i), tags[i]);
      var rest := ItemsSpec(w, h + c.calls, tags, i + 1);
      ItemsSpec(w, h, tags, i).value == [Item(tags[i], From(tags, i), c.value)] + rest.value &&
      ItemsSpec(w, h, tags, i).calls == c.calls + rest.calls
  {
  }

  function HistoryResponse(items: seq<Value>): (r: Response)
    ensures r.status == "success" && r.error.None? && r.data == map["items" := List(items)]
    ensures r.metadata == Metadata("release", "1.0.0", "history")
  {
    Response("success", Metadata("release", "1.0.0", "history"), map["items" := List(items)], None, "", [])
  }

  function HandleHistorySpec(w: World, h: seq<Call>): Out<Response> {
    var t := Tags.GetTagsSpec(w, h);
    var items := ItemsSpec(w, h + t.calls, t.value, 0);
    Out(HistoryResponse(items.value), t.calls + items.calls)
  }

  /** The loop over the tags. */
  method CollectItems(sh: Shell, tags: seq<string>) returns (items: seq<Value>)
    modifies sh`trace
    ensures Performs(old(sh.trace), sh.trace, items, ItemsSpec(sh.world, old(sh.trace), tags, 0))
  {
    ghost var h := sh.trace;
    ghost var all := ItemsSpec(sh.world, h, tags, 0);
    items := [];
    var i := 0;
    CollectStart(sh.world, h, tags);
    while i < |tags|
      invariant 0 <= i <= |tags|
      invariant Collecting(sh.world, h, tags, all, sh.trace, i, items)
    {
      ghost var before := sh.trace;
      var from := From(tags, i);
      var count := Tags.CountCommitsBetween(sh, from, tags[i]);
      CollectStep(sh.world, h, tags, all, before, i, items);
      items := items + [Item(tags[i], from, count)];
      i := i + 1;
    }
    CollectEnd(sh.world, h, tags, all, sh.trace, items);
  }

  /** After `i` turns of the loop that started at `h`: the items so far followed by
      those still to come are all of them, and so are the calls. */
  ghost predicate Collecting(w: World, h: seq<Call>, tags: seq<string>, all: Out<seq<Value>>, trace: seq<Call>, i: nat, items: seq<Value>)
    requires i <= |tags|
  {
    var rest := ItemsSpec(w, trace, tags, i);
    items + rest.value == all.value && trace + rest.calls == h + all.calls
  }

  lemma CollectStart(w: World, h: seq<Call>, tags: seq<string>)
    ensures Collecting(w, h, tags, ItemsSpec(w, h, tags, 0), h, 0, [])
  {
    var all := ItemsSpec(w, h, tags, 0);
    assert [] + all.value == all.value;
  }

  /** One turn of the loop keeps it collecting. */
  lemma CollectStep(w: World, h: seq<Call>, tags: seq<string>, all: Out<seq<Value>>, before: seq<Call>, i: nat, items: seq<Value>)
    requires i < |tags|
    requires Collecting(w, h, tags, all, before, i, items)
    ensures var c := Tags.CountCommitsSpec(w, before, From(tags, i), tags[i]);
      Collecting(w, h, tags, all, before + c.calls, i + 1, items + [Item(tags[i], From(tags, i), c.value)])
  {
    var c := Tags.CountCommitsSpec(w, before, From(tags, i), tags[i]);
    var rest := ItemsSpec(w, before + c.calls, tags, i + 1);
    ItemsCons(w, before, tags, i);
    AppendAssoc(before, c.calls, rest.calls);
    var item := Item(tags[i], From(tags, i), c.value);
    assert items + [item] + rest.value == items + ([item] + rest.value);
  }

  lemma CollectEnd(w: World, h: seq<Call>, tags: seq<string>, all: Out<seq<Value>>, trace: seq<Call>, items: seq<Value>)
    requires Collecting(w, h, tags, all, trace, |tags|, items)
    ensures trace == h + all.calls && items == all.value
  {
    assert ItemsSpec(w, trace, tags, |tags|) == Out([], []);
    assert items + [] == items && trace + [] == trace;
  }

  method HandleHistory(sh: Shell) returns (resp: Response)
    modifies sh`trace
    ensures Performs(old(sh.trace), sh.trace, resp, HandleHistorySpec(sh.world, old(sh.trace)))
  {
    ghost var h := sh.trace;
    var tags := Tags.GetTags(sh);
    ghost var t := sh.trace[|h|..];
    assert sh.trace == h + t;
    var items := CollectItems(sh, tags);
    AppendAssoc(h, t, sh.trace[|h + t|..]);
    resp := HistoryResponse(items);
  }

  // ---- Properties ---------------------------------------------------------------------

  /** The commands among some calls, in order. */
  function Commands(calls: seq<Call>): seq<Effect> {
    if calls == [] then [] else CommandOf(calls[0]) + Commands(calls[1..])
  }

  /** A call's command, if it is one. */
  function CommandOf(c: Call): seq<Effect> {
    if c.effect.Cmd? then [c.effect] else []
  }

  lemma {:induction false} CommandsAppend(a: seq<Call>, b: seq<Call>)
    ensures Commands(a + b) == Commands(a) + Commands(b)
  {
    if a == [] {
      assert a + b == b;
    } else {
      var ab := a + b;
      assert ab != [] && ab[0] == a[0];
      assert ab[1..] == a[1..] + b;
      CommandsAppend(a[1..], b);
      assert Commands(ab) == CommandOf(a[0]) + (Commands(a[1..]) + Commands(b));
      assert Commands(a) == CommandOf(a[0]) + Commands(a[1..]);
    }
  }

  /** Counting commits runs exactly one command, `git rev-list --count`, whatever it
      prints; a warning is not a command. */
  lemma CountIsOneCommand(w: World, h: seq<Call>, from: string, to: string)
    ensures Commands(Tags.CountCommitsSpec(w, h, from, to).calls) == [Tags.CountCmd(from, to)]
  {
    var r := Tags.CountCommitsSpec(w, h, from, to);
    assert r.calls[0].effect.Cmd?;
    if |r.calls| == 2 {
      assert !r.calls[1].effect.Cmd?;
      assert r.calls[1..][1..] == [];
      assert Commands(r.calls[1..]) == [];
    } else {
      assert r.calls[1..] == [];
    }
  }

  /** One item per tag, in tag order: item `j` is the tag `tags[i + j]`, counted from
      the tag before it, or from the beginning for the first, and holds the number of
      commits git counted over that range. */
  lemma ItemPerTag(w: World, h: seq<Call>, tags: seq<string>, i: nat)
    requires i <= |tags|
    ensures var r := ItemsSpec(w, h, tags, i).value;
      |r| == |tags| - i &&
      forall j :: 0 <= j < |r| ==> IsItemOf(r[j], tags[i + j], From(tags, i + j), CountAt(w, h, tags, i, j))
  {
    ItemsFromAll(w, h, tags, i);
  }

  /** The items from `i` on are those of the tags from `i` on. */
  ghost predicate ItemsFrom(w: World, h: seq<Call>, tags: seq<string>, i: nat)
    requires i <= |tags|
  {
    var r := ItemsSpec(w, h, tags, i).value;
    |r| == |tags| - i &&
    forall j :: 0 <= j < |r| ==> IsItemOf(r[j], tags[i + j], From(tags, i + j), CountAt(w, h, tags, i, j))
  }

  lemma {:induction false} ItemsFromAll(w: World, h: seq<Call>, tags: seq<string>, i: nat)
    requires i <= |tags|
    decreases |tags| - i
    ensures ItemsFrom(w, h, tags, i)
  {
    if i < |tags| {
      var h' := h + Tags.CountCommitsSpec(w, h, From(tags, i), tags[i]).calls;
      ItemsFromAll(w, h', tags, i + 1);
      ItemsStep(w, h, tags, i, h');
    }
  }

  /** The step of the induction: the item of tag `i` in front of the later ones. */
  lemma ItemsStep(w: World, h: seq<Call>, tags: seq<string>, i: nat, h': seq<Call>)
    requires i < |tags|
    requires h' == h + Tags.CountCommitsSpec(w, h, From(tags, i), tags[i]).calls
    requires ItemsFrom(w, h', tags, i + 1)
    ensures ItemsFrom(w, h, tags, i)
  {
    var c := Tags.CountCommitsSpec(w, h, From(tags, i), tags[i]);
    var rest := ItemsSpec(w, h', tags, i + 1).value;
    var first := Item(tags[i], From(tags, i), c.value);
    assert ItemsSpec(w, h, tags, i).value == [first] + rest;
    assert c.value == CountAt(w, h, tags, i, 0);
    ItemsShift(w, h, h', [first] + rest, rest, tags, i);
  }

  /** An item of tag `i` in front of the items of the tags after it gives the items of
      the tags from `i` on. */
  lemma ItemsShift(w: World, h: seq<Call>, h': seq<Call>, r: seq<Value>, rest: seq<Value>, tags: seq<string>, i: nat)
    requires i < |tags|
    requires h' == h + Tags.CountCommitsSpec(w, h, From(tags, i), tags[i]).calls
    requires |r| > 0 && r[1..] == rest && IsItemOf(r[0], tags[i], From(tags, i), CountAt(w, h, tags, i, 0))
    requires |rest| == |tags| - (i + 1)
    requires forall j :: 0 <= j < |rest| ==> IsItemOf(rest[j], tags[i + 1 + j], From(tags, i + 1 + j), CountAt(w, h', tags, i + 1, j))
    ensures |r| == |tags| - i
    ensures forall j :: 0 <= j < |r| ==> IsItemOf(r[j], tags[i + j], From(tags, i + j), CountAt(w, h, tags, i, j))
  {
    forall j | 0 < j < |r|
      ensures IsItemOf(r[j], tags[i + j], From(tags, i + j), CountAt(w, h, tags, i, j))
    {
      assert r[j] == rest[j - 1];
      assert TraceAt(w, h, tags, i, j) == TraceAt(w, h', tags, i + 1, j - 1);
      assert CountAt(w, h, tags, i, j) == CountAt(w, h', tags, i + 1, j - 1);
    }
  }

  /** The commands of the items from `i` on are the counts over consecutive tags from
      `i` on. */
  ghost predicate CountsFrom(w: World, h: seq<Call>, tags: seq<string>, i: nat)
    requires i <= |tags|
  {
    var cmds := Commands(ItemsSpec(w, h, tags, i).calls);
    |cmds| == |tags| - i &&
    forall j :: 0 <= j < |cmds| ==> cmds[j] == Tags.CountCmd(From(tags, i + j), tags[i + j])
  }

  /** The commands of the items are the counts over consecutive tags: the first up to
      `tags[0]`, then `tags[k-1]..tags[k]`, in order. */
  lemma CountsOverConsecutiveTags(w: World, h: seq<Call>, tags: seq<string>, i: nat)
    requires i <= |tags|
    ensures var cmds := Commands(ItemsSpec(w, h, tags, i).calls);
      |cmds| == |tags| - i &&
      forall j :: 0 <= j < |cmds| ==> cmds[j] == Tags.CountCmd(From(tags, i + j), tags[i + j])
  {
    CountsFromAll(w, h, tags, i);
  }

  lemma {:induction false} CountsFromAll(w: World, h: seq<Call>, tags: seq<string>, i: nat)
    requires i <= |tags|
    decreases |tags| - i
    ensures CountsFrom(w, h, tags, i)
  {
    if i < |tags| {
      var h' := h + Tags.CountCommitsSpec(w, h, From(tags, i), tags[i]).calls;
      CountsFromAll(w, h', tags, i + 1);
      CountsStep(w, h, tags, i, h');
    }
  }

  /** The step of the induction: one more tag in front. */
  lemma CountsStep(w: World, h: seq<Call>, tags: seq<string>, i: nat, h': seq<Call>)
    requires i < |tags|
    requires h' == h + Tags.CountCommitsSpec(w, h, From(tags, i), tags[i]).calls
    requires CountsFrom(w, h', tags, i + 1)
    ensures CountsFrom(w, h, tags, i)
  {
    CountThenRest(w, h, tags, i);
    CountsShift(Commands(ItemsSpec(w, h, tags, i).calls), Commands(ItemsSpec(w, h', tags, i + 1).calls), tags, i);
  }

  /** The commands of the items from `i` on: the count for tag `i`, then those of the
      items after it. */
  lemma CountThenRest(w: World, h: seq<Call>, tags: seq<string>, i: nat)
    requires i < |tags|
    ensures var c := Tags.CountCommitsSpec(w, h, From(tags, i), tags[i]);
      Commands(ItemsSpec(w, h, tags, i).calls) ==
        [Tags.CountCmd(From(tags, i), tags[i])] + Commands(ItemsSpec(w, h + c.calls, tags, i + 1).calls)
  {
    var c := Tags.CountCommitsSpec(w, h, From(tags, i), tags[i]);
    var rest := ItemsSpec(w, h + c.calls, tags, i + 1);
    CountIsOneCommand(w, h, From(tags, i), tags[i]);
    CommandsAppend(c.calls, rest.calls);
  }

  /** One more count in front of the counts from `i + 1` on gives the counts from `i` on. */
  lemma CountsShift(cmds: seq<Effect>, later: seq<Effect>, tags: seq<string>, i: nat)
    requires i < |tags|
    requires cmds == [Tags.CountCmd(From(tags, i), tags[i])] + later
    requires |later| == |tags| - (i + 1)
    requires forall j :: 0 <= j < |later| ==> later[j] == Tags.CountCmd(From(tags, i + 1 + j), tags[i + 1 + j])
    ensures |cmds| == |tags| - i
    ensures forall j :: 0 <= j < |cmds| ==> cmds[j] == Tags.CountCmd(From(tags, i + j), tags[i + j])
  {
    forall j | 0 < j < |cmds|
      ensures cmds[j] == Tags.CountCmd(From(tags, i + j), tags[i + j])
    {
      assert cmds[j] == later[j - 1];
    }
  }

  /** The answer is a success whose only data key is "items", with one item per tag
      `git tag` listed. */
  lemma HistoryAnswer(w: World, h: seq<Call>)
    ensures var t := Tags.GetTagsSpec(w, h);
      var r := HandleHistorySpec(w, h).value;
      r.status == "success" && r.data.Keys == {"items"} && r.data["items"].List? &&
      |r.data["items"].items| == |t.value|
  {
    var t := Tags.GetTagsSpec(w, h);
    ItemPerTag(w, h + t.calls, t.value, 0);
  }
}
