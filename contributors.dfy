/** `HandleContributors`, the plugin command behind `contributors`: one item per
    contributor git reports, in its order. A failed lookup is ignored and answered
    with an empty list. */
module ContributorsHandler {
  import opened Wrappers
  import opened Effects
  import opened PluginTypes
  import Git

  /** A contributor's item: its author and commit count. */
  function Item(c: Git.Contributor): Value {
    Obj(map["author" := Str(c.author), "commits" := Str(c.commits)])
  }

  /** The items of the contributors, one each, in order. */
  function Items(cs: seq<Git.Contributor>): (items: seq<Value>) {
    if cs == [] then [] else [Item(cs[0])] + Items(cs[1..])
  }

  /** Whatever the lookup gave, or nothing when it failed. */
  function Found(r: Result<seq<Git.Contributor>>): seq<Git.Contributor> {
    if r.Ok? then r.value else []
  }

  function ContributorsResponse(items: seq<Value>): (r: Response)
    ensures r.status == "success" && r.error.None? && r.data == map["items" := List(items)]
    ensures r.metadata == Metadata("release", "1.0.0", "contributors")
  {
    Response("success", Metadata("release", "1.0.0", "contributors"), map["items" := List(items)], None, "", [])
  }

  function HandleContributorsSpec(w: World, h: seq<Call>): Out<Response> {
    var c := Git.ContributorsSpec(w, h);
    Out(ContributorsResponse(Items(Found(c.value))), c.calls)
  }

  /** The loop mapping contributors to items. */
  method CollectItems(cs: seq<Git.Contributor>) returns (items: seq<Value>)
    ensures |items| == |cs|
    ensures forall i :: 0 <= i < |cs| ==> items[i] == Item(cs[i])
  {
    items := [];
    var i := 0;
    while i < |cs|
      invariant 0 <= i <= |cs|
      invariant |items| == i
      invariant forall k :: 0 <= k < i ==> items[k] == Item(cs[k])
    {
      items := items + [Obj(map["author" := Str(cs[i].author), "commits" := Str(cs[i].commits)])];
      i := i + 1;
    }
  }

  method HandleContributors(sh: Shell) returns (resp: Response)
    modifies sh`trace
    ensures Performs(old(sh.trace), sh.trace, resp, HandleContributorsSpec(sh.world, old(sh.trace)))
  {
    var found := Git.Contributors(sh);
    var cs := if found.Ok? then found.value else [];
    var items := CollectItems(cs);
    ItemsAgree(cs, items);
    resp := ContributorsResponse(items);
  }

  // ---- Properties ---------------------------------------------------------------------

  /** `Items` maps each contributor to its item, keeping the order. */
  lemma {:induction false} ItemsPointwise(cs: seq<Git.Contributor>)
    ensures |Items(cs)| == |cs|
    ensures forall i :: 0 <= i < |cs| ==> Items(cs)[i] == Item(cs[i])
  {
    if cs != [] {
      ItemsPointwise(cs[1..]);
      forall i | 0 < i < |cs|
        ensures Items(cs)[i] == Item(cs[i])
      {
        assert Items(cs)[i] == Items(cs[1..])[i - 1];
      }
    }
  }

  /** A sequence that maps the contributors pointwise is `Items`. */
  lemma ItemsAgree(cs: seq<Git.Contributor>, items: seq<Value>)
    requires |items| == |cs|
    requires forall i :: 0 <= i < |cs| ==> items[i] == Item(cs[i])
    ensures items == Items(cs)
  {
    ItemsPointwise(cs);
  }

  /** A failed lookup is no error: the answer is a success with an empty, present
      list of items. */
  lemma LookupErrorIgnored(w: World, h: seq<Call>)
    requires Git.ContributorsSpec(w, h).value.Err?
    ensures var r := HandleContributorsSpec(w, h).value;
      r.status == "success" && r.data == map["items" := List([])]
  {
  }

  /** Every contributor gives one item, with its author and commit count. */
  lemma OneItemPerContributor(w: World, h: seq<Call>)
    requires Git.ContributorsSpec(w, h).value.Ok?
    ensures var cs := Git.ContributorsSpec(w, h).value.value;
      var r := HandleContributorsSpec(w, h).value;
      r.data["items"].List? && |r.data["items"].items| == |cs| &&
      forall i :: 0 <= i < |cs| ==>
        r.data["items"].items[i] == Obj(map["author" := Str(cs[i].author), "commits" := Str(cs[i].commits)])
  {
    ItemsPointwise(Git.ContributorsSpec(w, h).value.value);
  }
}
