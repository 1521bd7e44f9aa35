/**
 * How the employer agent's worker assembles streamed tool-call fragments:
 * each fragment carries the index of the call it belongs to; the first
 * fragment of an index fixes the call's id, a non-empty name overwrites
 * the name, and non-empty argument text is appended. After the stream, the
 * calls are taken in ascending index order and those that never received
 * a name are dropped.
 */
module ToolCalls {
  import opened Wrappers
  import opened Text

  /** One streamed `tool_calls` entry: `index`, `id`, `function.name`, `function.arguments`. */
  datatype ToolPart = ToolPart(index: int, id: Option<string>, name: Option<string>, args: Option<string>)

  /** The dictionary entry kept per index: `{"id", "name", "arguments"}`. */
  datatype Frag = Frag(id: Option<string>, name: Option<string>, arguments: string)

  /** Python truthiness of an optional string. */
  predicate Given(o: Option<string>) {
    o.Some? && o.value != ""
  }

  /** A Python dict from index to entry: its items in insertion order, each key once. */
  type Dict = seq<(int, Frag)>

  predicate DistinctKeys(d: Dict) {
    forall j, k :: 0 <= j < k < |d| ==> d[j].0 != d[k].0
  }

  /** Where key `i` sits in `d`, or -1. */
  function Position(d: Dict, i: int): (r: int)
    ensures -1 <= r < |d|
    ensures r >= 0 ==> d[r].0 == i
    ensures r == -1 <==> forall k :: 0 <= k < |d| ==> d[k].0 != i
  {
    if d == [] then -1
    else if d[|d| - 1].0 == i then |d| - 1
    else Position(d[..|d| - 1], i)
  }

  /** `d.get(i)`. */
  function Get(d: Dict, i: int): Option<Frag> {
    var r := Position(d, i);
    if r < 0 then None else Some(d[r].1)
  }

  /** The entry `setdefault` yields: the existing one, or a fresh one carrying this fragment's id. */
  function Seed(existing: Option<Frag>, p: ToolPart): Frag {
    if existing.Some? then existing.value else Frag(p.id, None, "")
  }

  /** A fragment's effect on its entry: a non-empty name overwrites, non-empty argument text is appended. */
  function Apply(entry: Frag, p: ToolPart): Frag {
    var named := if Given(p.name) then entry.(name := p.name) else entry;
    if Given(p.args) then named.(arguments := named.arguments + p.args.value) else named
  }

  /** One fragment applied to the dictionary, the entry updated where it stands or added at the end. */
  function AddPart(d: Dict, p: ToolPart): Dict {
    var r := Position(d, p.index);
    var extended := Apply(Seed(Get(d, p.index), p), p);
    if r >= 0 then d[r := (p.index, extended)] else d + [(p.index, extended)]
  }

  /** The dictionary after a run of fragments, in order. */
  function Assemble(parts: seq<ToolPart>): Dict {
    if parts == [] then [] else AddPart(Assemble(parts[..|parts| - 1]), parts[|parts| - 1])
  }

  /** Independent description of one call: is there any fragment for it … */
  predicate Mentioned(parts: seq<ToolPart>, i: int) {
    exists k :: 0 <= k < |parts| && parts[k].index == i
  }

  /** … the id of its first fragment … */
  function FirstId(parts: seq<ToolPart>, i: int): Option<string> {
    if parts == [] then None
    else if parts[0].index == i then parts[0].id
    else FirstId(parts[1..], i)
  }

  /** … the last non-empty name given for it … */
  function LastName(parts: seq<ToolPart>, i: int): Option<string> {
    if parts == [] then None
    else
      var p := parts[|parts| - 1];
      if p.index == i && Given(p.name) then p.name else LastName(parts[..|parts| - 1], i)
  }

  /** … and all its non-empty argument pieces, concatenated in arrival order. */
  function ArgsOf(parts: seq<ToolPart>, i: int): string {
    if parts == [] then ""
    else
      var p := parts[|parts| - 1];
      ArgsOf(parts[..|parts| - 1], i) + (if p.index == i && Given(p.args) then p.args.value else "")
  }

  /** What the description above says the entry for `i` is, if any. */
  function Entry(parts: seq<ToolPart>, i: int): Option<Frag> {
    if Mentioned(parts, i) then Some(Frag(FirstId(parts, i), LastName(parts, i), ArgsOf(parts, i))) else None
  }

  lemma {:induction false} FirstIdAppend(parts: seq<ToolPart>, p: ToolPart, i: int)
    requires Mentioned(parts, i)
    ensures FirstId(parts + [p], i) == FirstId(parts, i)
  {
    if parts[0].index != i {
      var k :| 0 <= k < |parts| && parts[k].index == i;
      assert parts[1..][k - 1].index == i;
      assert (parts + [p])[1..] == parts[1..] + [p];
      FirstIdAppend(parts[1..], p, i);
    }
  }

  lemma {:induction false} FirstIdFresh(parts: seq<ToolPart>, p: ToolPart)
    requires !Mentioned(parts, p.index)
    ensures FirstId(parts + [p], p.index) == p.id
  {
    if parts != [] {
      assert parts[0].index != p.index;
      assert (parts + [p])[1..] == parts[1..] + [p];
      FirstIdFresh(parts[1..], p);
    }
  }

  /** Adding a fragment keeps the keys distinct and touches only its own entry. */
  lemma AddPartSpec(d: Dict, p: ToolPart, i: int)
    requires DistinctKeys(d)
    ensures DistinctKeys(AddPart(d, p))
    ensures i != p.index ==> Get(AddPart(d, p), i) == Get(d, i)
  {
    var d' := AddPart(d, p);
    AddPartKeys(d, p);
    if i != p.index {
      var q := Position(d, i);
      if q >= 0 {
        PositionUnique(d', i, q);
      }
    }
  }

  /** Where the keys of the dictionary stand after adding a fragment. */
  lemma AddPartKeys(d: Dict, p: ToolPart)
    requires DistinctKeys(d)
    ensures var d' := AddPart(d, p);
      && DistinctKeys(d')
      && |d'| >= |d|
      && (forall k :: 0 <= k < |d| ==> d'[k].0 == d[k].0)
      && (forall k :: |d| <= k < |d'| ==> d'[k].0 == p.index)
  {
  }

  lemma MentionedAppend(init: seq<ToolPart>, p: ToolPart, i: int)
    ensures Mentioned(init + [p], i) <==> Mentioned(init, i) || p.index == i
  {
    var parts := init + [p];
    if Mentioned(parts, i) && p.index != i {
      var k :| 0 <= k < |parts| && parts[k].index == i;
      assert init[k].index == i;
    }
    if Mentioned(init, i) {
      var k :| 0 <= k < |init| && init[k].index == i;
      assert parts[k].index == i;
    }
    if p.index == i {
      assert parts[|init|].index == i;
    }
  }

  lemma LastAppend(init: seq<ToolPart>, p: ToolPart, i: int)
    ensures LastName(init + [p], i) == if p.index == i && Given(p.name) then p.name else LastName(init, i)
    ensures ArgsOf(init + [p], i) == ArgsOf(init, i) + (if p.index == i && Given(p.args) then p.args.value else "")
  {
    assert (init + [p])[..|init|] == init;
  }

  /** An index no fragment mentions has no name and no argument text. */
  lemma {:induction false} Unmentioned(parts: seq<ToolPart>, i: int)
    requires !Mentioned(parts, i)
    ensures LastName(parts, i) == None && ArgsOf(parts, i) == ""
  {
    if parts != [] {
      var init, p := parts[..|parts| - 1], parts[|parts| - 1];
      assert parts == init + [p];
      MentionedAppend(init, p, i);
      Unmentioned(init, i);
    }
  }

  /** The described entry grows fragment by fragment exactly as `Seed` and `Apply` say. */
  lemma EntryAppend(init: seq<ToolPart>, p: ToolPart, i: int)
    ensures Entry(init + [p], i) == if p.index == i then Some(Apply(Seed(Entry(init, i), p), p)) else Entry(init, i)
  {
    MentionedAppend(init, p, i);
    LastAppend(init, p, i);
    if Mentioned(init, i) {
      FirstIdAppend(init, p, i);
      if p.index == i {
        var e := Entry(init, i).value;
        assert Seed(Entry(init, i), p) == e;
        assert Apply(e, p).name == LastName(init + [p], i);
        assert Apply(e, p).arguments == ArgsOf(init + [p], i);
      } else {
        assert ArgsOf(init + [p], i) == ArgsOf(init, i) + "";
        assert ArgsOf(init + [p], i) == ArgsOf(init, i);
        assert LastName(init + [p], i) == LastName(init, i);
        assert FirstId(init + [p], i) == FirstId(init, i);
        assert Mentioned(init + [p], i);
      }
    } else if p.index == i {
      FirstIdFresh(init, p);
      Unmentioned(init, i);
    }
  }

  /**
   * The dictionary holds an entry exactly for the indices some fragment
   * named, and each entry is the first fragment's id, the last non-empty
   * name and the concatenated argument pieces; its keys stay distinct.
   */
  lemma {:induction false} AssembleSpec(parts: seq<ToolPart>, i: int)
    ensures DistinctKeys(Assemble(parts))
    ensures Get(Assemble(parts), i) == Entry(parts, i)
    decreases |parts|
  {
    if parts != [] {
      var init, p := parts[..|parts| - 1], parts[|parts| - 1];
      assert parts == init + [p];
      AssembleSpec(init, i);
      AddPartSpec(Assemble(init), p, i);
      EntryAppend(init, p, i);
      if p.index == i {
        GetAfterAdd(Assemble(init), p);
      }
    }
  }

  /** The entry for the fragment's own index after adding it. */
  lemma GetAfterAdd(d: Dict, p: ToolPart)
    requires DistinctKeys(d)
    ensures Get(AddPart(d, p), p.index) == Some(Apply(Seed(Get(d, p.index), p), p))
  {
    var r := Position(d, p.index);
    var d' := AddPart(d, p);
    if r >= 0 {
      assert d'[r].0 == p.index;
      assert forall k :: 0 <= k < |d'| && k != r ==> d'[k].0 != p.index;
      PositionUnique(d', p.index, r);
    } else {
      PositionUnique(d', p.index, |d|);
    }
  }

  /** In a dictionary with distinct keys, a key's position is where it is. */
  lemma PositionUnique(d: Dict, i: int, r: int)
    requires 0 <= r < |d| && d[r].0 == i
    requires forall k :: 0 <= k < |d| && k != r ==> d[k].0 != i
    ensures Position(d, i) == r
  {
  }

  /** In a dictionary with distinct keys, an item is present exactly when `get` finds its value. */
  lemma GetIn(d: Dict, x: (int, Frag))
    requires DistinctKeys(d)
    ensures x in d <==> Get(d, x.0) == Some(x.1)
  {
    if x in d {
      var k :| 0 <= k < |d| && d[k] == x;
      PositionUnique(d, x.0, k);
    }
  }

  /** Keys strictly ascending. */
  predicate Ascending(d: Dict) {
    forall j, k :: 0 <= j < k < |d| ==> d[j].0 < d[k].0
  }

  /** An item placed between the smaller and the larger keys keeps them ascending. */
  lemma AscendingInsert(sorted: Dict, p: nat, x: (int, Frag))
    requires Ascending(sorted) && p <= |sorted|
    requires forall j :: 0 <= j < p ==> sorted[j].0 < x.0
    requires forall j :: p <= j < |sorted| ==> x.0 < sorted[j].0
    ensures Ascending(sorted[..p] + [x] + sorted[p..])
  {
    var r := sorted[..p] + [x] + sorted[p..];
    forall j, k | 0 <= j < k < |r| ensures r[j].0 < r[k].0 {
      if k < p {
        assert r[j] == sorted[j] && r[k] == sorted[k];
      } else if k == p {
        assert r[j] == sorted[j];
      } else if j < p {
        assert r[j] == sorted[j] && r[k] == sorted[k - 1];
      } else if j == p {
        assert r[k] == sorted[k - 1];
      } else {
        assert r[j] == sorted[j - 1] && r[k] == sorted[k - 1];
      }
    }
  }

  /** Insertion of an item whose key is new into a key-sorted list. */
  method Insert(sorted: Dict, x: (int, Frag)) returns (r: Dict)
    requires Ascending(sorted)
    requires forall y :: y in sorted ==> y.0 != x.0
    ensures Ascending(r)
    ensures forall y :: y in r <==> y in sorted || y == x
  {
    var p := 0;
    while p < |sorted| && sorted[p].0 < x.0
      invariant p <= |sorted|
      invariant forall j :: 0 <= j < p ==> sorted[j].0 < x.0
    {
      p := p + 1;
    }
    forall j | p <= j < |sorted| ensures x.0 < sorted[j].0 {
      assert sorted[j] in sorted;
    }
    AscendingInsert(sorted, p, x);
    r := sorted[..p] + [x] + sorted[p..];
    assert forall y :: y in sorted <==> y in sorted[..p] || y in sorted[p..] by {
      assert sorted == sorted[..p] + sorted[p..];
    }
  }

  /** `calls` holds exactly the items of `d` that received a name. */
  ghost predicate NamedOf(calls: Dict, d: Dict) {
    forall x :: x in calls <==> x in d && Given(x.1.name)
  }

  /**
   * `[frag for _, frag in sorted(frags.items()) if frag["name"]]`, kept with
   * their keys: the named items of `d`, exactly those, in ascending key order.
   */
  method NamedCalls(d: Dict) returns (named: Dict)
    requires DistinctKeys(d)
    ensures Ascending(named) && NamedOf(named, d)
  {
    named := [];
    var n := 0;
    while n < |d|
      invariant n <= |d|
      invariant Ascending(named)
      invariant forall x :: x in named <==> x in d[..n] && Given(x.1.name)
    {
      if Given(d[n].1.name) {
        forall y | y in named ensures y.0 != d[n].0 {
          var k :| 0 <= k < n && d[k] == y;
        }
        named := Insert(named, d[n]);
      }
      assert d[..n + 1] == d[..n] + [d[n]];
      n := n + 1;
    }
    assert d[..n] == d;
  }
}
