/** Reassembly of streamed tool calls (Groq.parse_tool_calls).

    The Python list built there holds references to dictionaries, and
    `[{}] * n` puts n references to ONE new dictionary into it. The pure
    model `Heap` keeps that object graph explicit: position i of the list
    refers to dictionary `slots[i]`, and two positions alias exactly when
    their slots are equal. `ParseToolCalls` is the loop itself, over
    `ToolCallDict` objects, proved to build that graph. `RunFresh` and
    `ParseToolCallsFresh` are the evidently intended variant in which every
    placeholder is a dictionary of its own. */
module ToolCalls {
  import opened Values

  /** The `function` part of a streamed tool call. */
  datatype FunctionDelta = FunctionDelta(name: Option<string>, arguments: Option<string>)

  /** ChoiceDeltaToolCall: one streamed piece of a tool call. `index` is the
      position of the call it belongs to; `fn` is None when the piece has no
      function part. */
  datatype Fragment = Fragment(index: nat, id: Option<string>, kind: Option<string>, fn: Option<FunctionDelta>)

  function NamePart(f: Fragment): Option<string> {
    if f.fn.Some? then f.fn.value.name else None
  }

  function ArgumentsPart(f: Fragment): Option<string> {
    if f.fn.Some? then f.fn.value.arguments else None
  }

  /** The contents of one dictionary of the result list: still `{}`, or
      {"id": id, "type": kind, "function": {"name": name, "arguments": arguments}}. */
  datatype Entry = Empty | Filled(id: Option<string>, kind: Option<string>, name: string, arguments: string)

  /** What one fragment does to the dictionary it lands on. */
  function Absorb(e: Entry, f: Fragment): (r: Entry)
    // the dictionary is never left empty
    ensures r.Filled?
    // the first fragment sets id and type as given, even None, and the text parts or ""
    ensures e.Empty? ==> r == Filled(f.id, f.kind, OrEmpty(NamePart(f)), OrEmpty(ArgumentsPart(f)))
    // later fragments append their text in arrival order and never discard text
    ensures e.Filled? ==> r.name == e.name + OrEmpty(NamePart(f))
    ensures e.Filled? ==> r.arguments == e.arguments + OrEmpty(ArgumentsPart(f))
    // later fragments replace id and type only with a non-empty value
    ensures e.Filled? ==> r.id == (if TruthyText(f.id) then f.id else e.id)
    ensures e.Filled? ==> r.kind == (if TruthyText(f.kind) then f.kind else e.kind)
  {
    match e
    case Empty => Filled(f.id, f.kind, OrEmpty(NamePart(f)), OrEmpty(ArgumentsPart(f)))
    case Filled(id, kind, name, arguments) =>
      Filled(
        if TruthyText(f.id) then f.id else id,
        if TruthyText(f.kind) then f.kind else kind,
        if TruthyText(NamePart(f)) then name + NamePart(f).value else name,
        if TruthyText(ArgumentsPart(f)) then arguments + ArgumentsPart(f).value else arguments)
  }

  /** The intended meaning of entry i: the fragments with index i absorbed in
      arrival order, starting from `{}`. */
  function Assembled(frags: seq<Fragment>, i: nat): Entry
    decreases |frags|
  {
    if frags == [] then Empty
    else
      var before := Assembled(frags[..|frags| - 1], i);
      if frags[|frags| - 1].index == i then Absorb(before, frags[|frags| - 1]) else before
  }

  // ---------------------------------------------------------------------------
  // The list as written: an object graph with shared placeholders
  // ---------------------------------------------------------------------------

  /** The list after some fragments: position i refers to dictionary
      `slots[i]`, one of the `dicts` allocated so far. */
  datatype Heap = Heap(slots: seq<nat>, dicts: seq<Entry>)

  predicate WellFormed(h: Heap) {
    forall i :: 0 <= i < |h.slots| ==> h.slots[i] < |h.dicts|
  }

  /** One iteration of the loop: when the index is past the end, grow the
      list to index + 1 with references to one new `{}`; then let the
      fragment update the dictionary at its index. */
  function Step(h: Heap, f: Fragment): (r: Heap)
    requires WellFormed(h)
    ensures WellFormed(r)
    // the list only grows, and exactly to index + 1 when it must
    ensures h.slots <= r.slots
    ensures |r.slots| == if |h.slots| <= f.index then f.index + 1 else |h.slots|
    // at most one dictionary is allocated, and every earlier one is kept
    ensures |r.dicts| == if |h.slots| <= f.index then |h.dicts| + 1 else |h.dicts|
    ensures forall i :: |h.slots| <= i < |r.slots| ==> r.slots[i] == |h.dicts|
  {
    var grown :=
      if |h.slots| <= f.index
      then Heap(h.slots + seq(f.index - |h.slots| + 1, _ => |h.dicts|), h.dicts + [Empty])
      else h;
    var d := grown.slots[f.index];
    Heap(grown.slots, grown.dicts[d := Absorb(grown.dicts[d], f)])
  }

  /** The list after all the fragments, in arrival order. */
  function Run(frags: seq<Fragment>): (h: Heap)
    ensures WellFormed(h)
    // a dictionary is allocated only by an `extend` that adds at least one position
    ensures |h.dicts| <= |h.slots|
    decreases |frags|
  {
    if frags == [] then Heap([], []) else Step(Run(frags[..|frags| - 1]), frags[|frags| - 1])
  }

  /** The value the list shows: the dictionary each position refers to. */
  function Listed(h: Heap): (r: seq<Entry>)
    requires WellFormed(h)
    ensures |r| == |h.slots|
    ensures forall i :: 0 <= i < |r| ==> r[i] == h.dicts[h.slots[i]]
  {
    seq(|h.slots|, i requires 0 <= i < |h.slots| => h.dicts[h.slots[i]])
  }

  /** No fragment's index is past the list as it stands when the fragment
      arrives: the list never grows by more than one entry. */
  ghost predicate Gapless(frags: seq<Fragment>) {
    forall j :: 0 <= j < |frags| ==> frags[j].index <= |Run(frags[..j]).slots|
  }

  lemma PrefixOfPrefix(frags: seq<Fragment>, j: nat)
    requires j < |frags|
    ensures frags[..|frags| - 1][..j] == frags[..j]
  {
  }

  /** The result is empty for no fragments, and otherwise exactly one entry
      longer than the largest index seen. */
  lemma {:induction false} RunLength(frags: seq<Fragment>)
    ensures frags == [] ==> Run(frags).slots == []
    ensures forall j :: 0 <= j < |frags| ==> frags[j].index < |Run(frags).slots|
    ensures frags != [] ==> exists j :: 0 <= j < |frags| && frags[j].index + 1 == |Run(frags).slots|
    decreases |frags|
  {
    if frags != [] {
      var init, last := frags[..|frags| - 1], frags[|frags| - 1];
      RunLength(init);
      assert forall j :: 0 <= j < |init| ==> init[j] == frags[j];
      if |Run(init).slots| <= last.index {
        assert frags[|frags| - 1].index + 1 == |Run(frags).slots|;
      } else {
        var j :| 0 <= j < |init| && init[j].index + 1 == |Run(init).slots|;
        assert frags[j].index + 1 == |Run(frags).slots|;
      }
    }
  }

  /** Every dictionary allocated along the way has been filled, so no entry
      of the result is `{}`. */
  lemma {:induction false} RunFillsEveryEntry(frags: seq<Fragment>)
    ensures forall d :: 0 <= d < |Run(frags).dicts| ==> Run(frags).dicts[d].Filled?
    ensures forall i :: 0 <= i < |Run(frags).slots| ==> Listed(Run(frags))[i].Filled?
    decreases |frags|
  {
    if frags != [] {
      RunFillsEveryEntry(frags[..|frags| - 1]);
    }
  }

  /** An index that no fragment carries is never touched. */
  lemma {:induction false} AssembledUntouched(frags: seq<Fragment>, i: nat)
    requires forall j :: 0 <= j < |frags| ==> frags[j].index != i
    ensures Assembled(frags, i) == Empty
    decreases |frags|
  {
    if frags != [] {
      AssembledUntouched(frags[..|frags| - 1], i);
    }
  }

  /** Without gaps there is no aliasing: position i refers to dictionary i of
      its own, and it holds exactly the fragments with index i, in order. */
  lemma {:induction false} GaplessRunIsUnaliased(frags: seq<Fragment>)
    requires Gapless(frags)
    ensures |Run(frags).dicts| == |Run(frags).slots|
    ensures forall i :: 0 <= i < |Run(frags).slots| ==> Run(frags).slots[i] == i
    ensures forall i :: 0 <= i < |Run(frags).slots| ==> Listed(Run(frags))[i] == Assembled(frags, i)
    decreases |frags|
  {
    if frags != [] {
      var init, last := frags[..|frags| - 1], frags[|frags| - 1];
      forall j | 0 <= j < |init| ensures init[j].index <= |Run(init[..j]).slots| {
        PrefixOfPrefix(frags, j);
      }
      GaplessRunIsUnaliased(init);
      var h := Run(init);
      assert frags[..|frags| - 1] == init;
      assert last.index <= |h.slots|;
      if last.index == |h.slots| {
        RunLength(init);
        assert forall j :: 0 <= j < |init| ==> init[j].index != last.index;
        AssembledUntouched(init, last.index);
      }
    }
  }

  /** Rerunning on a prefix gives a prefix: positions, once created, keep
      referring to the same dictionary. */
  lemma {:induction false} RunExtends(frags: seq<Fragment>, k: nat)
    requires k <= |frags|
    ensures Run(frags[..k]).slots <= Run(frags).slots
    decreases |frags|
  {
    if k < |frags| {
      var init := frags[..|frags| - 1];
      assert init[..k] == frags[..k];
      RunExtends(init, k);
    } else {
      assert frags[..k] == frags;
    }
  }

  /** With a gap the placeholders of one `extend` are one dictionary: all the
      positions it created stay identical to the end. */
  lemma GapAliases(frags: seq<Fragment>, j: nat)
    requires j < |frags|
    requires |Run(frags[..j]).slots| < frags[j].index
    ensures frags[j].index < |Run(frags).slots|
    ensures forall a, b ::
              |Run(frags[..j]).slots| <= a <= frags[j].index && |Run(frags[..j]).slots| <= b <= frags[j].index
              ==> Run(frags).slots[a] == Run(frags).slots[b] && Listed(Run(frags))[a] == Listed(Run(frags))[b]
  {
    var upto := frags[..j + 1];
    assert upto[..|upto| - 1] == frags[..j];
    RunExtends(frags, j + 1);
    RunLength(frags);
  }

  /** The two-fragment example of streamed text: names and arguments are
      concatenated in arrival order into one call. */
  lemma SplitCallIsJoined()
    ensures
      var frags := [
        Fragment(0, None, None, Some(FunctionDelta(Some("get_"), Some("{\"a\"")))),
        Fragment(0, None, None, Some(FunctionDelta(Some("weather"), Some(":1}"))))];
      Listed(Run(frags)) == [Filled(None, None, "get_weather", "{\"a\":1}")]
  {
    var frags := [
      Fragment(0, None, None, Some(FunctionDelta(Some("get_"), Some("{\"a\"")))),
      Fragment(0, None, None, Some(FunctionDelta(Some("weather"), Some(":1}"))))];
    assert frags[..1][..0] == [];
    assert frags[..1] == [frags[0]];
    assert Run(frags[..1]) == Heap([0], [Filled(None, None, "get_", "{\"a\"")]);
    assert "get_" + "weather" == "get_weather";
    assert "{\"a\"" + ":1}" == "{\"a\":1}";
    assert Run(frags) == Heap([0], [Filled(None, None, "get_weather", "{\"a\":1}")]);
  }

  /** Indices 1 then 0: the first `extend` puts one dictionary at both
      positions, so both entries end up as the same merged call, while each
      index on its own assembles to a different call. */
  lemma OutOfOrderIndicesShareOneEntry()
    ensures
      var frags := [
        Fragment(1, Some("call_b"), Some("function"), Some(FunctionDelta(Some("lookup"), Some("{}")))),
        Fragment(0, Some("call_a"), Some("function"), Some(FunctionDelta(Some("search"), Some("{}"))))];
      var merged := Filled(Some("call_a"), Some("function"), "lookupsearch", "{}{}");
      && Listed(Run(frags)) == [merged, merged]
      && Assembled(frags, 0) == Filled(Some("call_a"), Some("function"), "search", "{}")
      && Assembled(frags, 1) == Filled(Some("call_b"), Some("function"), "lookup", "{}")
  {
    var frags := [
      Fragment(1, Some("call_b"), Some("function"), Some(FunctionDelta(Some("lookup"), Some("{}")))),
      Fragment(0, Some("call_a"), Some("function"), Some(FunctionDelta(Some("search"), Some("{}"))))];
    assert frags[..1][..0] == [];
    assert frags[..1] == [frags[0]];
    assert Run(frags[..1]) == Heap([0, 0], [Filled(Some("call_b"), Some("function"), "lookup", "{}")]);
    assert "lookup" + "search" == "lookupsearch";
    assert "{}" + "{}" == "{}{}";
    assert Run(frags) == Heap([0, 0], [Filled(Some("call_a"), Some("function"), "lookupsearch", "{}{}")]);
    assert Assembled(frags[..1], 0) == Empty;
  }

  // ---------------------------------------------------------------------------
  // The intended list: one dictionary per position
  // ---------------------------------------------------------------------------

  /** One iteration with `[{} for _ in range(n)]` in place of `[{}] * n`. */
  function StepFresh(entries: seq<Entry>, f: Fragment): (r: seq<Entry>)
    ensures |r| == if |entries| <= f.index then f.index + 1 else |entries|
    ensures r[f.index] == Absorb(if f.index < |entries| then entries[f.index] else Empty, f)
    ensures forall i :: 0 <= i < |r| && i != f.index ==> r[i] == if i < |entries| then entries[i] else Empty
  {
    var grown := if |entries| <= f.index then entries + seq(f.index - |entries| + 1, _ => Empty) else entries;
    grown[f.index := Absorb(grown[f.index], f)]
  }

  function RunFresh(frags: seq<Fragment>): (r: seq<Entry>)
    ensures frags == [] ==> r == []
    ensures forall j :: 0 <= j < |frags| ==> frags[j].index < |r|
    decreases |frags|
  {
    if frags == [] then [] else StepFresh(RunFresh(frags[..|frags| - 1]), frags[|frags| - 1])
  }

  /** With a dictionary per position, every entry is exactly its own
      fragments assembled in order, whatever the order of the indices, and
      the list has the same length as the one written. */
  lemma {:induction false} FreshRunAssembles(frags: seq<Fragment>)
    ensures |RunFresh(frags)| == |Run(frags).slots|
    ensures forall i :: 0 <= i < |RunFresh(frags)| ==> RunFresh(frags)[i] == Assembled(frags, i)
    decreases |frags|
  {
    if frags != [] {
      var init, last := frags[..|frags| - 1], frags[|frags| - 1];
      FreshRunAssembles(init);
      if |RunFresh(init)| <= last.index {
        RunLength(init);
        forall i | |RunFresh(init)| <= i < |RunFresh(frags)| ensures Assembled(init, i) == Empty {
          assert forall j :: 0 <= j < |init| ==> init[j].index != i;
          AssembledUntouched(init, i);
        }
      }
    }
  }

  /** Without gaps the list as written and the intended list agree. */
  lemma GaplessAgrees(frags: seq<Fragment>)
    requires Gapless(frags)
    ensures Listed(Run(frags)) == RunFresh(frags)
  {
    GaplessRunIsUnaliased(frags);
    FreshRunAssembles(frags);
  }

  // ---------------------------------------------------------------------------
  // The loop itself, over dictionaries in the heap
  // ---------------------------------------------------------------------------

  /** One tool-call dictionary of the result list, updated in place.
      `filled` is false exactly while the dictionary is still `{}`. */
  class ToolCallDict {
    var filled: bool
    var id: Option<string>
    var kind: Option<string>
    var name: string
    var arguments: string

    /** `{}` */
    constructor ()
      ensures Contents() == Empty
    {
      filled, id, kind, name, arguments := false, None, None, "", "";
    }

    function Contents(): Entry
      reads this
    {
      if filled then Filled(id, kind, name, arguments) else Empty
    }

    /** The loop body's update of the dictionary at the fragment's index. */
    method Receive(f: Fragment)
      modifies this
      ensures Contents() == Absorb(old(Contents()), f)
    {
      var fnName, fnArguments := NamePart(f), ArgumentsPart(f);
      if !filled {
        id, kind := f.id, f.kind;
        name, arguments := OrEmpty(fnName), OrEmpty(fnArguments);
        filled := true;
      } else {
        if TruthyText(fnName) {
          name := name + fnName.value;
        }
        if TruthyText(fnArguments) {
          arguments := arguments + fnArguments.value;
        }
        if TruthyText(f.id) {
          id := f.id;
        }
        if TruthyText(f.kind) {
          kind := f.kind;
        }
      }
    }
  }

  /** `list` is the Python list and `dicts` the dictionaries allocated so far,
      in allocation order; together they are the object graph `h`. */
  ghost predicate Mirrors(list: seq<ToolCallDict>, dicts: seq<ToolCallDict>, h: Heap)
    reads dicts
  {
    && WellFormed(h)
    && |list| == |h.slots|
    && |dicts| == |h.dicts|
    && (forall i :: 0 <= i < |list| ==> list[i] == dicts[h.slots[i]])
    && (forall a, b :: 0 <= a < b < |dicts| ==> dicts[a] != dicts[b])
    && (forall d :: 0 <= d < |dicts| ==> dicts[d].Contents() == h.dicts[d])
  }

  /** Groq.parse_tool_calls as written. */
  method ParseToolCalls(data: seq<Fragment>) returns (toolCalls: seq<ToolCallDict>)
    ensures |toolCalls| == |Run(data).slots|
    ensures forall i :: 0 <= i < |toolCalls| ==> fresh(toolCalls[i])
    ensures forall i :: 0 <= i < |toolCalls| ==> toolCalls[i].Contents() == Listed(Run(data))[i]
    ensures forall i, j :: 0 <= i < |toolCalls| && 0 <= j < |toolCalls| ==>
              (toolCalls[i] == toolCalls[j] <==> Run(data).slots[i] == Run(data).slots[j])
  {
    toolCalls := [];
    ghost var dicts: seq<ToolCallDict> := [];
    for k := 0 to |data|
      invariant Mirrors(toolCalls, dicts, Run(data[..k]))
      invariant forall d :: 0 <= d < |dicts| ==> fresh(dicts[d])
    {
      ghost var h := Run(data[..k]);
      assert data[..k + 1][..k] == data[..k];
      var f := data[k];
      if |toolCalls| <= f.index {
        var placeholder := new ToolCallDict();
        toolCalls := toolCalls + seq(f.index - |toolCalls| + 1, _ => placeholder);
        dicts := dicts + [placeholder];
      }
      var entry := toolCalls[f.index];
      ghost var slot := Step(h, f).slots[f.index];
      assert entry == dicts[slot];
      entry.Receive(f);
      assert Mirrors(toolCalls, dicts, Step(h, f));
    }
    assert data[..|data|] == data;
  }

  /** parse_tool_calls with a dictionary of its own for every placeholder. */
  method ParseToolCallsFresh(data: seq<Fragment>) returns (toolCalls: seq<ToolCallDict>)
    ensures |toolCalls| == |RunFresh(data)|
    ensures forall i :: 0 <= i < |toolCalls| ==> fresh(toolCalls[i])
    ensures forall i :: 0 <= i < |toolCalls| ==> toolCalls[i].Contents() == RunFresh(data)[i]
    ensures forall i, j :: 0 <= i < j < |toolCalls| ==> toolCalls[i] != toolCalls[j]
  {
    toolCalls := [];
    for k := 0 to |data|
      invariant |toolCalls| == |RunFresh(data[..k])|
      invariant forall i :: 0 <= i < |toolCalls| ==> fresh(toolCalls[i])
      invariant forall i :: 0 <= i < |toolCalls| ==> toolCalls[i].Contents() == RunFresh(data[..k])[i]
      invariant forall i, j :: 0 <= i < j < |toolCalls| ==> toolCalls[i] != toolCalls[j]
    {
      assert data[..k + 1][..k] == data[..k];
      ghost var before := RunFresh(data[..k]);
      var f := data[k];
      while |toolCalls| <= f.index
        invariant |before| <= |toolCalls|
        invariant |toolCalls| == |before| || |toolCalls| <= f.index + 1
        invariant forall i :: 0 <= i < |toolCalls| ==> fresh(toolCalls[i])
        invariant forall i :: 0 <= i < |toolCalls| ==>
                    toolCalls[i].Contents() == if i < |before| then before[i] else Empty
        invariant forall i, j :: 0 <= i < j < |toolCalls| ==> toolCalls[i] != toolCalls[j]
        decreases f.index + 1 - |toolCalls|
      {
        var placeholder := new ToolCallDict();
        toolCalls := toolCalls + [placeholder];
      }
      toolCalls[f.index].Receive(f);
    }
    assert data[..|data|] == data;
  }
}
