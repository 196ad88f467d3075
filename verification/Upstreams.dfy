/**
Engine namespacing: `<upstream>.<tool>` names sliced into one catalog per
upstream plus the engine's own (pg/pg_mcp/src/import.rs,
`upstreams_from_tool_names`; pg/pg_mcp/src/tables/catalog.rs, `scoped_items`).
*/
module Upstreams {
  import opened Options

  /** A catalog item: its name, if it has one, and the rest of it. */
  datatype Item = Item(name: Option<string>, body: string)

  /** The position of the first dot, or the length when there is none. */
  function FirstDot(s: string): (i: nat)
    ensures i <= |s|
    ensures i < |s| ==> s[i] == '.'
    ensures forall k | 0 <= k < i :: s[k] != '.'
  {
    if s == "" || s[0] == '.' then 0 else 1 + FirstDot(s[1..])
  }

  predicate HasDot(s: string) { FirstDot(s) < |s| }

  /** The upstream names a list of items implies. */
  function UpstreamsOf(items: seq<Item>): set<string> {
    set i | 0 <= i < |items| && items[i].name.Some? && HasDot(items[i].name.value)
      :: items[i].name.value[..FirstDot(items[i].name.value)]
  }

  /** Does the item belong to the slice marked `upstream`?  The empty mark is the
      engine-local slice. */
  predicate InSlice(upstream: string, item: Item) {
    if upstream == "" then item.name.None? || !HasDot(item.name.value)
    else item.name.Some? && upstream + "." <= item.name.value
  }

  /** The item as the slice shows it: without its upstream's prefix. */
  function Local(upstream: string, item: Item): Item
    requires InSlice(upstream, item)
  {
    if upstream == "" then item else item.(name := Some(item.name.value[|upstream| + 1..]))
  }

  function ScopedItems(upstream: string, items: seq<Item>): seq<Item> {
    if items == [] then []
    else
      var init, item := items[..|items| - 1], items[|items| - 1];
      ScopedItems(upstream, init) + if InSlice(upstream, item) then [Local(upstream, item)] else []
  }

  // ----- putting the slices back together -----

  function Global(upstream: string, item: Item): Item {
    if upstream == "" || item.name.None? then item else item.(name := Some(upstream + "." + item.name.value))
  }

  function GlobalAll(upstream: string, items: seq<Item>): seq<Item> {
    if items == [] then []
    else GlobalAll(upstream, items[..|items| - 1]) + [Global(upstream, items[|items| - 1])]
  }

  /** All the slices of `marks`, with their prefixes back on. */
  function Rebuilt(marks: seq<string>, items: seq<Item>): seq<Item> {
    if marks == [] then []
    else
      var last := marks[|marks| - 1];
      Rebuilt(marks[..|marks| - 1], items) + GlobalAll(last, ScopedItems(last, items))
  }

  predicate StartsWithDot(item: Item) {
    item.name.Some? && item.name.value != "" && item.name.value[0] == '.'
  }

  lemma LocalThenGlobal(upstream: string, item: Item)
    requires InSlice(upstream, item)
    ensures Global(upstream, Local(upstream, item)) == item
  {
    if upstream != "" {
      assert upstream + "." + item.name.value[|upstream| + 1..] == item.name.value;
    }
  }

  /** The slice an item belongs to. */
  function MarkOf(item: Item): string {
    if item.name.None? || !HasDot(item.name.value) then "" else item.name.value[..FirstDot(item.name.value)]
  }

  /** Among marks without dots, an item is in the slice of its own mark and in no
      other, unless its name starts with a dot: then it is in none. */
  lemma ExactlyOneSlice(upstream: string, item: Item)
    requires '.' !in upstream
    ensures InSlice(upstream, item) <==> upstream == MarkOf(item) && !StartsWithDot(item)
  {
    if item.name.Some? {
      var name := item.name.value;
      var d := FirstDot(name);
      if upstream != "" && upstream + "." <= name {
        assert name[|upstream|] == '.';
        assert forall k | 0 <= k < |upstream| :: name[k] == upstream[k] && upstream[k] in upstream;
        assert d == |upstream|;
        assert upstream == name[..d];
      }
    }
  }

  lemma GlobalAppend(upstream: string, items: seq<Item>, item: Item)
    ensures GlobalAll(upstream, items + [item]) == GlobalAll(upstream, items) + [Global(upstream, item)]
  {
    assert (items + [item])[..|items|] == items;
  }

  lemma {:induction false} RebuildOne(upstream: string, items: seq<Item>, x: Item)
    ensures multiset(GlobalAll(upstream, ScopedItems(upstream, items)))[x]
            == if InSlice(upstream, x) then multiset(items)[x] else 0
  {
    if items != [] {
      var init, item := items[..|items| - 1], items[|items| - 1];
      RebuildOne(upstream, init, x);
      assert items == init + [item];
      if InSlice(upstream, item) {
        GlobalAppend(upstream, ScopedItems(upstream, init), Local(upstream, item));
        LocalThenGlobal(upstream, item);
      } else {
        assert ScopedItems(upstream, items) == ScopedItems(upstream, init);
      }
    }
  }

  ghost predicate Marks(marks: seq<string>) {
    && (forall i | 0 <= i < |marks| :: '.' !in marks[i])
    && (forall i, j | 0 <= i < j < |marks| :: marks[i] != marks[j])
  }

  lemma {:induction false} RebuildCount(marks: seq<string>, items: seq<Item>, x: Item)
    requires Marks(marks)
    ensures multiset(Rebuilt(marks, items))[x]
            == if MarkOf(x) in marks && !StartsWithDot(x) then multiset(items)[x] else 0
  {
    if marks != [] {
      var init, last := marks[..|marks| - 1], marks[|marks| - 1];
      RebuildCount(init, items, x);
      RebuildOne(last, items, x);
      ExactlyOneSlice(last, x);
      var a, b := Rebuilt(init, items), GlobalAll(last, ScopedItems(last, items));
      assert multiset(a + b)[x] == multiset(a)[x] + multiset(b)[x];
      assert MarkOf(x) in marks <==> MarkOf(x) in init || MarkOf(x) == last;
    }
  }

  /** The marks an import lays out: every discovered upstream, and the engine's own. */
  ghost predicate LaidOut(marks: seq<string>, items: seq<Item>) {
    Marks(marks) && forall m :: m in marks <==> m == "" || m in UpstreamsOf(items)
  }

  /** Slicing loses and doubles nothing, exactly when no name starts with a dot:
      the rebuilt items are the original ones, each as often as before. */
  lemma SlicingIsLosslessIff(marks: seq<string>, items: seq<Item>)
    requires LaidOut(marks, items)
    ensures multiset(Rebuilt(marks, items)) == multiset(items)
            <==> forall i | 0 <= i < |items| :: !StartsWithDot(items[i])
  {
    forall x
      ensures multiset(Rebuilt(marks, items))[x] == if StartsWithDot(x) then 0 else multiset(items)[x]
    {
      RebuildCount(marks, items, x);
      if x in items {
        assert MarkOf(x) in marks;
      }
    }
    if i :| 0 <= i < |items| && StartsWithDot(items[i]) {
      assert multiset(items)[items[i]] > 0;
    }
  }
}
