/** Bounded evidence slices around the items of a document that match a query, and paging over them. */
module DocumentEvidence {
  import opened Options
  import Query = DocumentQuery
  import Ordering

  datatype Role = HEADING | TABLE | TABLE_CELL | FIGURE | PARAGRAPH

  /** A normalized item; `role` and `level` are what the source derives from its kind and extension,
      `container` its page, sheet or slide. */
  datatype Item = Item(nodeId: Option<string>, parent: Option<string>, text: Option<string>, role: Role, level: nat, container: Option<string>)

  const TOO_DEEP := 0x4000_0000
  const MAX_ITEM_CHARS := 2_048
  const MAX_SLICE_CHARS := 4_096

  predicate Heading(items: seq<Item>, i: int) {
    0 <= i < |items| && items[i].role == HEADING
  }

  // ------------------------------------------------------------------ parents

  /** A dictionary built from all items: the last item with an identifier wins. */
  function LastNode(items: seq<Item>, id: string): Option<nat> {
    if items == [] then None
    else if items[|items| - 1].nodeId == Some(id) then Some(|items| - 1)
    else LastNode(items[..|items| - 1], id)
  }

  lemma {:induction false} LastNodeFacts(items: seq<Item>, id: string)
    ensures LastNode(items, id).Some? <==> exists i :: 0 <= i < |items| && items[i].nodeId == Some(id)
    ensures LastNode(items, id).Some? ==> var i := LastNode(items, id).value; i < |items| && items[i].nodeId == Some(id)
  {
    if items != [] {
      LastNodeFacts(items[..|items| - 1], id);
    }
  }

  function ParentOf(items: seq<Item>, i: nat): Option<nat>
    requires i < |items|
  {
    if items[i].parent.None? then None else LastNode(items, items[i].parent.value)
  }

  /** The item reached from `anchor` by `k + 1` parent links. */
  function Ancestor(items: seq<Item>, anchor: nat, k: nat): (r: Option<nat>)
    requires anchor < |items|
    ensures r.Some? ==> r.value < |items|
  {
    var from := if k == 0 then Some(anchor) else Ancestor(items, anchor, k - 1);
    if from.None? then None
    else
      LastNodeBound(items, from.value);
      ParentOf(items, from.value)
  }

  lemma LastNodeBound(items: seq<Item>, i: nat)
    requires i < |items|
    ensures ParentOf(items, i).Some? ==> ParentOf(items, i).value < |items|
  {
    if items[i].parent.Some? {
      LastNodeFacts(items, items[i].parent.value);
    }
  }

  ghost predicate IsAncestor(items: seq<Item>, anchor: nat, i: nat)
    requires anchor < |items|
  {
    exists k: nat :: Ancestor(items, anchor, k) == Some(i)
  }

  method BuildNodeIndex(items: seq<Item>) returns (index: map<string, nat>)
    ensures forall id :: id in index <==> LastNode(items, id).Some?
    ensures forall id :: id in index ==> LastNode(items, id) == Some(index[id])
  {
    index := map[];
    for i := 0 to |items|
      invariant forall id :: id in index <==> LastNode(items[..i], id).Some?
      invariant forall id :: id in index ==> LastNode(items[..i], id) == Some(index[id])
    {
      assert items[..i + 1][..i] == items[..i];
      if items[i].nodeId.Some? {
        index := index[items[i].nodeId.value := i];
      }
    }
    assert items[..|items|] == items;
  }

  /** The parent walk between two steps: `visited` are the items reached, whose parents are reached too or
      come next; it stops at the first identifier seen before. */
  ghost predicate Walked(items: seq<Item>, anchor: nat, parent: Option<string>, seen: set<string>, visited: set<nat>)
    requires anchor < |items|
  {
    && (forall i :: i in visited ==> i < |items| && IsAncestor(items, anchor, i))
    && (forall id :: id in seen ==> LastNode(items, id).Some? && LastNode(items, id).value in visited)
    && (forall i :: i in visited ==> Continues(items, i, parent, seen))
    && Continues(items, anchor, parent, seen)
    && (parent.Some? && LastNode(items, parent.value).Some? ==> IsAncestor(items, anchor, LastNode(items, parent.value).value))
  }

  predicate Continues(items: seq<Item>, i: nat, parent: Option<string>, seen: set<string>)
    requires i < |items|
  {
    items[i].parent == parent || items[i].parent.None? || items[i].parent.value in seen
  }

  lemma NextAncestor(items: seq<Item>, anchor: nat, i: nat)
    requires anchor < |items| && i < |items| && (i == anchor || IsAncestor(items, anchor, i)) && ParentOf(items, i).Some?
    ensures IsAncestor(items, anchor, ParentOf(items, i).value)
  {
    if i == anchor {
      assert Ancestor(items, anchor, 0) == ParentOf(items, i);
    } else {
      var k: nat :| Ancestor(items, anchor, k) == Some(i);
      assert Ancestor(items, anchor, k + 1) == ParentOf(items, i);
    }
  }

  /** When the walk stops, by running out of parents or by meeting a cycle, it has met every ancestor. */
  lemma {:induction false} WalkIsComplete(items: seq<Item>, anchor: nat, parent: Option<string>, seen: set<string>, visited: set<nat>, k: nat)
    requires anchor < |items| && Walked(items, anchor, parent, seen, visited)
    requires parent.None? || parent.value in seen || LastNode(items, parent.value).None?
    ensures Ancestor(items, anchor, k).Some? ==> Ancestor(items, anchor, k).value in visited
  {
    if k > 0 {
      WalkIsComplete(items, anchor, parent, seen, visited, k - 1);
    }
  }

  method ParentHeadings(items: seq<Item>, anchor: nat) returns (trail: set<nat>)
    requires anchor < |items|
    ensures forall i :: i in trail <==> Heading(items, i) && IsAncestor(items, anchor, i)
  {
    var nodeIndex := BuildNodeIndex(items);
    trail := {};
    var parent := items[anchor].parent;
    var seen: set<string> := {};
    ghost var visited: set<nat> := {};
    if ParentOf(items, anchor).Some? {
      NextAncestor(items, anchor, anchor);
    }
    while parent.Some? && parent.value !in seen && parent.value in nodeIndex
      invariant Walked(items, anchor, parent, seen, visited)
      invariant forall i :: i in trail <==> i in visited && Heading(items, i)
      decreases nodeIndex.Keys - seen
    {
      seen := seen + {parent.value};
      var parentIndex := nodeIndex[parent.value];
      LastNodeFacts(items, parent.value);
      if items[parentIndex].role == HEADING {
        trail := trail + {parentIndex};
      }
      visited := visited + {parentIndex};
      if ParentOf(items, parentIndex).Some? {
        NextAncestor(items, anchor, parentIndex);
      }
      parent := items[parentIndex].parent;
    }
    forall i: nat | IsAncestor(items, anchor, i) ensures i in visited {
      var k: nat :| Ancestor(items, anchor, k) == Some(i);
      WalkIsComplete(items, anchor, parent, seen, visited, k);
    }
  }

  // ------------------------------------------------------------------ the outline above an anchor

  /** A heading before the anchor that outranks every heading between them, none of which is at the top. */
  ghost predicate InOutline(items: seq<Item>, anchor: nat, i: int) {
    && 0 <= i < anchor && Heading(items, i) && items[i].level < 0x4000_0000
    && forall j :: i < j < anchor && Heading(items, j) ==> items[i].level < items[j].level && 1 < items[j].level
  }

  ghost predicate InTrail(items: seq<Item>, anchor: nat, i: int)
    requires anchor < |items|
  {
    Heading(items, i) && (IsAncestor(items, anchor, i) || InOutline(items, anchor, i))
  }

  /** `_heading_trail`: the headings among the ancestors, and the outline above the anchor. */
  method HeadingTrail(items: seq<Item>, anchor: nat) returns (trail: set<nat>)
    requires anchor < |items|
    ensures forall i :: i in trail <==> InTrail(items, anchor, i)
  {
    trail := ParentHeadings(items, anchor);
    ghost var parents := trail;
    var threshold := TOO_DEEP;
    var index := anchor;
    while index > 0
      invariant 0 <= index <= anchor && 1 < threshold <= TOO_DEEP
      invariant forall i :: i in trail <==> i in parents || (index <= i && InOutline(items, anchor, i))
      invariant forall j :: index <= j < anchor && Heading(items, j) ==> threshold <= items[j].level
      invariant threshold == TOO_DEEP || exists j :: index <= j < anchor && Heading(items, j) && items[j].level == threshold
    {
      index := index - 1;
      var candidate := items[index];
      if candidate.role != HEADING {
        continue;
      }
      if candidate.level < threshold {
        trail := trail + {index};
        threshold := candidate.level;
        if candidate.level <= 1 {
          break;
        }
      }
    }
  }

  // ------------------------------------------------------------------ windows and sections

  /** Both items say where they are, and say something different. */
  ghost predicate Leaves(items: seq<Item>, anchor: nat, i: int)
    requires anchor < |items| && 0 <= i < |items|
  {
    items[anchor].container.Some? && items[i].container.Some? && items[i].container != items[anchor].container
  }

  ghost predicate Shown(item: Item) {
    item.text.Some? || item.role in {HEADING, TABLE, FIGURE}
  }

  function At(anchor: nat, forward: bool, d: nat): int {
    if forward then anchor + d else anchor - d
  }

  /** How many items worth showing stand at distances 1 to `d` from the anchor, on one side. */
  ghost function ShownWithin(items: seq<Item>, anchor: nat, forward: bool, d: nat): nat
    requires anchor < |items| && 0 <= At(anchor, forward, d) < |items|
  {
    if d == 0 then 0 else ShownWithin(items, anchor, forward, d - 1) + if Shown(items[At(anchor, forward, d)]) then 1 else 0
  }

  /** The item at distance `d` belongs to the window on its side: worth showing, in the anchor's container
      without a break on the way, and among the first `context` such items. */
  ghost predicate InWindow(items: seq<Item>, anchor: nat, context: nat, forward: bool, d: nat)
    requires anchor < |items|
  {
    && d >= 1 && 0 <= At(anchor, forward, d) < |items| && Shown(items[At(anchor, forward, d)])
    && (forall e :: 1 <= e <= d ==> !Leaves(items, anchor, At(anchor, forward, e)))
    && ShownWithin(items, anchor, forward, d - 1) < context
  }

  ghost predicate IsWindow(items: seq<Item>, anchor: nat, context: nat, selected: set<nat>)
    requires anchor < |items|
  {
    forall i: nat :: i in selected <==>
      i == anchor || (i > anchor && InWindow(items, anchor, context, true, i - anchor)) || (i < anchor && InWindow(items, anchor, context, false, anchor - i))
  }

  lemma {:induction false} ShownGrows(items: seq<Item>, anchor: nat, forward: bool, d: nat, e: nat)
    requires d <= e && anchor < |items| && 0 <= At(anchor, forward, e) < |items| && 0 <= At(anchor, forward, d) < |items|
    ensures ShownWithin(items, anchor, forward, d) <= ShownWithin(items, anchor, forward, e)
  {
    if d < e {
      ShownGrows(items, anchor, forward, d, e - 1);
    }
  }

  /** The walk in one direction, as distances from the anchor. */
  ghost predicate SideWalked(items: seq<Item>, anchor: nat, context: nat, forward: bool, d: nat, selected: set<nat>)
    requires anchor < |items|
  {
    && (forall e: nat :: 1 <= e < d && 0 <= At(anchor, forward, e) < |items| ==> (At(anchor, forward, e) in selected <==> InWindow(items, anchor, context, forward, e)))
    && (forall i :: i in selected ==> i < |items| && 1 <= (if forward then i - anchor else anchor - i) < d)
  }

  /** One step of the walk past an item of the anchor's container. */
  lemma WindowStep(items: seq<Item>, anchor: nat, context: nat, forward: bool, d: nat, selected: set<nat>)
    requires anchor < |items| && 1 <= d && 0 <= At(anchor, forward, d - 1) < |items| && 0 <= At(anchor, forward, d) < |items|
    requires SideWalked(items, anchor, context, forward, d, selected) && ShownWithin(items, anchor, forward, d - 1) < context
    requires forall e :: 1 <= e <= d ==> !Leaves(items, anchor, At(anchor, forward, e))
    ensures var shown := Shown(items[At(anchor, forward, d)]);
            && SideWalked(items, anchor, context, forward, d + 1, selected + if shown then {At(anchor, forward, d)} else {})
            && ShownWithin(items, anchor, forward, d) == ShownWithin(items, anchor, forward, d - 1) + if shown then 1 else 0
  {
    hide Leaves, Shown, ShownWithin;
    assert InWindow(items, anchor, context, forward, d) <==> Shown(items[At(anchor, forward, d)]);
    hide InWindow;
    UnfoldShown(items, anchor, forward, d);
  }

  lemma UnfoldShown(items: seq<Item>, anchor: nat, forward: bool, d: nat)
    requires anchor < |items| && 1 <= d && 0 <= At(anchor, forward, d - 1) < |items| && 0 <= At(anchor, forward, d) < |items|
    ensures ShownWithin(items, anchor, forward, d)
         == ShownWithin(items, anchor, forward, d - 1) + if Shown(items[At(anchor, forward, d)]) then 1 else 0
  {
  }

  /** Once the walk has stopped, nothing further on belongs to the window. */
  lemma WindowEnds(items: seq<Item>, anchor: nat, context: nat, forward: bool, d: nat, selected: set<nat>)
    requires anchor < |items| && 1 <= d <= |items| && 0 <= At(anchor, forward, d - 1) < |items|
    requires SideWalked(items, anchor, context, forward, d, selected)
    requires || !(0 <= At(anchor, forward, d) < |items|) || ShownWithin(items, anchor, forward, d - 1) >= context
             || Leaves(items, anchor, At(anchor, forward, d))
    ensures SideWalked(items, anchor, context, forward, |items| + 1, selected)
  {
    forall e: nat | d <= e && 0 <= At(anchor, forward, e) < |items| ensures !InWindow(items, anchor, context, forward, e) {
      if ShownWithin(items, anchor, forward, d - 1) >= context {
        ShownGrows(items, anchor, forward, d - 1, e - 1);
      }
    }
    hide InWindow, Leaves, ShownWithin;
  }

  method WindowSide(items: seq<Item>, anchor: nat, context: nat, forward: bool) returns (selected: set<nat>)
    requires anchor < |items|
    ensures SideWalked(items, anchor, context, forward, |items| + 1, selected)
  {
    selected := {};
    var d, retained := 1, 0;
    assert SideWalked(items, anchor, context, forward, 1, {});
    hide SideWalked;
    while 0 <= At(anchor, forward, d) < |items| && retained < context
      invariant 1 <= d <= |items| && 0 <= At(anchor, forward, d - 1) < |items|
      invariant retained == ShownWithin(items, anchor, forward, d - 1)
      invariant forall e :: 1 <= e < d ==> !Leaves(items, anchor, At(anchor, forward, e))
      invariant SideWalked(items, anchor, context, forward, d, selected)
      decreases |items| + 1 - d
    {
      var index := if forward then anchor + d else anchor - d;
      var candidate := items[index];
      ghost var before := selected;
      if items[anchor].container.Some? && candidate.container.Some? && candidate.container.value != items[anchor].container.value {
        break;
      }
      if candidate.text.Some? || candidate.role == HEADING || candidate.role == TABLE || candidate.role == FIGURE {
        selected := selected + {index};
        retained := retained + 1;
      }
      assert selected == before + (if Shown(items[index]) then {index} else {});
      WindowStep(items, anchor, context, forward, d, before);
      d := d + 1;
    }
    WindowEnds(items, anchor, context, forward, d, selected);
  }

  /** `_window_indexes`. */
  method WindowIndexes(items: seq<Item>, anchor: nat, context: nat) returns (selected: set<nat>)
    requires anchor < |items|
    ensures IsWindow(items, anchor, context, selected)
  {
    var before := WindowSide(items, anchor, context, false);
    var after := WindowSide(items, anchor, context, true);
    selected := {anchor} + before + after;
    forall i: nat ensures i in selected <==>
      i == anchor || (i > anchor && InWindow(items, anchor, context, true, i - anchor)) || (i < anchor && InWindow(items, anchor, context, false, anchor - i))
    {
      if i > anchor {
        assert At(anchor, true, i - anchor) == i;
      } else if i < anchor {
        assert At(anchor, false, anchor - i) == i;
      }
    }
  }

  /** The section of heading `h` ends before the next heading of its rank or above. */
  predicate IsSectionEnd(items: seq<Item>, h: nat, end: nat)
    requires h < |items|
  {
    && h < end <= |items|
    && (forall j :: h < j < end && Heading(items, j) ==> items[h].level < items[j].level)
    && (end < |items| ==> Heading(items, end) && items[end].level <= items[h].level)
  }

  predicate IsGreatest(s: set<nat>, m: nat) {
    m in s && forall i :: i in s ==> i <= m
  }

  method Greatest(s: set<nat>) returns (m: Option<nat>)
    ensures m.None? <==> s == {}
    ensures m.Some? ==> IsGreatest(s, m.value)
  {
    m := None;
    var todo := s;
    while todo != {}
      invariant todo <= s
      invariant m.None? <==> todo == s
      invariant m.Some? ==> m.value in s && forall i :: i in s && i !in todo ==> i <= m.value
    {
      var i :| i in todo;
      todo := todo - {i};
      if m.None? || m.value < i {
        m := Some(i);
      }
    }
  }

  predicate Within(from: nat, end: nat, i: nat) {
    from <= i < end
  }

  /** What `_section_indexes` selects. */
  ghost predicate IsSection(items: seq<Item>, anchor: nat, trail: set<nat>, context: nat, selected: set<nat>)
    requires anchor < |items|
  {
    var item := items[anchor];
    if item.role in {TABLE, TABLE_CELL} && item.parent.Some? then
      forall i: nat :: i in selected <==> i < |items| && items[i].parent == item.parent
    else if item.role != HEADING && trail == {} then IsWindow(items, anchor, context, selected)
    else
      exists h: nat, end: nat :: IsSpan(items, anchor, trail, h, end)
        && forall i: nat :: i in selected <==> h <= i < end || i == anchor
  }

  /** The span of the anchor itself, if it is a heading, else of the last heading of its trail. */
  ghost predicate IsSpan(items: seq<Item>, anchor: nat, trail: set<nat>, h: nat, end: nat)
    requires anchor < |items|
  {
    (if items[anchor].role == HEADING then h == anchor else IsGreatest(trail, h)) && h < |items| && IsSectionEnd(items, h, end)
  }

  method SectionIndexes(items: seq<Item>, anchor: nat, trail: set<nat>, context: nat) returns (selected: set<nat>)
    requires anchor < |items| && forall i :: i in trail ==> i < |items|
    ensures IsSection(items, anchor, trail, context, selected)
  {
    var role := items[anchor].role;
    if role in {TABLE, TABLE_CELL} && items[anchor].parent.Some? {
      var sameParent: set<nat> := set i: nat | i < |items| && items[i].parent == items[anchor].parent;
      assert anchor in sameParent;
      if sameParent != {} {
        return sameParent + {anchor};
      }
    }
    var heading: Option<nat> := Some(anchor);
    if role != HEADING {
      heading := Greatest(trail);
    }
    if heading.None? {
      selected := WindowIndexes(items, anchor, context);
      return;
    }
    var h := heading.value;
    var end := |items|;
    for index := h + 1 to |items|
      invariant end == |items| && forall j :: h < j < index && Heading(items, j) ==> items[h].level < items[j].level
    {
      if items[index].role == HEADING && items[index].level <= items[h].level {
        end := index;
        break;
      }
    }
    selected := (set i: nat | i < end && Within(h, end, i)) + {anchor};
    assert IsSpan(items, anchor, trail, h, end);
  }

  // ------------------------------------------------------------------ the section of an ordinary document

  predicate NearestHeading(items: seq<Item>, anchor: nat, n: int) {
    && 0 <= n < anchor && Heading(items, n) && forall j :: n < j < anchor ==> !Heading(items, j)
  }

  ghost predicate ParentsPrecede(items: seq<Item>) {
    forall i :: 0 <= i < |items| && ParentOf(items, i).Some? ==> ParentOf(items, i).value < i
  }

  lemma {:induction false} AncestorsPrecede(items: seq<Item>, anchor: nat, k: nat)
    requires anchor < |items| && ParentsPrecede(items)
    ensures Ancestor(items, anchor, k).Some? ==> Ancestor(items, anchor, k).value < anchor
  {
    if k > 0 {
      AncestorsPrecede(items, anchor, k - 1);
    }
  }

  /** When parents precede their children, the trail ends with the nearest preceding heading exactly when
      that heading is an ancestor or its level is below the scan's starting threshold. */
  lemma TrailEndsWithNearestHeading(items: seq<Item>, anchor: nat, trail: set<nat>, n: nat)
    requires anchor < |items| && ParentsPrecede(items) && NearestHeading(items, anchor, n)
    requires forall i :: i in trail <==> InTrail(items, anchor, i)
    ensures IsGreatest(trail, n) <==> items[n].level < TOO_DEEP || IsAncestor(items, anchor, n)
    ensures forall i :: i in trail ==> i <= n
  {
    forall i | i in trail ensures i <= n {
      TrailPrecedes(items, anchor, i);
    }
  }

  lemma TrailPrecedes(items: seq<Item>, anchor: nat, i: int)
    requires anchor < |items| && ParentsPrecede(items) && InTrail(items, anchor, i)
    ensures i < anchor
  {
    if IsAncestor(items, anchor, i) {
      var k: nat :| Ancestor(items, anchor, k) == Some(i);
      AncestorsPrecede(items, anchor, k);
    }
  }

  /** The section of an ordinary item is the span of the nearest preceding heading, and it contains the item. */
  lemma SectionIsNearestSpan(items: seq<Item>, anchor: nat, trail: set<nat>, context: nat, selected: set<nat>, n: nat)
    requires anchor < |items| && ParentsPrecede(items) && NearestHeading(items, anchor, n)
    requires items[n].level < TOO_DEEP || IsAncestor(items, anchor, n)
    requires items[anchor].role != HEADING && !(items[anchor].role in {TABLE, TABLE_CELL} && items[anchor].parent.Some?)
    requires forall i :: i in trail <==> InTrail(items, anchor, i)
    requires IsSection(items, anchor, trail, context, selected)
    ensures exists end: nat :: IsSectionEnd(items, n, end) && anchor < end && forall i: nat :: i in selected <==> Within(n, end, i)
  {
    TrailEndsWithNearestHeading(items, anchor, trail, n);
    var h: nat, end: nat :| IsSpan(items, anchor, trail, h, end) && forall i: nat :: i in selected <==> h <= i < end || i == anchor;
    assert h == n;
    assert anchor < end;
    forall i: nat ensures i in selected <==> Within(n, end, i) {
    }
  }

  /** Without a heading before it, an item has no trail and its section is its window. */
  lemma NoHeadingNoTrail(items: seq<Item>, anchor: nat, trail: set<nat>)
    requires anchor < |items| && ParentsPrecede(items) && forall j :: 0 <= j < anchor ==> !Heading(items, j)
    requires forall i :: i in trail <==> InTrail(items, anchor, i)
    ensures trail == {}
  {
    if i: nat :| i in trail {
      TrailPrecedes(items, anchor, i);
    }
  }

  /** A heading level at the threshold is not found by the scan: the item below it has no trail at all. */
  lemma DeepHeadingIsMissed() returns (items: seq<Item>)
    ensures |items| == 2 && ParentsPrecede(items) && NearestHeading(items, 1, 0)
    ensures forall i :: !InTrail(items, 1, i)
  {
    items := [Item(None, None, Some("h"), HEADING, TOO_DEEP, None), Item(None, None, Some("p"), PARAGRAPH, 1, None)];
    forall k: nat ensures Ancestor(items, 1, k).None? {
      NoAncestors(items, 1, k);
    }
  }

  lemma {:induction false} NoAncestors(items: seq<Item>, anchor: nat, k: nat)
    requires anchor < |items| && items[anchor].parent.None?
    ensures Ancestor(items, anchor, k).None?
  {
    if k > 0 {
      NoAncestors(items, anchor, k - 1);
    }
  }

  /** A parent that follows its child puts a later heading at the end of the trail: the section starts
      after the anchor. */
  lemma LateParentMovesTheSection() returns (items: seq<Item>)
    ensures |items| == 2 && items[0].role == PARAGRAPH && !ParentsPrecede(items)
    ensures InTrail(items, 0, 1)
  {
    items := [Item(None, Some("h"), Some("p"), PARAGRAPH, 1, None), Item(Some("h"), None, Some("h"), HEADING, 1, None)];
    assert LastNode(items, "h") == Some(1);
    assert Ancestor(items, 0, 0) == Some(1);
    assert ParentOf(items, 0) == Some(1);
  }

  // ------------------------------------------------------------------ one slice

  datatype Mode = AUTO | MATCH | WINDOW | SECTION

  datatype Relation = ANCHOR | HEADING_TRAIL | CONTEXT

  datatype EvidenceItem = EvidenceItem(index: nat, relation: Relation, text: Option<string>, truncated: bool)

  /** `items` in the order in which they were accepted; they are published by index. */
  datatype Slice = Slice(anchor: nat, mode: Mode, trail: set<nat>, items: seq<EvidenceItem>, used: nat, omitted: nat, truncated: bool)

  function Min(a: nat, b: nat): nat {
    if a <= b then a else b
  }

  function TextOf(text: Option<string>): string {
    if text.None? then "" else text.value
  }

  function TextLength(items: seq<EvidenceItem>): nat {
    if items == [] then 0 else TextLength(items[..|items| - 1]) + |TextOf(items[|items| - 1].text)|
  }

  /** An item as it may be shown: a prefix of its text of at most 2048 characters, marked when it was cut. */
  predicate IsBounded(item: Item, shown: EvidenceItem) {
    && (shown.text.Some? <==> item.text.Some?)
    && TextOf(shown.text) <= TextOf(item.text) && |TextOf(shown.text)| <= MAX_ITEM_CHARS
    && (shown.truncated <==> TextOf(shown.text) != TextOf(item.text))
  }

  method BoundedItem(item: Item, index: nat, relation: Relation, remaining: nat) returns (shown: EvidenceItem)
    ensures IsBounded(item, shown) && shown.index == index && shown.relation == relation
    ensures |TextOf(shown.text)| == Min(|TextOf(item.text)|, Min(MAX_ITEM_CHARS, remaining))
  {
    var text, truncated := item.text, false;
    if text.Some? {
      var limit := Min(MAX_ITEM_CHARS, remaining);
      if |text.value| > limit {
        text, truncated := Some(text.value[..limit]), true;
      }
    }
    shown := EvidenceItem(index, relation, text, truncated);
  }

  /** The order of preference: the anchor, then its trail, then context; nearer items first, the earlier of
      two equally near. */
  ghost predicate Preferred(anchor: nat, trail: set<nat>, i: nat, j: nat) {
    if i == anchor || j == anchor then i == anchor && j != anchor
    else if i in trail && j !in trail then true
    else if i !in trail && j in trail then false
    else Apart(anchor, i) < Apart(anchor, j) || (Apart(anchor, i) == Apart(anchor, j) && i < j)
  }

  ghost function Apart(anchor: nat, i: nat): nat {
    if i < anchor then anchor - i else i - anchor
  }

  /** The sort key. */
  function PriorityKey(anchor: nat, trail: set<nat>, i: nat): (int, int, int) {
    (if i == anchor then 0 else if i in trail then 1 else 2, if i < anchor then anchor - i else i - anchor, i)
  }

  predicate KeyLess(a: (int, int, int), b: (int, int, int)) {
    a.0 < b.0 || (a.0 == b.0 && (a.1 < b.1 || (a.1 == b.1 && a.2 < b.2)))
  }

  lemma KeyIsPreference(anchor: nat, trail: set<nat>, i: nat, j: nat)
    ensures KeyLess(PriorityKey(anchor, trail, i), PriorityKey(anchor, trail, j)) <==> Preferred(anchor, trail, i, j)
  {
  }

  ghost predicate IsPriority(anchor: nat, trail: set<nat>, selected: set<nat>, order: seq<nat>) {
    && (forall i: nat :: i in order <==> i in selected)
    && |order| == |selected|
    && (forall k, l :: 0 <= k < l < |order| ==> Preferred(anchor, trail, order[k], order[l]))
  }

  method MostPreferred(anchor: nat, trail: set<nat>, candidates: set<nat>) returns (best: nat)
    requires candidates != {}
    ensures best in candidates && forall i :: i in candidates ==> i == best || Preferred(anchor, trail, best, i)
  {
    best :| best in candidates;
    var todo := candidates - {best};
    while todo != {}
      invariant todo <= candidates && best in candidates && best !in todo
      invariant forall i :: i in candidates && i !in todo ==> i == best || Preferred(anchor, trail, best, i)
    {
      var i :| i in todo;
      todo := todo - {i};
      KeyIsPreference(anchor, trail, i, best);
      if KeyLess(PriorityKey(anchor, trail, i), PriorityKey(anchor, trail, best)) {
        best := i;
      }
    }
  }

  method PriorityOrder(anchor: nat, trail: set<nat>, selected: set<nat>) returns (order: seq<nat>)
    ensures IsPriority(anchor, trail, selected, order)
  {
    order := [];
    var todo := selected;
    while todo != {}
      invariant todo <= selected && |order| + |todo| == |selected|
      invariant forall i: nat :: i in order <==> i in selected && i !in todo
      invariant forall k, l :: 0 <= k < l < |order| ==> Preferred(anchor, trail, order[k], order[l])
      invariant forall k, i :: 0 <= k < |order| && i in todo ==> Preferred(anchor, trail, order[k], i)
    {
      var best := MostPreferred(anchor, trail, todo);
      order, todo := order + [best], todo - {best};
    }
  }

  /** What `_build_slice` selects before the budget is applied. */
  ghost predicate IsSelected(items: seq<Item>, anchor: nat, mode: Mode, trail: set<nat>, context: nat, selected: set<nat>)
    requires anchor < |items|
  {
    match mode
    case MATCH => selected == {anchor}
    case WINDOW => exists window :: IsWindow(items, anchor, context, window) && selected == {anchor} + window + trail
    case SECTION => exists section :: IsSection(items, anchor, trail, context, section) && selected == {anchor} + section + trail
    case AUTO => false
  }

  ghost function ModeFor(requested: Mode, items: seq<Item>, anchor: nat, trail: set<nat>): Mode
    requires anchor < |items|
  {
    if requested != AUTO then requested
    else if trail != {} || items[anchor].role in {HEADING, TABLE, TABLE_CELL} then SECTION
    else WINDOW
  }

  method SelectionMode(items: seq<Item>, anchor: nat, requested: Mode, trail: set<nat>) returns (mode: Mode)
    requires anchor < |items|
    ensures mode == ModeFor(requested, items, anchor, trail) && mode != AUTO
  {
    mode := requested;
    if mode == AUTO {
      var role := items[anchor].role;
      mode := if trail != {} || role == HEADING || role == TABLE || role == TABLE_CELL then SECTION else WINDOW;
    }
  }

  method SelectItems(items: seq<Item>, anchor: nat, mode: Mode, trail: set<nat>, context: nat) returns (selected: set<nat>)
    requires anchor < |items| && mode != AUTO && forall i :: i in trail ==> i < |items|
    ensures IsSelected(items, anchor, mode, trail, context, selected)
    ensures anchor in selected && forall i :: i in selected ==> i < |items|
  {
    selected := {anchor};
    if mode == WINDOW {
      var window := WindowIndexes(items, anchor, context);
      selected := selected + window;
    } else if mode == SECTION {
      var section := SectionIndexes(items, anchor, trail, context);
      selected := selected + section;
    }
    if mode != MATCH {
      selected := selected + trail;
    }
  }

  ghost function RelationFor(anchor: nat, trail: set<nat>, i: nat): Relation {
    if i == anchor then ANCHOR else if i in trail then HEADING_TRAIL else CONTEXT
  }

  ghost predicate IsShownAs(items: seq<Item>, anchor: nat, trail: set<nat>, i: nat, shown: EvidenceItem) {
    && i < |items| && shown.index == i && shown.relation == RelationFor(anchor, trail, i) && IsBounded(items[i], shown)
  }

  /** As much text as is there, as 2048 characters allow and as is left of the budget. */
  ghost predicate HasRoom(item: Item, budget: nat, used: nat, length: nat) {
    && length <= |TextOf(item.text)| && length <= 2_048 && used + length <= budget
    && (length == |TextOf(item.text)| || length == 2_048 || used + length == budget)
  }

  /** One accepted item, when `used` of the budget was used before it. */
  ghost predicate IsFilledIn(items: seq<Item>, anchor: nat, trail: set<nat>, i: nat, budget: nat, used: nat, shown: EvidenceItem, first: bool) {
    IsShownAs(items, anchor, trail, i, shown) && HasRoom(items[i], budget, used, |TextOf(shown.text)|) && (first || used < budget)
  }

  /** The accepted items: the first ones in order of preference, each with as much of its text as the item
      limit and what is left of the budget allow; all but the anchor while something is left, and whatever is
      left out was left out because the budget is used up. */
  ghost predicate IsAccepted(items: seq<Item>, anchor: nat, trail: set<nat>, order: seq<nat>, budget: nat, accepted: seq<EvidenceItem>, seen: nat) {
    && |accepted| <= seen <= |order| && (forall k :: 0 <= k < |order| ==> order[k] < |items|)
    && (forall k :: 0 <= k < |accepted| ==> IsFilledIn(items, anchor, trail, order[k], budget, TextLength(accepted[..k]), accepted[k], k == 0))
    && TextLength(accepted) <= budget
    && (|accepted| < seen ==> TextLength(accepted) == budget)
    && (seen > 0 ==> accepted != [])
  }

  lemma OneLonger(accepted: seq<EvidenceItem>, shown: EvidenceItem)
    ensures TextLength(accepted + [shown]) == TextLength(accepted) + |TextOf(shown.text)|
  {
    assert (accepted + [shown])[..|accepted|] == accepted;
  }

  lemma AcceptOne(items: seq<Item>, anchor: nat, trail: set<nat>, order: seq<nat>, budget: nat, accepted: seq<EvidenceItem>, seen: nat, shown: EvidenceItem)
    requires IsAccepted(items, anchor, trail, order, budget, accepted, seen) && seen < |order| && |accepted| == seen
    requires IsFilledIn(items, anchor, trail, order[seen], budget, TextLength(accepted), shown, seen == 0)
    requires TextLength(accepted) + |TextOf(shown.text)| <= budget
    ensures IsAccepted(items, anchor, trail, order, budget, accepted + [shown], seen + 1)
    ensures TextLength(accepted + [shown]) == TextLength(accepted) + |TextOf(shown.text)|
  {
    OneLonger(accepted, shown);
    hide IsFilledIn, TextLength, TextOf;
    var more := accepted + [shown];
    forall k | 0 <= k < seen + 1
      ensures IsFilledIn(items, anchor, trail, order[k], budget, TextLength(more[..k]), more[k], k == 0)
    {
      assert more[..k] == accepted[..k];
      assert accepted[..seen] == accepted;
    }
  }

  lemma FilledIn(items: seq<Item>, anchor: nat, trail: set<nat>, i: nat, budget: nat, used: nat, shown: EvidenceItem, first: bool)
    requires i < |items| && shown.index == i && shown.relation == RelationFor(anchor, trail, i) && IsBounded(items[i], shown)
    requires used <= budget && |TextOf(shown.text)| == Min(|TextOf(items[i].text)|, Min(2_048, budget - used)) && (first || used < budget)
    ensures IsFilledIn(items, anchor, trail, i, budget, used, shown, first)
  {
  }

  lemma AcceptedSoFar(items: seq<Item>, anchor: nat, trail: set<nat>, order: seq<nat>, budget: nat, accepted: seq<EvidenceItem>, seen: nat)
    requires IsAccepted(items, anchor, trail, order, budget, accepted, seen)
    ensures |accepted| <= seen && TextLength(accepted) <= budget && (|accepted| < seen ==> TextLength(accepted) == budget)
    ensures seen > 0 ==> accepted != [] && accepted[0].index == order[0]
  {
    hide TextLength, HasRoom;
  }

  lemma SkipOne(items: seq<Item>, anchor: nat, trail: set<nat>, order: seq<nat>, budget: nat, accepted: seq<EvidenceItem>, seen: nat)
    requires IsAccepted(items, anchor, trail, order, budget, accepted, seen) && 0 < seen < |order| && TextLength(accepted) == budget
    ensures IsAccepted(items, anchor, trail, order, budget, accepted, seen + 1)
  {
    hide IsFilledIn, TextLength;
  }

  method AcceptItems(items: seq<Item>, anchor: nat, trail: set<nat>, order: seq<nat>, budget: nat) returns (accepted: seq<EvidenceItem>, used: nat)
    requires anchor < |items| && (forall k :: 0 <= k < |order| ==> order[k] < |items|)
    requires order != [] && order[0] == anchor && forall k :: 0 < k < |order| ==> order[k] != anchor
    ensures IsAccepted(items, anchor, trail, order, budget, accepted, |order|) && used == TextLength(accepted)
    ensures 0 < |accepted| <= |order| && accepted[0].index == anchor && used <= budget
    ensures |TextOf(accepted[0].text)| == Min(|TextOf(items[anchor].text)|, Min(2_048, budget))
  {
    accepted, used := [], 0;
    for k := 0 to |order|
      invariant IsAccepted(items, anchor, trail, order, budget, accepted, k) && used == TextLength(accepted)
      invariant k > 0 ==> |TextOf(accepted[0].text)| == Min(|TextOf(items[anchor].text)|, Min(MAX_ITEM_CHARS, budget))
    {
      hide IsBounded, TextLength, IsAccepted, IsFilledIn;
      AcceptedSoFar(items, anchor, trail, order, budget, accepted, k);
      var index := order[k];
      if used >= budget && index != anchor {
        SkipOne(items, anchor, trail, order, budget, accepted, k);
        continue;
      }
      var relation := CONTEXT;
      if index in trail {
        relation := HEADING_TRAIL;
      }
      if index == anchor {
        relation := ANCHOR;
      }
      var shown := BoundedItem(items[index], index, relation, budget - used);
      if TextOf(shown.text) == "" && TextOf(items[index].text) != "" && index != anchor {
        continue;
      }
      FilledIn(items, anchor, trail, index, budget, used, shown, k == 0);
      AcceptOne(items, anchor, trail, order, budget, accepted, k, shown);
      accepted, used := accepted + [shown], used + |TextOf(shown.text)|;
    }
  }

  /** A slice as the source promises it, for the given selection and order of preference. */
  ghost predicate IsSlice(items: seq<Item>, anchor: nat, requested: Mode, context: nat, budget: nat, slice: Slice, selected: set<nat>, order: seq<nat>)
    requires anchor < |items|
  {
    && slice.anchor == anchor && (forall i :: i in slice.trail <==> InTrail(items, anchor, i))
    && slice.mode == ModeFor(requested, items, anchor, slice.trail)
    && IsSelected(items, anchor, slice.mode, slice.trail, context, selected)
    && IsPriority(anchor, slice.trail, selected, order)
    && IsAccepted(items, anchor, slice.trail, order, Min(budget, 4_096), slice.items, |order|)
    && slice.items != [] && slice.items[0].index == anchor
    && |TextOf(slice.items[0].text)| == Min(|TextOf(items[anchor].text)|, Min(2_048, Min(budget, 4_096)))
    && slice.used == TextLength(slice.items) && slice.omitted == |selected| - |slice.items|
    && (slice.truncated <==> slice.omitted > 0 || exists k :: 0 <= k < |slice.items| && slice.items[k].truncated)
  }

  /** `_build_slice`: keeps its anchor first, and at most 4096 characters in all. */
  method BuildSlice(items: seq<Item>, anchor: nat, requested: Mode, context: nat, budget: nat)
    returns (slice: Slice, ghost selected: set<nat>, ghost order: seq<nat>)
    requires anchor < |items|
    ensures IsSlice(items, anchor, requested, context, budget, slice, selected, order)
    ensures slice.used <= budget && slice.used <= 4_096
  {
    hide InTrail, IsSelected, IsBounded, TextLength, IsAccepted, Preferred, ModeFor;
    var trail := HeadingTrail(items, anchor);
    TrailInRange(items, anchor, trail);
    var mode := SelectionMode(items, anchor, requested, trail);
    var chosen := SelectItems(items, anchor, mode, trail, context);
    var priority := PriorityOrder(anchor, trail, chosen);
    AnchorFirst(anchor, trail, chosen, priority);
    PriorityInRange(items, anchor, trail, chosen, priority);
    hide IsPriority;
    var accepted, used := AcceptItems(items, anchor, trail, priority, Min(budget, MAX_SLICE_CHARS));
    selected, order := chosen, priority;
    var omitted := |chosen| - |accepted|;
    slice := Slice(anchor, mode, trail, accepted, used, omitted,
                   omitted > 0 || exists k :: 0 <= k < |accepted| && accepted[k].truncated);
  }

  lemma TrailInRange(items: seq<Item>, anchor: nat, trail: set<nat>)
    requires anchor < |items| && forall i :: i in trail <==> InTrail(items, anchor, i)
    ensures forall i :: i in trail ==> i < |items|
  {
  }

  lemma PriorityInRange(items: seq<Item>, anchor: nat, trail: set<nat>, selected: set<nat>, order: seq<nat>)
    requires IsPriority(anchor, trail, selected, order) && forall i :: i in selected ==> i < |items|
    ensures forall k :: 0 <= k < |order| ==> order[k] < |items|
  {
    forall k | 0 <= k < |order| ensures order[k] < |items| {
      assert order[k] in order;
    }
  }

  lemma AnchorFirst(anchor: nat, trail: set<nat>, selected: set<nat>, order: seq<nat>)
    requires IsPriority(anchor, trail, selected, order) && anchor in selected
    ensures order != [] && order[0] == anchor && forall k :: 0 < k < |order| ==> order[k] != anchor
  {
    assert anchor in order;
    var k :| 0 <= k < |order| && order[k] == anchor;
    assert k > 0 ==> Preferred(anchor, trail, order[0], order[k]);
    forall l | 0 < l < |order| ensures order[l] != anchor {
      assert Preferred(anchor, trail, order[0], order[l]);
    }
  }

  // ------------------------------------------------------------------ pages of slices

  datatype Status = NOT_SEARCHABLE | COMPLETE | NO_MATCH

  datatype Selection = Selection(status: Status, matched: nat, slices: seq<Slice>, used: nat, hasMore: bool, nextOffset: Option<nat>)

  ghost predicate IsAnchor(alphabet: Query.Alphabet, item: Item, query: string) {
    item.text.Some? && query != "" && exists mode :: Query.MatchesUnder(alphabet, item.text.value, query, mode)
  }

  /** The items that match the query, in document order. */
  ghost predicate AreAnchors(alphabet: Query.Alphabet, items: seq<Item>, query: string, anchors: seq<nat>) {
    && (forall k, l :: 0 <= k < l < |anchors| ==> anchors[k] < anchors[l])
    && (forall i: nat :: i in anchors <==> i < |items| && IsAnchor(alphabet, items[i], query))
  }

  method FindAnchors(alphabet: Query.Alphabet, items: seq<Item>, query: string) returns (anchors: seq<nat>)
    requires Query.Standard(alphabet)
    ensures AreAnchors(alphabet, items, query, anchors)
  {
    hide Query.MatchesUnder, Query.Backed, Query.RepairsOf;
    anchors := [];
    for i := 0 to |items|
      invariant forall k, l :: 0 <= k < l < |anchors| ==> anchors[k] < anchors[l]
      invariant forall k :: 0 <= k < |anchors| ==> anchors[k] < i
      invariant forall j: nat :: j in anchors <==> j < i && IsAnchor(alphabet, items[j], query)
    {
      var hit := Query.MatchDocumentText(alphabet, items[i].text, query);
      if hit.Some? && hit.value.count > 0 {
        anchors := anchors + [i];
      }
    }
  }

  function UsedBy(slices: seq<Slice>): nat {
    if slices == [] then 0 else UsedBy(slices[..|slices| - 1]) + slices[|slices| - 1].used
  }

  /** The next slice of a page is built for its anchor with what is left of the budget. */
  ghost predicate IsNextSlice(items: seq<Item>, anchor: nat, mode: Mode, context: nat, budget: int, slice: Slice) {
    && 0 < budget && anchor < |items|
    && exists selected, order :: IsSlice(items, anchor, mode, context, budget, slice, selected, order)
  }

  /** Slices for the anchors from `offset` on, each within what the earlier ones left of the budget. */
  ghost predicate AreSlices(items: seq<Item>, anchors: seq<nat>, mode: Mode, context: nat, maxCharacters: nat, offset: nat, slices: seq<Slice>) {
    slices == [] ||
    (var before, last := slices[..|slices| - 1], slices[|slices| - 1];
     && AreSlices(items, anchors, mode, context, maxCharacters, offset, before)
     && offset + |slices| <= |anchors| && UsedBy(before) + last.used <= maxCharacters
     && IsSliceOf(items, anchors[offset + |slices| - 1], mode, context, maxCharacters - UsedBy(before), last))
  }

  ghost predicate IsSliceOf(items: seq<Item>, anchor: nat, mode: Mode, context: nat, budget: int, slice: Slice) {
    slice.anchor == anchor && slice.used <= MAX_SLICE_CHARS && IsNextSlice(items, anchor, mode, context, budget, slice)
  }

  /** Whether a request can produce any slice at all; a caller can tell before asking. */
  predicate Productive(searchable: bool, limit: nat, maxCharacters: nat) {
    searchable && limit > 0 && maxCharacters > 0
  }

  /** One page: the slices of consecutive anchors from `offset`, as many as limit and budget allow. */
  ghost predicate IsPage(items: seq<Item>, anchors: seq<nat>, mode: Mode, context: nat, maxCharacters: nat, limit: nat, offset: nat,
                         searchable: bool, page: Selection) {
    && AreSlices(items, anchors, mode, context, maxCharacters, offset, page.slices)
    && page.used == UsedBy(page.slices) <= maxCharacters
    && |page.slices| <= limit && (!searchable ==> page.slices == [])
    && (searchable && offset + |page.slices| < |anchors| ==> |page.slices| == limit || page.used == maxCharacters)
    && page.matched == |anchors| && (page.hasMore <==> offset + |page.slices| < |anchors|)
    && page.nextOffset == (if page.hasMore then Some(offset + |page.slices|) else None)
    && page.status == (if !searchable then NOT_SEARCHABLE else if anchors == [] then NO_MATCH else COMPLETE)
  }

  lemma OneMoreSlice(items: seq<Item>, anchors: seq<nat>, mode: Mode, context: nat, maxCharacters: nat, offset: nat, slices: seq<Slice>, slice: Slice)
    requires AreSlices(items, anchors, mode, context, maxCharacters, offset, slices) && offset + |slices| < |anchors|
    requires IsSliceOf(items, anchors[offset + |slices|], mode, context, maxCharacters - UsedBy(slices), slice)
    requires UsedBy(slices) + slice.used <= maxCharacters
    ensures AreSlices(items, anchors, mode, context, maxCharacters, offset, slices + [slice])
    ensures UsedBy(slices + [slice]) == UsedBy(slices) + slice.used
  {
    hide IsSliceOf;
    assert (slices + [slice])[..|slices|] == slices;
  }

  lemma NoSlices(items: seq<Item>, anchors: seq<nat>, mode: Mode, context: nat, maxCharacters: nat, offset: nat)
    ensures AreSlices(items, anchors, mode, context, maxCharacters, offset, []) && UsedBy([]) == 0
  {
  }

  /** The loop over the anchors of one page. */
  method BuildSlices(items: seq<Item>, anchors: seq<nat>, mode: Mode, context: nat, maxCharacters: nat, limit: nat, offset: nat)
    returns (slices: seq<Slice>, used: nat)
    requires forall k :: 0 <= k < |anchors| ==> anchors[k] < |items|
    ensures AreSlices(items, anchors, mode, context, maxCharacters, offset, slices) && used == UsedBy(slices) <= maxCharacters
    ensures |slices| <= limit && (offset + |slices| < |anchors| ==> |slices| == limit || used == maxCharacters)
  {
    hide AreSlices, UsedBy, IsSliceOf, IsSlice;
    slices, used := [], 0;
    NoSlices(items, anchors, mode, context, maxCharacters, offset);
    while |slices| < limit && offset + |slices| < |anchors|
      invariant AreSlices(items, anchors, mode, context, maxCharacters, offset, slices) && used == UsedBy(slices) <= maxCharacters
      invariant |slices| <= limit
      decreases limit - |slices|
    {
      if used >= maxCharacters {
        break;
      }
      var anchor := anchors[offset + |slices|];
      var slice, selected, order := BuildSlice(items, anchor, mode, context, maxCharacters - used);
      SliceFacts(items, anchor, mode, context, maxCharacters - used, slice, selected, order);
      OneMoreSlice(items, anchors, mode, context, maxCharacters, offset, slices, slice);
      slices, used := slices + [slice], used + slice.used;
    }
  }

  method BuildDocumentEvidenceSelection(alphabet: Query.Alphabet, items: seq<Item>, query: string, mode: Mode, context: nat,
                                        maxCharacters: nat, limit: nat, offset: nat, searchable: bool)
    returns (page: Selection)
    requires Query.Standard(alphabet)
    ensures IsPage(items, AnchorList(alphabet, items, query, |items|), mode, context, maxCharacters, limit, offset, searchable, page)
  {
    hide IsAnchor, AreSlices, UsedBy, AnchorList;
    var found := FindAnchors(alphabet, items, query);
    AnchorListExact(alphabet, items, query);
    AnchorsAreUnique(alphabet, items, query, found, AnchorList(alphabet, items, query, |items|));
    forall k | 0 <= k < |found| ensures found[k] < |items| {
      assert found[k] in found;
    }
    hide AreAnchors;
    var slices: seq<Slice>, used := [], 0;
    NoSlices(items, found, mode, context, maxCharacters, offset);
    if searchable {
      slices, used := BuildSlices(items, found, mode, context, maxCharacters, limit, offset);
    }
    var next := offset + |slices|;
    page := Selection(if !searchable then NOT_SEARCHABLE else if found == [] then NO_MATCH else COMPLETE,
                      |found|, slices, used, next < |found|, if next < |found| then Some(next) else None);
  }

  lemma SliceFacts(items: seq<Item>, anchor: nat, mode: Mode, context: nat, budget: nat, slice: Slice, selected: set<nat>, order: seq<nat>)
    requires 0 < budget && anchor < |items| && IsSlice(items, anchor, mode, context, budget, slice, selected, order)
    ensures slice.used <= MAX_SLICE_CHARS ==> IsSliceOf(items, anchor, mode, context, budget, slice)
  {
  }

  /** A page with anchors left moves the offset on exactly when the request is productive: an unsearchable
      document with matches, a zero limit or a zero budget hands back the offset it was given. */
  lemma PageAdvancesExactlyWhenProductive(items: seq<Item>, anchors: seq<nat>, mode: Mode, context: nat, maxCharacters: nat, limit: nat,
                                          offset: nat, searchable: bool, page: Selection)
    requires IsPage(items, anchors, mode, context, maxCharacters, limit, offset, searchable, page) && offset < |anchors|
    ensures page.nextOffset != Some(offset) <==> Productive(searchable, limit, maxCharacters)
    ensures !Productive(searchable, limit, maxCharacters) ==> page.hasMore && page.slices == []
  {
    hide IsSliceOf;
    if page.slices != [] {
      var last := |page.slices| - 1;
      SliceNeedsBudget(items, anchors[offset + last], mode, context, maxCharacters - UsedBy(page.slices[..last]), page.slices[last]);
    }
  }

  lemma SliceNeedsBudget(items: seq<Item>, anchor: nat, mode: Mode, context: nat, budget: int, slice: Slice)
    requires IsSliceOf(items, anchor, mode, context, budget, slice)
    ensures budget > 0 && slice.anchor == anchor
  {
  }

  /** A page visits the next anchors in order. */
  lemma {:induction false} PageVisits(items: seq<Item>, anchors: seq<nat>, mode: Mode, context: nat, maxCharacters: nat, offset: nat, slices: seq<Slice>)
    requires AreSlices(items, anchors, mode, context, maxCharacters, offset, slices) && offset <= |anchors|
    ensures offset + |slices| <= |anchors| && anchors[..offset] + AnchorsOf(slices) == anchors[..offset + |slices|]
  {
    hide IsSliceOf;
    if slices != [] {
      var n := |slices| - 1;
      PageVisits(items, anchors, mode, context, maxCharacters, offset, slices[..n]);
      SliceNeedsBudget(items, anchors[offset + n], mode, context, maxCharacters - UsedBy(slices[..n]), slices[n]);
      assert AnchorsOf(slices) == AnchorsOf(slices[..n]) + [anchors[offset + n]];
    }
  }

  lemma AnchorsAreUnique(alphabet: Query.Alphabet, items: seq<Item>, query: string, a: seq<nat>, b: seq<nat>)
    requires AreAnchors(alphabet, items, query, a) && AreAnchors(alphabet, items, query, b)
    ensures a == b
  {
    hide IsAnchor;
    var less := (x: nat, y: nat) => x < y;
    assert forall i: nat :: i in a <==> i in b;
    Ordering.SortedListIsUnique(less, a, b);
  }

  /** The list of matching items, in document order. */
  ghost function AnchorList(alphabet: Query.Alphabet, items: seq<Item>, query: string, n: nat): seq<nat>
    requires n <= |items|
  {
    if n == 0 then []
    else AnchorList(alphabet, items, query, n - 1) + if IsAnchor(alphabet, items[n - 1], query) then [n - 1] else []
  }

  lemma {:induction false} AnchorListFacts(alphabet: Query.Alphabet, items: seq<Item>, query: string, n: nat)
    requires n <= |items|
    ensures var list := AnchorList(alphabet, items, query, n);
            && (forall k :: 0 <= k < |list| ==> list[k] < n)
            && (forall k, l :: 0 <= k < l < |list| ==> list[k] < list[l])
            && (forall i: nat :: i in list <==> i < n && IsAnchor(alphabet, items[i], query))
  {
    hide IsAnchor;
    if n > 0 {
      var m := n - 1;
      AnchorListFacts(alphabet, items, query, m);
    }
  }

  function AnchorsOf(slices: seq<Slice>): seq<nat> {
    seq(|slices|, k requires 0 <= k < |slices| => slices[k].anchor)
  }

  /** A reader who follows `nextOffset` from zero with a productive request is done after finitely many
      pages and has seen every matching item exactly once, in document order. */
  method FollowNextOffset(alphabet: Query.Alphabet, items: seq<Item>, query: string, mode: Mode, context: nat,
                          maxCharacters: nat, limit: nat, searchable: bool) returns (visited: seq<nat>)
    requires Query.Standard(alphabet) && Productive(searchable, limit, maxCharacters)
    ensures AreAnchors(alphabet, items, query, visited)
  {
    hide IsAnchor, AreSlices, AreAnchors, AnchorList;
    visited := [];
    var offset: Option<nat> := Some(0);
    ghost var anchors := AnchorList(alphabet, items, query, |items|);
    AnchorListExact(alphabet, items, query);
    while offset.Some?
      invariant AreAnchors(alphabet, items, query, anchors) && anchors == AnchorList(alphabet, items, query, |items|)
      invariant offset.Some? ==> offset.value <= |anchors| && visited == anchors[..offset.value] && (offset.value < |anchors| || offset.value == 0)
      invariant offset.None? ==> visited == anchors
      decreases if offset.Some? then |anchors| + 1 - offset.value else 0
    {
      var page := BuildDocumentEvidenceSelection(alphabet, items, query, mode, context, maxCharacters, limit, offset.value, searchable);
      NextPage(items, anchors, mode, context, maxCharacters, limit, offset.value, searchable, page);
      visited := visited + AnchorsOf(page.slices);
      offset := page.nextOffset;
    }
  }

  lemma AnchorListExact(alphabet: Query.Alphabet, items: seq<Item>, query: string)
    ensures AreAnchors(alphabet, items, query, AnchorList(alphabet, items, query, |items|))
  {
    AnchorListFacts(alphabet, items, query, |items|);
  }

  /** A productive page continues the anchors visited so far, and moves on or ends. */
  lemma NextPage(items: seq<Item>, anchors: seq<nat>, mode: Mode, context: nat, maxCharacters: nat, limit: nat, offset: nat, searchable: bool, page: Selection)
    requires IsPage(items, anchors, mode, context, maxCharacters, limit, offset, searchable, page) && Productive(searchable, limit, maxCharacters)
    requires offset <= |anchors|
    ensures page.nextOffset.Some? ==> offset < page.nextOffset.value < |anchors| && anchors[..offset] + AnchorsOf(page.slices) == anchors[..page.nextOffset.value]
    ensures page.nextOffset.None? ==> anchors[..offset] + AnchorsOf(page.slices) == anchors
  {
    hide AreSlices;
    if offset < |anchors| {
      PageAdvancesExactlyWhenProductive(items, anchors, mode, context, maxCharacters, limit, offset, searchable, page);
    }
    PageVisits(items, anchors, mode, context, maxCharacters, offset, page.slices);
    assert anchors[..|anchors|] == anchors;
  }

  /** A document with one matching item that is not searchable hands back the offset it was given. */
  method UnsearchableDocumentStandsStill() returns (page: Selection)
    ensures page.matched == 1 && page.slices == [] && page.hasMore && page.nextOffset == Some(0)
  {
    var alphabet := Query.Alphabet((c: char) => [c], (c: char) => false, (c: char) => c == ' ');
    var items := [Item(None, None, Some("a"), PARAGRAPH, 1, None)];
    page := BuildDocumentEvidenceSelection(alphabet, items, "a", AUTO, 2, 12_000, 10, 0, false);
    MatchesItself(alphabet, items[0]);
    ghost var anchors := AnchorList(alphabet, items, "a", 1);
    assert AnchorList(alphabet, items, "a", 0) == [] && anchors == [0];
    PageAdvancesExactlyWhenProductive(items, anchors, AUTO, 2, 12_000, 10, 0, false, page);
  }

  lemma MatchesItself(alphabet: Query.Alphabet, item: Item)
    requires item.text == Some("a") && alphabet.fold('a') == "a"
    ensures IsAnchor(alphabet, item, "a")
  {
    var options := Query.RepairsOf(Query.SUBSTRING_CASEFOLD_NFKC);
    var folded := Query.Folded(alphabet, "a");
    assert "a"[..0] == "" && Query.Folded(alphabet, "").text == "";
    assert folded.text == "a" && Query.Projected(alphabet, "a", options) == folded;
    assert Query.OccursAt("a", "a", 0);
    assert Query.Matches(alphabet, "a", "a", options);
    assert Query.MatchesUnder(alphabet, "a", "a", Query.SUBSTRING_CASEFOLD_NFKC);
  }
}
