/** Placing the dots and labels of one band row so that nothing that is shown collides. */
module Strips {
  import opened Basics

  /** Measured geometry: centre, radius, label width and height, in px. */
  datatype Item = Item(cx: real, r: real, w: real, h: real)

  datatype Rect = Rect(l: real, r: real, t: real, b: real)

  /** The lane offset, the label slot (-1 when hidden), the label's top relative to the dot's. */
  datatype Placed = Placed(dy: real, slot: int, top: real)

  const LANES := 3
  const SLOTS := 4
  const MARGIN := 8.0

  function LaneDy(k: int): real { if k == 0 then 0.0 else if k == 1 then -11.0 else 11.0 }

  predicate Overlaps(a: Rect, b: Rect, pad: real) {
    a.l < b.r + pad && b.l < a.r + pad && a.t < b.b + pad && b.t < a.b + pad
  }

  function Abs(x: real): real { if x < 0.0 then -x else x }

  predicate Apart(p: Item, it: Item) { Abs(p.cx - it.cx) >= p.r + it.r + 1.0 }

  function DotRect(it: Item, dy: real, height: real): Rect {
    var cy := height / 2.0 + dy;
    Rect(it.cx - it.r, it.cx + it.r, cy - it.r, cy + it.r)
  }

  function SlotTop(d: Rect, h: real, k: int): real {
    if k == 0 then d.t - 1.0 - h
    else if k == 1 then d.b + 1.0
    else if k == 2 then d.t - 2.0 - 2.0 * h
    else d.b + 2.0 + h
  }

  function LabelRect(it: Item, d: Rect, k: int): Rect {
    var top := SlotTop(d, it.h, k);
    Rect(it.cx - it.w / 2.0, it.cx + it.w / 2.0, top, top + it.h)
  }

  // ── lanes ──

  /** Lane `k` is free for item `i`: every earlier item in it is far enough away. */
  ghost predicate LaneFree(items: seq<Item>, lane: seq<int>, i: int, k: int)
    requires |lane| <= |items| && 0 <= i < |items|
  {
    forall j :: 0 <= j < i && j < |lane| && lane[j] == k ==> Apart(items[j], items[i])
  }

  /** The first free lane, or the axis when none is. */
  ghost predicate LaneChosen(items: seq<Item>, lane: seq<int>, i: int)
    requires |lane| <= |items| && 0 <= i < |lane|
  {
    && 0 <= lane[i] < LANES
    && (forall k :: 0 <= k < lane[i] ==> !LaneFree(items, lane, i, k))
    && (!LaneFree(items, lane, i, lane[i]) ==>
          lane[i] == 0 && forall k :: 0 <= k < LANES ==> !LaneFree(items, lane, i, k))
  }

  lemma {:induction false} LaneFreePrefix(items: seq<Item>, lane: seq<int>, more: seq<int>, i: int, k: int)
    requires |lane| + |more| <= |items| && 0 <= i <= |lane| && i < |items|
    ensures LaneFree(items, lane + more, i, k) <==> LaneFree(items, lane, i, k)
  {
    assert forall j :: 0 <= j < i ==> (lane + more)[j] == lane[j];
  }

  /** The members of lane `k` among the first items. */
  function Members(items: seq<Item>, lane: seq<int>, k: int): seq<Item>
    requires |lane| <= |items|
  {
    if lane == [] then []
    else
      var n := |lane| - 1;
      var rest := Members(items, lane[..n], k);
      if lane[n] == k then rest + [items[n]] else rest
  }

  lemma {:induction false} MemberOf(items: seq<Item>, lane: seq<int>, k: int, x: Item)
    requires |lane| <= |items|
    ensures x in Members(items, lane, k) <==> exists j :: 0 <= j < |lane| && lane[j] == k && items[j] == x
  {
    if lane != [] {
      var n := |lane| - 1;
      MemberOf(items, lane[..n], k, x);
      if j :| 0 <= j < n && lane[..n][j] == k && items[j] == x {
        assert lane[j] == k;
      }
      if j :| 0 <= j < |lane| && lane[j] == k && items[j] == x && j < n {
        assert lane[..n][j] == k;
      }
    }
  }

  /** The pushed members of a lane decide whether it is free. */
  lemma {:induction false} MembersFree(items: seq<Item>, lane: seq<int>, k: int, it: Item)
    requires |lane| <= |items|
    ensures (forall x :: x in Members(items, lane, k) ==> Apart(x, it))
            <==> forall j :: 0 <= j < |lane| && lane[j] == k ==> Apart(items[j], it)
  {
    forall x ensures x in Members(items, lane, k) <==> exists j :: 0 <= j < |lane| && lane[j] == k && items[j] == x {
      MemberOf(items, lane, k, x);
    }
    forall j | 0 <= j < |lane| && lane[j] == k ensures items[j] in Members(items, lane, k) {
    }
  }

  /** Is every member of a lane apart from the item? */
  method AllApart(members: seq<Item>, it: Item) returns (free: bool)
    ensures free <==> forall x :: x in members ==> Apart(x, it)
  {
    for m := 0 to |members|
      invariant forall j :: 0 <= j < m ==> Apart(members[j], it)
    {
      if !Apart(members[m], it) {
        return false;
      }
    }
    free := true;
  }

  /** Earlier choices stand when a lane is chosen for the next item. */
  lemma {:induction false} ChosenSnoc(items: seq<Item>, lane: seq<int>, li: int)
    requires |lane| < |items| && 0 <= li < LANES
    requires forall j :: 0 <= j < |lane| ==> LaneChosen(items, lane, j)
    requires forall k :: 0 <= k < li ==> !LaneFree(items, lane, |lane|, k)
    requires !LaneFree(items, lane, |lane|, li) ==>
      li == 0 && forall k :: 0 <= k < LANES ==> !LaneFree(items, lane, |lane|, k)
    ensures forall j :: 0 <= j <= |lane| ==> LaneChosen(items, lane + [li], j)
  {
    forall j, k | 0 <= j <= |lane| ensures LaneFree(items, lane + [li], j, k) <==> LaneFree(items, lane, j, k) {
      LaneFreePrefix(items, lane, [li], j, k);
    }
    forall j | 0 <= j <= |lane| ensures LaneChosen(items, lane + [li], j) {
      if j < |lane| {
        assert LaneChosen(items, lane, j);
      }
    }
  }

  method ChooseLanes(items: seq<Item>) returns (lane: seq<int>)
    ensures |lane| == |items| && forall i :: 0 <= i < |items| ==> LaneChosen(items, lane, i)
  {
    lane := [];
    var lanes: seq<seq<Item>> := [[], [], []];
    for i := 0 to |items|
      invariant |lane| == i && |lanes| == LANES
      invariant forall k :: 0 <= k < LANES ==> lanes[k] == Members(items, lane, k)
      invariant forall j :: 0 <= j < i ==> LaneChosen(items, lane, j)
    {
      var li := 0;
      var free := false;
      while li < LANES && !free
        invariant 0 <= li <= LANES && (free ==> li < LANES && LaneFree(items, lane, i, li))
        invariant forall k :: 0 <= k < li ==> !LaneFree(items, lane, i, k)
        decreases LANES - li, !free
      {
        free := AllApart(lanes[li], items[i]);
        MembersFree(items, lane, li, items[i]);
        if !free {
          li := li + 1;
        }
      }
      if !free {
        li := 0;
      }
      lanes := lanes[li := lanes[li] + [items[i]]];
      ChosenSnoc(items, lane, li);
      assert (lane + [li])[..i] == lane;
      lane := lane + [li];
    }
  }

  // ── labels ──

  /** Why slot `k` is not available to item `i`, given the slots of the items before it. */
  ghost predicate Blocked(items: seq<Item>, dots: seq<Rect>, slot: seq<int>, height: real, i: int, k: int)
    requires |items| == |dots| && |slot| <= |items| && 0 <= i < |items|
  {
    var rect := LabelRect(items[i], dots[i], k);
    || rect.t < -MARGIN || rect.b > height + MARGIN
    || (exists j :: 0 <= j < i && j < |slot| && slot[j] >= 0
                    && Overlaps(LabelRect(items[j], dots[j], slot[j]), rect, 1.0))
    || (exists j :: 0 <= j < |items| && j != i && Overlaps(dots[j], rect, 0.0))
  }

  /** The first slot that is not blocked, or -1 when all four are. */
  ghost predicate SlotChosen(items: seq<Item>, dots: seq<Rect>, slot: seq<int>, height: real, i: int)
    requires |items| == |dots| && |slot| <= |items| && 0 <= i < |slot|
  {
    && -1 <= slot[i] < SLOTS
    && (slot[i] >= 0 ==> !Blocked(items, dots, slot, height, i, slot[i]))
    && (forall k :: 0 <= k < (if slot[i] < 0 then SLOTS else slot[i]) ==> Blocked(items, dots, slot, height, i, k))
  }

  lemma {:induction false} BlockedPrefix(
    items: seq<Item>, dots: seq<Rect>, slot: seq<int>, next: int, height: real, i: int, k: int)
    requires |items| == |dots| && |slot| < |items| && 0 <= i <= |slot|
    ensures Blocked(items, dots, slot + [next], height, i, k) <==> Blocked(items, dots, slot, height, i, k)
  {
    assert forall j :: 0 <= j < i ==> (slot + [next])[j] == slot[j];
  }

  method AnyOverlap(rects: seq<Rect>, rect: Rect, pad: real, skip: int) returns (hit: bool)
    ensures hit <==> exists j :: 0 <= j < |rects| && j != skip && Overlaps(rects[j], rect, pad)
  {
    for j := 0 to |rects|
      invariant forall m :: 0 <= m < j && m != skip ==> !Overlaps(rects[m], rect, pad)
    {
      if j != skip && Overlaps(rects[j], rect, pad) {
        return true;
      }
    }
    hit := false;
  }

  /** `x` is the rectangle of item `j`'s label, which is shown. */
  ghost predicate ShownAs(x: Rect, items: seq<Item>, dots: seq<Rect>, slot: seq<int>, j: int)
    requires |items| == |dots| && |slot| <= |items|
  {
    0 <= j < |slot| && slot[j] >= 0 && x == LabelRect(items[j], dots[j], slot[j])
  }

  /** The label rectangles shown so far are those of the items with a slot. */
  ghost predicate LabelsAre(labels: seq<Rect>, items: seq<Item>, dots: seq<Rect>, slot: seq<int>)
    requires |items| == |dots| && |slot| <= |items|
  {
    forall x :: x in labels <==> exists j :: ShownAs(x, items, dots, slot, j)
  }

  lemma {:induction false} LabelsGrow(labels: seq<Rect>, items: seq<Item>, dots: seq<Rect>, slot: seq<int>, k: int)
    requires |items| == |dots| && |slot| < |items| && LabelsAre(labels, items, dots, slot)
    ensures LabelsAre(if k >= 0 then labels + [LabelRect(items[|slot|], dots[|slot|], k)] else labels,
                      items, dots, slot + [k])
  {
    var i, longer := |slot|, slot + [k];
    var grown := if k >= 0 then labels + [LabelRect(items[i], dots[i], k)] else labels;
    forall x ensures x in grown <==> exists j :: ShownAs(x, items, dots, longer, j) {
      forall j | j != i ensures ShownAs(x, items, dots, longer, j) <==> ShownAs(x, items, dots, slot, j) {
      }
      assert ShownAs(x, items, dots, longer, i) <==> k >= 0 && x == LabelRect(items[i], dots[i], k);
      assert !ShownAs(x, items, dots, slot, i);
    }
  }

  /** What the overlap test against the shown labels finds. */
  lemma {:induction false} LabelsBlock(labels: seq<Rect>, items: seq<Item>, dots: seq<Rect>, slot: seq<int>, rect: Rect)
    requires |items| == |dots| && |slot| <= |items| && LabelsAre(labels, items, dots, slot)
    ensures (exists m :: 0 <= m < |labels| && Overlaps(labels[m], rect, 1.0))
        <==> exists j :: 0 <= j < |slot| && slot[j] >= 0 && Overlaps(LabelRect(items[j], dots[j], slot[j]), rect, 1.0)
  {
    if m :| 0 <= m < |labels| && Overlaps(labels[m], rect, 1.0) {
      assert labels[m] in labels;
      var j :| ShownAs(labels[m], items, dots, slot, j);
      assert slot[j] >= 0;
    }
    if j :| 0 <= j < |slot| && slot[j] >= 0 && Overlaps(LabelRect(items[j], dots[j], slot[j]), rect, 1.0) {
      var x := LabelRect(items[j], dots[j], slot[j]);
      assert ShownAs(x, items, dots, slot, j) && x in labels;
      var m :| 0 <= m < |labels| && labels[m] == x;
      assert Overlaps(labels[m], rect, 1.0);
    }
  }

  /** The slot of item `i`. */
  method ChooseSlot(
    items: seq<Item>, dots: seq<Rect>, ghost slot: seq<int>, labels: seq<Rect>, height: real, i: int) returns (k: int)
    requires |items| == |dots| && |slot| == i < |items| && LabelsAre(labels, items, dots, slot)
    ensures -1 <= k < SLOTS && (k >= 0 ==> !Blocked(items, dots, slot, height, i, k))
    ensures forall m :: 0 <= m < (if k < 0 then SLOTS else k) ==> Blocked(items, dots, slot, height, i, m)
  {
    for m := 0 to SLOTS
      invariant forall n :: 0 <= n < m ==> Blocked(items, dots, slot, height, i, n)
    {
      var rect := LabelRect(items[i], dots[i], m);
      if rect.t < -MARGIN || rect.b > height + MARGIN {
        continue;
      }
      var onLabel := AnyOverlap(labels, rect, 1.0, -1);
      LabelsBlock(labels, items, dots, slot, rect);
      if onLabel {
        continue;
      }
      var onDot := AnyOverlap(dots, rect, 0.0, i);
      if onDot {
        continue;
      }
      return m;
    }
    k := -1;
  }

  lemma {:induction false} SlotSnoc(items: seq<Item>, dots: seq<Rect>, slot: seq<int>, k: int, height: real)
    requires |items| == |dots| && |slot| < |items|
    requires forall j :: 0 <= j < |slot| ==> SlotChosen(items, dots, slot, height, j)
    requires -1 <= k < SLOTS && (k >= 0 ==> !Blocked(items, dots, slot, height, |slot|, k))
    requires forall m :: 0 <= m < (if k < 0 then SLOTS else k) ==> Blocked(items, dots, slot, height, |slot|, m)
    ensures forall j :: 0 <= j <= |slot| ==> SlotChosen(items, dots, slot + [k], height, j)
  {
    forall j, m | 0 <= j <= |slot|
      ensures Blocked(items, dots, slot + [k], height, j, m) <==> Blocked(items, dots, slot, height, j, m)
    {
      BlockedPrefix(items, dots, slot, k, height, j, m);
    }
    forall j | 0 <= j <= |slot| ensures SlotChosen(items, dots, slot + [k], height, j) {
      if j < |slot| {
        assert SlotChosen(items, dots, slot, height, j);
      }
    }
  }

  method ChooseSlots(items: seq<Item>, dots: seq<Rect>, height: real) returns (slot: seq<int>)
    requires |items| == |dots|
    ensures |slot| == |items| && forall i :: 0 <= i < |items| ==> SlotChosen(items, dots, slot, height, i)
  {
    slot := [];
    var labels: seq<Rect> := [];
    for i := 0 to |items|
      invariant |slot| == i && LabelsAre(labels, items, dots, slot)
      invariant forall j :: 0 <= j < i ==> SlotChosen(items, dots, slot, height, j)
    {
      var k := ChooseSlot(items, dots, slot, labels, height, i);
      LabelsGrow(labels, items, dots, slot, k);
      SlotSnoc(items, dots, slot, k, height);
      if k >= 0 {
        labels := labels + [LabelRect(items[i], dots[i], k)];
      }
      slot := slot + [k];
    }
  }

  // ── the whole placement ──

  function Dots(items: seq<Item>, lane: seq<int>, height: real): (r: seq<Rect>)
    requires |lane| == |items|
    ensures |r| == |items|
    ensures forall i :: 0 <= i < |items| ==> r[i] == DotRect(items[i], LaneDy(lane[i]), height)
  {
    seq(|items|, i requires 0 <= i < |items| => DotRect(items[i], LaneDy(lane[i]), height))
  }

  /** A placement: lanes and slots chosen one after the other, as the row is filled from the left. */
  ghost predicate IsPlacement(items: seq<Item>, lane: seq<int>, slot: seq<int>, height: real) {
    && |lane| == |items| == |slot|
    && (forall i :: 0 <= i < |items| ==> LaneChosen(items, lane, i))
    && (forall i :: 0 <= i < |items| ==> SlotChosen(items, Dots(items, lane, height), slot, height, i))
  }

  function Place(it: Item, lane: int, slot: int, height: real): Placed {
    var d := DotRect(it, LaneDy(lane), height);
    Placed(LaneDy(lane), slot, if slot < 0 then 0.0 else SlotTop(d, it.h, slot) - d.t)
  }

  // ── what a placement promises ──

  /** No two shown labels come within a pixel of each other. */
  lemma {:induction false} LabelsDoNotCollide(
    items: seq<Item>, lane: seq<int>, slot: seq<int>, height: real, i: int, j: int)
    requires IsPlacement(items, lane, slot, height)
    requires 0 <= i < |items| && 0 <= j < |items| && i != j && slot[i] >= 0 && slot[j] >= 0
    ensures var dots := Dots(items, lane, height);
      !Overlaps(LabelRect(items[i], dots[i], slot[i]), LabelRect(items[j], dots[j], slot[j]), 1.0)
  {
    var dots := Dots(items, lane, height);
    assert SlotChosen(items, dots, slot, height, i) && SlotChosen(items, dots, slot, height, j);
    assert !Blocked(items, dots, slot, height, i, slot[i]) && !Blocked(items, dots, slot, height, j, slot[j]);
  }

  /** A shown label covers no other item's dot and stays within 8 px of the strip. */
  lemma {:induction false} LabelsKeepClear(items: seq<Item>, lane: seq<int>, slot: seq<int>, height: real, i: int)
    requires IsPlacement(items, lane, slot, height) && 0 <= i < |items| && slot[i] >= 0
    ensures var dots := Dots(items, lane, height);
      var rect := LabelRect(items[i], dots[i], slot[i]);
      && -MARGIN <= rect.t && rect.b <= height + MARGIN
      && forall j :: 0 <= j < |items| && j != i ==> !Overlaps(dots[j], rect, 0.0)
  {
    var dots := Dots(items, lane, height);
    assert SlotChosen(items, dots, slot, height, i);
    assert !Blocked(items, dots, slot, height, i, slot[i]);
  }

  /** A label is hidden only if all four slots were blocked, and sits in the first that was not. */
  lemma {:induction false} HiddenOnlyIfBlocked(
    items: seq<Item>, lane: seq<int>, slot: seq<int>, height: real, i: int, k: int)
    requires IsPlacement(items, lane, slot, height) && 0 <= i < |items|
    requires 0 <= k < (if slot[i] < 0 then SLOTS else slot[i])
    ensures Blocked(items, Dots(items, lane, height), slot, height, i, k)
  {
    assert SlotChosen(items, Dots(items, lane, height), slot, height, i);
  }

  /** A dot steps onto an occupied place of the axis only when every lane was occupied there. */
  ghost predicate Fallback(items: seq<Item>, lane: seq<int>, i: int)
    requires |lane| == |items| && 0 <= i < |items|
  {
    forall k :: 0 <= k < LANES ==> !LaneFree(items, lane, i, k)
  }

  /** Dots in one lane keep their distance, except from one that fell back onto the axis. */
  lemma {:induction false} DotsKeepApart(items: seq<Item>, lane: seq<int>, slot: seq<int>, height: real, i: int, j: int)
    requires IsPlacement(items, lane, slot, height) && 0 <= j < i < |items| && lane[i] == lane[j]
    requires !Fallback(items, lane, i)
    ensures Apart(items[j], items[i])
  {
    assert LaneChosen(items, lane, i);
  }

  lemma {:induction false} SlotsUnique(
    items: seq<Item>, dots: seq<Rect>, a: seq<int>, b: seq<int>, height: real, n: nat)
    requires |a| == |b| == |items| == |dots| && n <= |items|
    requires forall i :: 0 <= i < |items| ==>
      SlotChosen(items, dots, a, height, i) && SlotChosen(items, dots, b, height, i)
    ensures a[..n] == b[..n]
  {
    if n > 0 {
      SlotsUnique(items, dots, a, b, height, n - 1);
      var m := n - 1;
      assert forall j :: 0 <= j < m ==> a[j] == a[..m][j] == b[..m][j] == b[j];
      assert forall k :: Blocked(items, dots, a, height, m, k) <==> Blocked(items, dots, b, height, m, k);
      assert SlotChosen(items, dots, a, height, n - 1) && SlotChosen(items, dots, b, height, n - 1);
      assert a[n - 1] == b[n - 1];
    }
  }

  lemma {:induction false} LanesUnique(items: seq<Item>, a: seq<int>, b: seq<int>, n: nat)
    requires |a| == |b| == |items| && n <= |items|
    requires forall i :: 0 <= i < |items| ==> LaneChosen(items, a, i) && LaneChosen(items, b, i)
    ensures a[..n] == b[..n]
  {
    if n > 0 {
      LanesUnique(items, a, b, n - 1);
      var m := n - 1;
      assert forall j :: 0 <= j < m ==> a[j] == a[..m][j] == b[..m][j] == b[j];
      assert forall k :: LaneFree(items, a, m, k) <==> LaneFree(items, b, m, k);
      assert LaneChosen(items, a, n - 1) && LaneChosen(items, b, n - 1);
      assert a[n - 1] == b[n - 1];
    }
  }

  /** The rules leave no choice: a row has one placement. */
  lemma {:induction false} PlacementUnique(
    items: seq<Item>, lane: seq<int>, slot: seq<int>, lane': seq<int>, slot': seq<int>, height: real)
    requires IsPlacement(items, lane, slot, height) && IsPlacement(items, lane', slot', height)
    ensures lane == lane' && slot == slot'
  {
    LanesUnique(items, lane, lane', |items|);
    assert lane[..|items|] == lane && lane'[..|items|] == lane';
    SlotsUnique(items, Dots(items, lane, height), slot, slot', height, |items|);
    assert slot[..|items|] == slot && slot'[..|items|] == slot';
  }

  // ── the promises, read off what is returned ──

  function DotOf(items: seq<Item>, out: seq<Placed>, height: real, i: int): Rect
    requires |out| == |items| && 0 <= i < |items|
  {
    var it, cy := items[i], height / 2.0 + out[i].dy;
    Rect(it.cx - it.r, it.cx + it.r, cy - it.r, cy + it.r)
  }

  /** Where a label is drawn: its top is relative to the top of its dot. */
  function LabelOf(items: seq<Item>, out: seq<Placed>, height: real, i: int): Rect
    requires |out| == |items| && 0 <= i < |items|
  {
    var top := DotOf(items, out, height, i).t + out[i].top;
    Rect(items[i].cx - items[i].w / 2.0, items[i].cx + items[i].w / 2.0, top, top + items[i].h)
  }

  /** At least `pad` lies between the rectangles, one way or the other. */
  predicate Clear(a: Rect, b: Rect, pad: real) {
    a.r + pad <= b.l || b.r + pad <= a.l || a.b + pad <= b.t || b.b + pad <= a.t
  }

  lemma {:induction false} ClearIsNoOverlap(a: Rect, b: Rect, pad: real)
    ensures Clear(a, b, pad) <==> !Overlaps(a, b, pad)
  {
  }

  /**
   `rect` is item `it`'s label in slot `k`, centred on its dot: a pixel above it, a pixel below it, or two
   pixels and its own height further above or below.
   */
  predicate InSlot(rect: Rect, it: Item, dot: Rect, k: int) {
    && rect.l == it.cx - it.w / 2.0 && rect.r == it.cx + it.w / 2.0 && rect.b - rect.t == it.h
    && match k
       case 0 => rect.b == dot.t - 1.0
       case 1 => rect.t == dot.b + 1.0
       case 2 => rect.b == dot.t - 2.0 - it.h
       case _ => rect.t == dot.b + 2.0 + it.h
  }

  lemma {:induction false} InSlotIs(rect: Rect, it: Item, dot: Rect, k: int)
    requires 0 <= k < SLOTS
    ensures InSlot(rect, it, dot, k) <==> rect == LabelRect(it, dot, k)
  {
  }

  ghost predicate LabelsApart(items: seq<Item>, out: seq<Placed>, height: real)
    requires |out| == |items|
  {
    forall i, j :: 0 <= i < |items| && 0 <= j < |items| && i != j && out[i].slot >= 0 && out[j].slot >= 0 ==>
      Clear(LabelOf(items, out, height, i), LabelOf(items, out, height, j), 1.0)
  }

  /** Shown labels cover no other dot and stay within 8 px of the strip. */
  ghost predicate LabelsClear(items: seq<Item>, out: seq<Placed>, height: real)
    requires |out| == |items|
  {
    && (forall i :: 0 <= i < |items| && out[i].slot >= 0 ==>
          -8.0 <= LabelOf(items, out, height, i).t && LabelOf(items, out, height, i).b <= height + 8.0)
    && (forall i, j :: 0 <= i < |items| && 0 <= j < |items| && i != j && out[i].slot >= 0 ==>
          Clear(DotOf(items, out, height, j), LabelOf(items, out, height, i), 0.0))
  }

  /** The label's place `rect` leaves the strip by over 8 px, or meets an earlier shown label or another dot. */
  ghost predicate Bad(items: seq<Item>, out: seq<Placed>, height: real, i: int, rect: Rect)
    requires |out| == |items| && 0 <= i < |items|
  {
    || rect.t < -8.0 || rect.b > height + 8.0
    || (exists j :: 0 <= j < i && out[j].slot >= 0 && !Clear(LabelOf(items, out, height, j), rect, 1.0))
    || (exists j :: 0 <= j < |items| && j != i && !Clear(DotOf(items, out, height, j), rect, 0.0))
  }

  /** There is no room for the label in slot `k`. */
  ghost predicate NoRoom(items: seq<Item>, out: seq<Placed>, height: real, i: int, k: int)
    requires |out| == |items| && 0 <= i < |items|
  {
    forall rect :: InSlot(rect, items[i], DotOf(items, out, height, i), k) ==> Bad(items, out, height, i, rect)
  }

  /** A label is in the first slot with room, and hidden only if none of the four has any. */
  ghost predicate FirstRoomTaken(items: seq<Item>, out: seq<Placed>, height: real)
    requires |out| == |items|
  {
    forall i :: 0 <= i < |items| ==>
      && -1 <= out[i].slot < 4 && (out[i].slot < 0 ==> out[i].top == 0.0)
      && (out[i].slot >= 0 ==>
            InSlot(LabelOf(items, out, height, i), items[i], DotOf(items, out, height, i), out[i].slot))
      && forall k :: 0 <= k < (if out[i].slot < 0 then 4 else out[i].slot) ==> NoRoom(items, out, height, i, k)
  }

  /** Some earlier dot at this offset is within a pixel of this one. */
  ghost predicate Taken(items: seq<Item>, out: seq<Placed>, i: int, dy: real)
    requires |out| == |items| && 0 <= i < |items|
  {
    exists j :: 0 <= j < i && out[j].dy == dy
                && items[i].cx - items[j].cx < items[i].r + items[j].r + 1.0
                && items[j].cx - items[i].cx < items[i].r + items[j].r + 1.0
  }

  ghost predicate LaneTaken(items: seq<Item>, out: seq<Placed>, i: int)
    requires |out| == |items| && 0 <= i < |items|
  {
    out[i].dy == if !Taken(items, out, i, 0.0) then 0.0
                 else if !Taken(items, out, i, -11.0) then -11.0
                 else if !Taken(items, out, i, 11.0) then 11.0
                 else 0.0
  }

  /** A dot sits on the axis, above or below it, at the first offset not taken; on the axis if all are. */
  ghost predicate FirstLaneTaken(items: seq<Item>, out: seq<Placed>)
    requires |out| == |items|
  {
    forall i :: 0 <= i < |items| ==> LaneTaken(items, out, i)
  }

  ghost predicate PlacedBy(
    items: seq<Item>, lane: seq<int>, slot: seq<int>, height: real, out: seq<Placed>)
  {
    && IsPlacement(items, lane, slot, height) && |out| == |items|
    && forall i :: 0 <= i < |items| ==> out[i] == Place(items[i], lane[i], slot[i], height)
  }

  lemma {:induction false} DrawnAsPlaced(
    items: seq<Item>, lane: seq<int>, slot: seq<int>, height: real, out: seq<Placed>, i: int)
    requires PlacedBy(items, lane, slot, height, out) && 0 <= i < |items|
    ensures DotOf(items, out, height, i) == Dots(items, lane, height)[i] && out[i].slot == slot[i]
    ensures slot[i] >= 0 ==>
      LabelOf(items, out, height, i) == LabelRect(items[i], Dots(items, lane, height)[i], slot[i])
  {
  }

  lemma {:induction false} BlockedIsNoRoom(
    items: seq<Item>, lane: seq<int>, slot: seq<int>, height: real, out: seq<Placed>, i: int, k: int)
    requires PlacedBy(items, lane, slot, height, out) && 0 <= i < |items| && 0 <= k < SLOTS
    requires Blocked(items, Dots(items, lane, height), slot, height, i, k)
    ensures NoRoom(items, out, height, i, k)
  {
    hide InSlot;
    hide LabelOf;
    hide DotOf;
    var dots := Dots(items, lane, height);
    var rect := LabelRect(items[i], dots[i], k);
    DrawnAsPlaced(items, lane, slot, height, out, i);
    if j :| 0 <= j < i && slot[j] >= 0 && Overlaps(LabelRect(items[j], dots[j], slot[j]), rect, 1.0) {
      DrawnAsPlaced(items, lane, slot, height, out, j);
      assert !Clear(LabelOf(items, out, height, j), rect, 1.0);
    }
    if j :| 0 <= j < |items| && j != i && Overlaps(dots[j], rect, 0.0) {
      DrawnAsPlaced(items, lane, slot, height, out, j);
      assert !Clear(DotOf(items, out, height, j), rect, 0.0);
    }
    forall other | InSlot(other, items[i], DotOf(items, out, height, i), k) ensures Bad(items, out, height, i, other) {
      InSlotIs(other, items[i], dots[i], k);
    }
  }

  lemma {:induction false} TakenIsNotFree(
    items: seq<Item>, lane: seq<int>, slot: seq<int>, height: real, out: seq<Placed>, i: int, k: int)
    requires PlacedBy(items, lane, slot, height, out) && 0 <= i < |items| && 0 <= k < LANES
    ensures Taken(items, out, i, LaneDy(k)) <==> !LaneFree(items, lane, i, k)
  {
    if !LaneFree(items, lane, i, k) {
      var j :| 0 <= j < i && lane[j] == k && !Apart(items[j], items[i]);
      assert out[j].dy == LaneDy(k);
    }
    if Taken(items, out, i, LaneDy(k)) {
      var j :| 0 <= j < i && out[j].dy == LaneDy(k)
               && items[i].cx - items[j].cx < items[i].r + items[j].r + 1.0
               && items[j].cx - items[i].cx < items[i].r + items[j].r + 1.0;
      assert LaneChosen(items, lane, j) && out[j].dy == LaneDy(lane[j]);
      assert lane[j] == k;
    }
  }

  lemma {:induction false} LaneIsTaken(
    items: seq<Item>, lane: seq<int>, slot: seq<int>, height: real, out: seq<Placed>, i: int)
    requires PlacedBy(items, lane, slot, height, out) && 0 <= i < |items|
    ensures LaneTaken(items, out, i)
  {
    assert LaneChosen(items, lane, i) && out[i].dy == LaneDy(lane[i]);
    TakenIsNotFree(items, lane, slot, height, out, i, 0);
    TakenIsNotFree(items, lane, slot, height, out, i, 1);
    TakenIsNotFree(items, lane, slot, height, out, i, 2);
    hide Taken;
    hide LaneFree;
  }

  lemma {:induction false} PlacementKeepsLabels(
    items: seq<Item>, lane: seq<int>, slot: seq<int>, height: real, out: seq<Placed>)
    requires PlacedBy(items, lane, slot, height, out)
    ensures LabelsApart(items, out, height) && LabelsClear(items, out, height)
  {
    forall i | 0 <= i < |items| ensures
      && DotOf(items, out, height, i) == Dots(items, lane, height)[i] && out[i].slot == slot[i]
      && (slot[i] >= 0 ==>
            LabelOf(items, out, height, i) == LabelRect(items[i], Dots(items, lane, height)[i], slot[i]))
    {
      DrawnAsPlaced(items, lane, slot, height, out, i);
    }
    hide DotOf;
    hide LabelOf;
    hide Overlaps;
    hide LabelRect;
    hide Blocked;
    hide Clear;
    forall i, j | 0 <= i < |items| && 0 <= j < |items| && i != j && out[i].slot >= 0 && out[j].slot >= 0
      ensures Clear(LabelOf(items, out, height, i), LabelOf(items, out, height, j), 1.0)
    {
      LabelsDoNotCollide(items, lane, slot, height, i, j);
      ClearIsNoOverlap(LabelOf(items, out, height, i), LabelOf(items, out, height, j), 1.0);
    }
    forall i | 0 <= i < |items| && out[i].slot >= 0
      ensures -8.0 <= LabelOf(items, out, height, i).t && LabelOf(items, out, height, i).b <= height + 8.0
      ensures forall j :: 0 <= j < |items| && j != i ==>
        Clear(DotOf(items, out, height, j), LabelOf(items, out, height, i), 0.0)
    {
      LabelsKeepClear(items, lane, slot, height, i);
      forall j | 0 <= j < |items| && j != i
        ensures Clear(DotOf(items, out, height, j), LabelOf(items, out, height, i), 0.0)
      {
        ClearIsNoOverlap(DotOf(items, out, height, j), LabelOf(items, out, height, i), 0.0);
      }
    }
  }

  lemma {:induction false} PlacementTakesFirst(
    items: seq<Item>, lane: seq<int>, slot: seq<int>, height: real, out: seq<Placed>)
    requires PlacedBy(items, lane, slot, height, out)
    ensures FirstRoomTaken(items, out, height) && FirstLaneTaken(items, out)
  {
    forall i, k | 0 <= i < |items| && 0 <= k < (if slot[i] < 0 then SLOTS else slot[i])
      ensures NoRoom(items, out, height, i, k)
    {
      assert SlotChosen(items, Dots(items, lane, height), slot, height, i);
      HiddenOnlyIfBlocked(items, lane, slot, height, i, k);
      BlockedIsNoRoom(items, lane, slot, height, out, i, k);
    }
    forall i | 0 <= i < |items|
      ensures -1 <= out[i].slot < 4 && (out[i].slot < 0 ==> out[i].top == 0.0)
      ensures out[i].slot >= 0 ==>
        InSlot(LabelOf(items, out, height, i), items[i], DotOf(items, out, height, i), out[i].slot)
    {
      DrawnAsPlaced(items, lane, slot, height, out, i);
      assert SlotChosen(items, Dots(items, lane, height), slot, height, i);
      if slot[i] >= 0 {
        InSlotIs(LabelOf(items, out, height, i), items[i], DotOf(items, out, height, i), slot[i]);
      }
    }
    forall i | 0 <= i < |items| ensures LaneTaken(items, out, i) {
      LaneIsTaken(items, lane, slot, height, out, i);
    }
  }

  method PlaceStrip(items: seq<Item>, height: real)
    returns (out: seq<Placed>, ghost lane: seq<int>, ghost slot: seq<int>)
    ensures PlacedBy(items, lane, slot, height, out)
    ensures LabelsApart(items, out, height) && LabelsClear(items, out, height)
    ensures FirstRoomTaken(items, out, height) && FirstLaneTaken(items, out)
  {
    var lanes := ChooseLanes(items);
    var dots := Dots(items, lanes, height);
    var slots := ChooseSlots(items, dots, height);
    lane, slot := lanes, slots;
    out := seq(|items|, i requires 0 <= i < |items| => Place(items[i], lanes[i], slots[i], height));
    PlacementKeepsLabels(items, lane, slot, height, out);
    PlacementTakesFirst(items, lane, slot, height, out);
  }
}
