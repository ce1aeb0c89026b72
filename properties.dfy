/**
 * Properties of the compositor relating several renders: which scroll
 * positions a render can rewrite (never the root's), that rendering again
 * from the positions a render leaves behind draws the same and changes
 * nothing, and the overall shape of a rendered image.
 */
module CompositingProperties {
  import opened Wrappers
  import opened Raster
  import opened Widgets
  import opened TextLayout
  import opened Compositing

  /**
   * Container v is a container child of w, or reachable from one, within
   * `depth` container levels below w.
   */
  predicate Reaches(ws: seq<Widget>, w: Widget, v: Widget, depth: nat)
    decreases depth, 1
  {
    w.group == TYPE_CONTAINER && w.children.Some? &&
    exists i | 0 <= i < |w.children.value| :: SlotReaches(ws, w, i, v, depth)
  }

  /** Container v is the child in slot i of w, or reachable from it. */
  predicate SlotReaches(ws: seq<Widget>, w: Widget, i: nat, v: Widget, depth: nat)
    decreases depth, 0
  {
    depth > 0 && w.children.Some? && i < |w.children.value| &&
    0 <= w.children.value[i] < |ws| &&
    var c := ws[w.children.value[i]];
    c.group == TYPE_CONTAINER && (c == v || Reaches(ws, c, v, depth - 1))
  }

  /** A table well formed within some depth is well formed within any larger one. */
  lemma {:induction false} WellFormedMonotone(ws: seq<Widget>, w: Widget, d: nat, e: nat)
    requires d <= e && WellFormed(ws, w, d)
    ensures WellFormed(ws, w, e)
    decreases d
  {
    if w.group == TYPE_CONTAINER && w.children.Some? {
      var ids := w.children.value;
      forall i | 0 <= i < |ids| && ws[ids[i]].group == TYPE_CONTAINER
        ensures WellFormed(ws, ws[ids[i]], e - 1)
      {
        WellFormedMonotone(ws, ws[ids[i]], d - 1, e - 1);
      }
    }
  }

  /** Whatever container w reaches is well formed within fewer levels than w. */
  lemma {:induction false} ReachesBelow(ws: seq<Widget>, w: Widget, v: Widget, d: nat, e: nat)
    requires WellFormed(ws, w, d) && Reaches(ws, w, v, e)
    ensures d > 0 && WellFormed(ws, v, d - 1)
    decreases e
  {
    var i :| 0 <= i < |w.children.value| && SlotReaches(ws, w, i, v, e);
    var c := ws[w.children.value[i]];
    if c != v {
      ReachesBelow(ws, c, v, d - 1, e - 1);
      WellFormedMonotone(ws, v, d - 2, d - 1);
    }
  }

  /** No container of a well-formed table reaches itself: the child graph has no cycle. */
  lemma {:induction false} NoSelfReach(ws: seq<Widget>, w: Widget, d: nat, e: nat)
    requires WellFormed(ws, w, d)
    ensures !Reaches(ws, w, w, e)
    decreases d
  {
    if Reaches(ws, w, w, e) {
      ReachesBelow(ws, w, w, d, e);
      NoSelfReach(ws, w, d - 1, e);
    }
  }

  /** Rendering container w leaves the scroll position of every widget it does not reach alone. */
  lemma {:induction false} ContainerUntouched(ws: seq<Widget>, w: Widget, x: int, y: int, scroll: int,
                                              s: State, rasterWidth: int, depth: nat, v: Widget)
    requires WellFormed(ws, w, depth) && Tracks(ws, s)
    requires v in s.scrolls && !Reaches(ws, w, v, depth)
    ensures Container(ws, w, x, y, scroll, s, rasterWidth, depth).scrolls[v] == s.scrolls[v]
    decreases depth, 1, 0
  {
    if w.group == TYPE_CONTAINER && w.children.Some? {
      ChildrenUntouched(ws, w, x, y, scroll, |w.children.value|, Enter(w, x, y, s), rasterWidth, depth, v);
    }
  }

  lemma {:induction false} ChildrenUntouched(ws: seq<Widget>, w: Widget, x: int, y: int, scroll: int, n: nat,
                                             s: State, rasterWidth: int, depth: nat, v: Widget)
    requires WellFormed(ws, w, depth) && Tracks(ws, s)
    requires w.group == TYPE_CONTAINER && w.children.Some? && n <= |w.children.value|
    requires v in s.scrolls && forall i | 0 <= i < n :: !SlotReaches(ws, w, i, v, depth)
    ensures Children(ws, w, x, y, scroll, n, s, rasterWidth, depth).scrolls[v] == s.scrolls[v]
    decreases depth, 0, n
  {
    if n > 0 {
      var mid := Children(ws, w, x, y, scroll, n - 1, s, rasterWidth, depth);
      ChildrenUntouched(ws, w, x, y, scroll, n - 1, s, rasterWidth, depth, v);
      ChildUntouched(ws, w, n - 1, x, y, scroll, mid, rasterWidth, depth, v);
    }
  }

  lemma {:induction false} ChildUntouched(ws: seq<Widget>, w: Widget, i: nat, x: int, y: int, scroll: int,
                                          s: State, rasterWidth: int, depth: nat, v: Widget)
    requires WellFormed(ws, w, depth) && Tracks(ws, s)
    requires w.group == TYPE_CONTAINER && w.children.Some? && i < |w.children.value|
    requires v in s.scrolls && !SlotReaches(ws, w, i, v, depth)
    ensures Child(ws, w, i, x, y, scroll, s, rasterWidth, depth).scrolls[v] == s.scrolls[v]
    decreases depth, 0, i
  {
    var child := ChildAt(ws, w, depth, i);
    if child.group == TYPE_CONTAINER {
      var sp := Clamp(s.scrolls[child], child.scrollLimit, child.height);
      var clamped := s.(scrolls := s.scrolls[child := sp]);
      ContainerUntouched(ws, child, SlotX(w, i, x, child), SlotY(w, i, y, scroll, child), sp,
                         clamped, rasterWidth, depth - 1, v);
    }
  }

  /** Rendering a container never rewrites that container's own scroll position. */
  lemma RootUntouched(ws: seq<Widget>, w: Widget, x: int, y: int, scroll: int,
                      s: State, rasterWidth: int, depth: nat)
    requires WellFormed(ws, w, depth) && Tracks(ws, s) && w in s.scrolls
    ensures Container(ws, w, x, y, scroll, s, rasterWidth, depth).scrolls[w] == s.scrolls[w]
  {
    NoSelfReach(ws, w, depth, depth);
    ContainerUntouched(ws, w, x, y, scroll, s, rasterWidth, depth, w);
  }

  /**
   * Rendering container w leaves every container it reaches with that
   * container's clamped scroll position, however many slots reach it.
   */
  lemma {:induction false} ContainerClamps(ws: seq<Widget>, w: Widget, x: int, y: int, scroll: int,
                                           s: State, rasterWidth: int, depth: nat, v: Widget)
    requires WellFormed(ws, w, depth) && Tracks(ws, s)
    requires v in s.scrolls && Reaches(ws, w, v, depth)
    ensures Container(ws, w, x, y, scroll, s, rasterWidth, depth).scrolls[v] ==
            Clamp(s.scrolls[v], v.scrollLimit, v.height)
    decreases depth, 1, 0
  {
    ChildrenClamps(ws, w, x, y, scroll, |w.children.value|, Enter(w, x, y, s), rasterWidth, depth, v);
  }

  lemma {:induction false} ChildrenClamps(ws: seq<Widget>, w: Widget, x: int, y: int, scroll: int, n: nat,
                                          s: State, rasterWidth: int, depth: nat, v: Widget)
    requires WellFormed(ws, w, depth) && Tracks(ws, s)
    requires w.group == TYPE_CONTAINER && w.children.Some? && n <= |w.children.value|
    requires v in s.scrolls && exists i | 0 <= i < n :: SlotReaches(ws, w, i, v, depth)
    ensures Children(ws, w, x, y, scroll, n, s, rasterWidth, depth).scrolls[v] ==
            Clamp(s.scrolls[v], v.scrollLimit, v.height)
    decreases depth, 0, n
  {
    var mid := Children(ws, w, x, y, scroll, n - 1, s, rasterWidth, depth);
    var last := Child(ws, w, n - 1, x, y, scroll, mid, rasterWidth, depth);
    ChildrenExtends(ws, w, x, y, scroll, n - 1, s, rasterWidth, depth);
    assert Settled(s.scrolls, mid.scrolls, v);
    ClampIdempotent(s.scrolls[v], v.scrollLimit, v.height);
    if SlotReaches(ws, w, n - 1, v, depth) {
      ChildClamps(ws, w, n - 1, x, y, scroll, mid, rasterWidth, depth, v);
    } else {
      ChildrenClamps(ws, w, x, y, scroll, n - 1, s, rasterWidth, depth, v);
      ChildExtends(ws, w, n - 1, x, y, scroll, mid, rasterWidth, depth);
      assert Settled(mid.scrolls, last.scrolls, v);
    }
  }

  lemma {:induction false} ChildClamps(ws: seq<Widget>, w: Widget, i: nat, x: int, y: int, scroll: int,
                                       s: State, rasterWidth: int, depth: nat, v: Widget)
    requires WellFormed(ws, w, depth) && Tracks(ws, s)
    requires w.group == TYPE_CONTAINER && w.children.Some? && i < |w.children.value|
    requires v in s.scrolls && SlotReaches(ws, w, i, v, depth)
    ensures Child(ws, w, i, x, y, scroll, s, rasterWidth, depth).scrolls[v] ==
            Clamp(s.scrolls[v], v.scrollLimit, v.height)
    decreases depth, 0, i
  {
    var child := ChildAt(ws, w, depth, i);
    var sp := Clamp(s.scrolls[child], child.scrollLimit, child.height);
    var clamped := s.(scrolls := s.scrolls[child := sp]);
    var cx, cy := SlotX(w, i, x, child), SlotY(w, i, y, scroll, child);
    if child == v {
      RootUntouched(ws, child, cx, cy, sp, clamped, rasterWidth, depth - 1);
    } else {
      ContainerClamps(ws, child, cx, cy, sp, clamped, rasterWidth, depth - 1, v);
    }
  }

  /** Widget v has the same scroll position in r and r2, or still its starting one in each. */
  predicate AgreesAt(s: State, s2: State, r: State, r2: State, v: Widget)
    requires v in s.scrolls && v in s2.scrolls && v in r.scrolls && v in r2.scrolls
  {
    r.scrolls[v] == r2.scrolls[v] || (r.scrolls[v] == s.scrolls[v] && r2.scrolls[v] == s2.scrolls[v])
  }

  /**
   * Two renders, from s and from s2, reached r and r2 with the same draws and
   * clip, and each widget either has the same scroll position in both or
   * still has the position it started with in each.
   */
  predicate Agree(s: State, s2: State, r: State, r2: State) {
    r.log == r2.log && r.clip == r2.clip &&
    r.scrolls.Keys == s.scrolls.Keys && r2.scrolls.Keys == s2.scrolls.Keys && r.scrolls.Keys == r2.scrolls.Keys &&
    forall v {:trigger AgreesAt(s, s2, r, r2, v)} :: v in r.scrolls ==> AgreesAt(s, s2, r, r2, v)
  }

  lemma AgreeChain(s: State, s2: State, m: State, m2: State, r: State, r2: State)
    requires Agree(s, s2, m, m2) && Agree(m, m2, r, r2)
    ensures Agree(s, s2, r, r2)
  {
    forall v | v in r.scrolls
      ensures AgreesAt(s, s2, r, r2, v)
    {
      assert AgreesAt(s, s2, m, m2, v) && AgreesAt(m, m2, r, r2, v);
    }
  }

  lemma AgreeClamped(s: State, s2: State, m: State, m2: State)
    requires ClampedFrom(s.scrolls, s2.scrolls) && Agree(s, s2, m, m2)
    ensures ClampedFrom(m.scrolls, m2.scrolls)
  {
    forall v | v in m.scrolls
      ensures Settled(m.scrolls, m2.scrolls, v)
    {
      assert AgreesAt(s, s2, m, m2, v) && Settled(s.scrolls, s2.scrolls, v);
    }
  }

  /**
   * Rendering container w from a state whose scroll positions are partly
   * clamped already draws exactly what rendering from the unclamped state
   * draws, because clamping twice is clamping once.
   */
  lemma {:induction false} ContainerRerender(ws: seq<Widget>, w: Widget, x: int, y: int, scroll: int,
                                             s: State, s2: State, rasterWidth: int, depth: nat)
    requires WellFormed(ws, w, depth) && Tracks(ws, s) && Tracks(ws, s2)
    requires s2.log == s.log && s2.clip == s.clip && ClampedFrom(s.scrolls, s2.scrolls)
    ensures Agree(s, s2, Container(ws, w, x, y, scroll, s, rasterWidth, depth),
                         Container(ws, w, x, y, scroll, s2, rasterWidth, depth))
    decreases depth, 1, 0
  {
    if w.group == TYPE_CONTAINER && w.children.Some? {
      var n := |w.children.value|;
      var e, e2 := Enter(w, x, y, s), Enter(w, x, y, s2);
      ChildrenRerender(ws, w, x, y, scroll, n, e, e2, rasterWidth, depth);
      var d := Children(ws, w, x, y, scroll, n, e, rasterWidth, depth);
      var d2 := Children(ws, w, x, y, scroll, n, e2, rasterWidth, depth);
      forall v | v in d.scrolls
        ensures AgreesAt(s, s2, Restore(d, s.clip), Restore(d2, s2.clip), v)
      {
        assert AgreesAt(e, e2, d, d2, v);
      }
    }
  }

  lemma {:induction false} ChildrenRerender(ws: seq<Widget>, w: Widget, x: int, y: int, scroll: int, n: nat,
                                            s: State, s2: State, rasterWidth: int, depth: nat)
    requires WellFormed(ws, w, depth) && Tracks(ws, s) && Tracks(ws, s2)
    requires w.group == TYPE_CONTAINER && w.children.Some? && n <= |w.children.value|
    requires s2.log == s.log && s2.clip == s.clip && ClampedFrom(s.scrolls, s2.scrolls)
    ensures Agree(s, s2, Children(ws, w, x, y, scroll, n, s, rasterWidth, depth),
                         Children(ws, w, x, y, scroll, n, s2, rasterWidth, depth))
    decreases depth, 0, n
  {
    if n > 0 {
      var m := Children(ws, w, x, y, scroll, n - 1, s, rasterWidth, depth);
      var m2 := Children(ws, w, x, y, scroll, n - 1, s2, rasterWidth, depth);
      ChildrenRerender(ws, w, x, y, scroll, n - 1, s, s2, rasterWidth, depth);
      AgreeClamped(s, s2, m, m2);
      ChildRerender(ws, w, n - 1, x, y, scroll, m, m2, rasterWidth, depth);
      AgreeChain(s, s2, m, m2, Child(ws, w, n - 1, x, y, scroll, m, rasterWidth, depth),
                 Child(ws, w, n - 1, x, y, scroll, m2, rasterWidth, depth));
    }
  }

  lemma {:induction false} ChildRerender(ws: seq<Widget>, w: Widget, i: nat, x: int, y: int, scroll: int,
                                         s: State, s2: State, rasterWidth: int, depth: nat)
    requires WellFormed(ws, w, depth) && Tracks(ws, s) && Tracks(ws, s2)
    requires w.group == TYPE_CONTAINER && w.children.Some? && i < |w.children.value|
    requires s2.log == s.log && s2.clip == s.clip && ClampedFrom(s.scrolls, s2.scrolls)
    ensures Agree(s, s2, Child(ws, w, i, x, y, scroll, s, rasterWidth, depth),
                         Child(ws, w, i, x, y, scroll, s2, rasterWidth, depth))
    decreases depth, 0, i
  {
    var child := ChildAt(ws, w, depth, i);
    if child.group == TYPE_CONTAINER {
      var sp := Clamp(s.scrolls[child], child.scrollLimit, child.height);
      assert Settled(s.scrolls, s2.scrolls, child);
      ClampIdempotent(s.scrolls[child], child.scrollLimit, child.height);
      assert Clamp(s2.scrolls[child], child.scrollLimit, child.height) == sp;
      var clamped := s.(scrolls := s.scrolls[child := sp]);
      var clamped2 := s2.(scrolls := s2.scrolls[child := sp]);
      forall v | v in clamped.scrolls
        ensures Settled(clamped.scrolls, clamped2.scrolls, v)
      {
        if v != child {
          assert Settled(s.scrolls, s2.scrolls, v);
        }
      }
      var cx, cy := SlotX(w, i, x, child), SlotY(w, i, y, scroll, child);
      ContainerRerender(ws, child, cx, cy, sp, clamped, clamped2, rasterWidth, depth - 1);
      AgreeChain(s, s2, clamped, clamped2, Container(ws, child, cx, cy, sp, clamped, rasterWidth, depth - 1),
                 Container(ws, child, cx, cy, sp, clamped2, rasterWidth, depth - 1));
    }
  }

  /**
   * Child slot i of container w at (x, y), scrolled by `scroll`: the child is
   * placed at `childX[i] + x + horizontalDrawOffset`,
   * `childY[i] + y - scroll + verticalDrawOffset`. A container child ends up
   * with its clamped scroll position and, when it has children, narrows the
   * clip to its box at that place first; a model-list child changes nothing;
   * any other child appends its leaf draws at that place and changes no
   * scroll position.
   */
  lemma ChildPlacement(ws: seq<Widget>, w: Widget, i: nat, x: int, y: int, scroll: int,
                       s: State, rasterWidth: int, depth: nat)
    requires WellFormed(ws, w, depth) && Tracks(ws, s)
    requires w.group == TYPE_CONTAINER && w.children.Some? && i < |w.children.value|
    ensures var child := ws[w.children.value[i]];
      var cx := w.childX[i] + x + child.horizontalDrawOffset;
      var cy := w.childY[i] + y - scroll + child.verticalDrawOffset;
      var r := Child(ws, w, i, x, y, scroll, s, rasterWidth, depth);
      (child.group == TYPE_CONTAINER ==>
         r.scrolls[child] == Clamp(s.scrolls[child], child.scrollLimit, child.height) &&
         (child.children.Some? ==>
            |r.log| > |s.log| && r.log[|s.log|] == SetBounds(cy + child.height, cx, cx + child.width, cy))) &&
      (child.group == TYPE_MODEL_LIST ==> r == s) &&
      (child.group != TYPE_CONTAINER && child.group != TYPE_MODEL_LIST ==>
         r.log == s.log + Leaf(child, cx, cy, rasterWidth) && r.scrolls == s.scrolls)
  {
    var child := ChildAt(ws, w, depth, i);
    if child.group == TYPE_CONTAINER {
      var sp := Clamp(s.scrolls[child], child.scrollLimit, child.height);
      var clamped := s.(scrolls := s.scrolls[child := sp]);
      var cx, cy := SlotX(w, i, x, child), SlotY(w, i, y, scroll, child);
      RootUntouched(ws, child, cx, cy, sp, clamped, rasterWidth, depth - 1);
      if child.children.Some? {
        ContainerBrackets(ws, child, cx, cy, sp, clamped, rasterWidth, depth - 1);
      }
    }
  }

  /**
   * Slots are drawn in index order: the state after the first n slots is an
   * earlier state of the one after the first m, for n <= m, so the draws of
   * slot n - 1 precede those of every later slot.
   */
  lemma {:induction false} ChildrenInOrder(ws: seq<Widget>, w: Widget, x: int, y: int, scroll: int, n: nat, m: nat,
                                           s: State, rasterWidth: int, depth: nat)
    requires WellFormed(ws, w, depth) && Tracks(ws, s)
    requires w.group == TYPE_CONTAINER && w.children.Some? && n <= m <= |w.children.value|
    ensures Extends(Children(ws, w, x, y, scroll, n, s, rasterWidth, depth),
                    Children(ws, w, x, y, scroll, m, s, rasterWidth, depth))
    decreases m
  {
    var a := Children(ws, w, x, y, scroll, n, s, rasterWidth, depth);
    if n == m {
      forall v | v in a.scrolls
        ensures Settled(a.scrolls, a.scrolls, v)
      {
      }
    } else {
      var mid := Children(ws, w, x, y, scroll, m - 1, s, rasterWidth, depth);
      ChildrenInOrder(ws, w, x, y, scroll, n, m - 1, s, rasterWidth, depth);
      ChildExtends(ws, w, m - 1, x, y, scroll, mid, rasterWidth, depth);
      ExtendsTransitive(a, mid, Child(ws, w, m - 1, x, y, scroll, mid, rasterWidth, depth));
    }
  }

  /**
   * `toBufferedImage` returns no image exactly when the root has no area;
   * otherwise the image has the root's size.
   */
  lemma CompositeSize(ws: seq<Widget>, root: Widget, scrolls: map<Widget, int>, depth: nat)
    requires (root.width > 0 && root.height > 0 ==> WellFormed(ws, root, depth))
    requires forall w :: w in ws ==> w in scrolls
    ensures var o := Composite(ws, root, scrolls, depth);
      (o.image.None? <==> root.width <= 0 || root.height <= 0) &&
      (o.image.Some? ==> o.image.value.width == root.width && o.image.value.height == root.height)
  {
  }

  /**
   * A root that is not a container draws its leaf content at the origin and
   * changes no scroll position; a root of any type other than container,
   * sprite, text and rectangle draws nothing.
   */
  lemma CompositeLeafRoot(ws: seq<Widget>, root: Widget, scrolls: map<Widget, int>, depth: nat)
    requires (root.width > 0 && root.height > 0 ==> WellFormed(ws, root, depth))
    requires forall w :: w in ws ==> w in scrolls
    requires root.width > 0 && root.height > 0 && root.group != TYPE_CONTAINER
    ensures var o := Composite(ws, root, scrolls, depth);
      o.image.Some? && o.image.value.draws == Leaf(root, 0, 0, root.width) && o.scrolls == scrolls &&
      (root.group != TYPE_SPRITE && root.group != TYPE_TEXT && root.group != TYPE_RECTANGLE ==>
         o.image.value.draws == [])
  {
    LeafKinds(root, 0, 0, root.width);
  }

  /**
   * A container root with children is rendered at the origin without
   * scroll: its first draw narrows the clip to the whole image and its last
   * calls `setBounds(0, 0, width, height)`, the reset clip's top, left,
   * right and bottom in the argument order (bottom, left, right, top).
   */
  lemma CompositeContainerRoot(ws: seq<Widget>, root: Widget, scrolls: map<Widget, int>, depth: nat)
    requires (root.width > 0 && root.height > 0 ==> WellFormed(ws, root, depth))
    requires forall w :: w in ws ==> w in scrolls
    requires root.width > 0 && root.height > 0 && root.group == TYPE_CONTAINER && root.children.Some?
    ensures var o := Composite(ws, root, scrolls, depth);
      o.image.Some? && |o.image.value.draws| >= 2 &&
      o.image.value.draws == Container(ws, root, 0, 0, 0, Fresh(root.width, root.height, scrolls), root.width, depth).log &&
      o.image.value.draws[0] == SetBounds(root.height, 0, root.width, 0) &&
      o.image.value.draws[|o.image.value.draws| - 1] == SetBounds(0, 0, root.width, root.height)
  {
    ContainerBrackets(ws, root, 0, 0, 0, Fresh(root.width, root.height, scrolls), root.width, depth);
  }

  /**
   * The only scroll positions a render changes are those of containers the
   * root reaches, each to its clamped value; the root's own position is
   * never changed; and when the root has an area, every container it
   * reaches does end with its clamped position.
   */
  lemma CompositeScrolls(ws: seq<Widget>, root: Widget, scrolls: map<Widget, int>, depth: nat, v: Widget)
    requires (root.width > 0 && root.height > 0 ==> WellFormed(ws, root, depth))
    requires forall w :: w in ws ==> w in scrolls
    requires v in scrolls
    ensures var o := Composite(ws, root, scrolls, depth);
      ClampedFrom(scrolls, o.scrolls) &&
      (v == root || !Reaches(ws, root, v, depth) ==> o.scrolls[v] == scrolls[v]) &&
      (root.width > 0 && root.height > 0 && Reaches(ws, root, v, depth) ==>
         o.scrolls[v] == Clamp(scrolls[v], v.scrollLimit, v.height))
  {
    var o := Composite(ws, root, scrolls, depth);
    if root.width > 0 && root.height > 0 && root.group == TYPE_CONTAINER {
      var s := Fresh(root.width, root.height, scrolls);
      ContainerExtends(ws, root, 0, 0, 0, s, root.width, depth);
      NoSelfReach(ws, root, depth, depth);
      if v == root || !Reaches(ws, root, v, depth) {
        ContainerUntouched(ws, root, 0, 0, 0, s, root.width, depth, v);
      } else {
        ContainerClamps(ws, root, 0, 0, 0, s, root.width, depth, v);
      }
    } else {
      forall u | u in scrolls
        ensures Settled(scrolls, o.scrolls, u)
      {
      }
    }
  }

  /**
   * Rendering again from the scroll positions a render leaves behind gives
   * the same image and leaves the same positions: the clamp is idempotent.
   */
  lemma CompositeRerender(ws: seq<Widget>, root: Widget, scrolls: map<Widget, int>, depth: nat)
    requires (root.width > 0 && root.height > 0 ==> WellFormed(ws, root, depth))
    requires forall w :: w in ws ==> w in scrolls
    ensures var o := Composite(ws, root, scrolls, depth);
      (forall w :: w in ws ==> w in o.scrolls) && Composite(ws, root, o.scrolls, depth) == o
  {
    var o := Composite(ws, root, scrolls, depth);
    if root.width > 0 && root.height > 0 && root.group == TYPE_CONTAINER {
      var s := Fresh(root.width, root.height, scrolls);
      var s2 := Fresh(root.width, root.height, o.scrolls);
      ContainerExtends(ws, root, 0, 0, 0, s, root.width, depth);
      ContainerRerender(ws, root, 0, 0, 0, s, s2, root.width, depth);
      var r := Container(ws, root, 0, 0, 0, s, root.width, depth);
      var r2 := Container(ws, root, 0, 0, 0, s2, root.width, depth);
      forall v | v in r.scrolls
        ensures r2.scrolls[v] == r.scrolls[v]
      {
        assert AgreesAt(s, s2, r, r2, v);
      }
      assert r2.scrolls == r.scrolls;
    }
  }
}
