/**
 * What one run of the control's layer synchronisation (`_updateLayers`)
 * does, as values: which layer ends up on each side, the events it emits
 * and the writes it makes to layers, in order.
 */
module SwipeSync {
  import opened Wrappers
  import opened SwipeGeometry
  import opened Layers

  /** The z-index the control raises the layers it shows to (`_MAX_ZINDEX`). */
  const MaxZIndex: int := 9999

  /**
   * The host map at the moment of a call: the identifiers of the layers it
   * holds, its width in pixels (`getSize().x`) and the corners of its
   * viewport in layer pixels (`containerPointToLayerPoint` of the
   * container's corners).
   */
  datatype HostMap = HostMap(layerIds: set<int>, width: real, nw: Point, se: Point)

  datatype Side = Left | Right

  datatype SwipeEvent =
    | Start
    | Stop
    | NewLayer
    | LayerRemove(side: Side, layer: Layer?)
    | LayerAdd(side: Side, layer: Layer?)
    | DividerMove(x: real)

  /** Who fires an event: the host map or the control itself. */
  datatype Target = OnMap | OnControl

  datatype Fired = Fired(target: Target, event: SwipeEvent)

  /**
   * The z-index the control saves for a layer it is given: the layer's
   * `zIndex` option when that is truthy, otherwise 1.
   */
  function SavedZIndex(z: Option<int>): (saved: int)
    ensures saved != 0
    ensures z.Some? && z.value != 0 ==> saved == z.value
    ensures z == None || z == Some(0) ==> saved == 1
  {
    if z.Some? && z.value != 0 then z.value else 1
  }

  /** The host map's `hasLayer`: a layer is on the map when its identifier is. */
  predicate HasLayer(m: HostMap, l: Layer?)
  {
    l != null && l.id in m.layerIds
  }

  /** The layer a side shows: the user's choice when the map holds it, otherwise none. */
  function Effective(user: Layer?, m: HostMap): (e: Layer?)
    ensures e != null <==> HasLayer(m, user)
    ensures e != null ==> e == user
  {
    if HasLayer(m, user) then user else null
  }

  /** Left-side layer events are fired by the map, right-side ones by the control. */
  function SideTarget(side: Side): Target
  {
    if side == Left then OnMap else OnControl
  }

  /** The `dividermove` event of one clip update; none when the slider does not exist yet. */
  function DividerEvents(divider: Option<real>): seq<Fired>
  {
    if divider.None? then [] else [Fired(OnControl, DividerMove(divider.value))]
  }

  /**
   * The events for one side: nothing when its layer did not change;
   * otherwise `newlayer` on the map, whatever the re-entered update emits
   * (`nested`), then the removal of the previous layer and the addition of
   * the current one.
   */
  function SideEvents(side: Side, changed: bool, prev: Layer?, cur: Layer?, nested: seq<Fired>): (evs: seq<Fired>)
    ensures evs == [] <==> !changed
    ensures changed ==> |evs| == 3 + |nested| && evs[0] == Fired(OnMap, NewLayer)
    ensures changed ==> evs[|evs| - 2..] == [Fired(SideTarget(side), LayerRemove(side, prev)),
                                            Fired(SideTarget(side), LayerAdd(side, cur))]
  {
    if !changed then []
    else [Fired(OnMap, NewLayer)] + nested
         + [Fired(SideTarget(side), LayerRemove(side, prev)), Fired(SideTarget(side), LayerAdd(side, cur))]
  }

  function RaiseWrites(l: Layer?): (ws: seq<Write>)
    ensures forall i :: 0 <= i < |ws| ==> ws[i].SetZIndex? && ws[i].target == l && ws[i].z == Some(MaxZIndex)
  {
    if l == null then [] else [SetZIndex(l, Some(MaxZIndex))]
  }

  /** Clipping both sides' layers for a divider position; nothing when the slider does not exist yet. */
  function ClipWrites(left: Layer?, right: Layer?, divider: Option<real>, m: HostMap): (ws: seq<Write>)
    ensures forall i :: 0 <= i < |ws| ==> ws[i].SetClip? && (ws[i].target == left || ws[i].target == right)
  {
    if divider.None? then []
    else
      var s := ClipRects(m.nw, m.se, divider.value);
      (if left == null then [] else [SetClip(left, Some(s.left))])
      + (if right == null then [] else [SetClip(right, Some(s.right))])
  }

  /** Giving a side's previous layer, if any, the side's saved z-index. */
  function Restoring(prev: Layer?, saved: Option<int>): (ws: seq<Write>)
    ensures forall w :: w in ws ==> w.SetZIndex? && w.target == prev && w.z == saved
  {
    if prev == null then [] else [SetZIndex(prev, saved)]
  }

  /** Restoring a side's previous layer, when the side changed, then the re-entered update. */
  function SideWrites(changed: bool, prev: Layer?, saved: Option<int>, nested: seq<Write>): seq<Write>
  {
    if !changed then [] else Restoring(prev, saved) + nested
  }

  /**
   * Turning swipe mode off: each side's layer gets back its side's saved
   * z-index and loses its clip.
   */
  function DisableWrites(left: Layer?, right: Layer?, savedLeft: Option<int>, savedRight: Option<int>): (ws: seq<Write>)
    ensures forall i :: 0 <= i < |ws| ==> ws[i].target == left || ws[i].target == right
    ensures forall i :: 0 <= i < |ws| && ws[i].SetClip? ==> ws[i].rect == None
    ensures forall i :: 0 <= i < |ws| && ws[i].SetZIndex? ==>
              (ws[i].target == left && ws[i].z == savedLeft) || (ws[i].target == right && ws[i].z == savedRight)
  {
    Unclipping(left, savedLeft) + Unclipping(right, savedRight)
  }

  /** Giving one side's layer, if any, its saved z-index and clearing its clip. */
  function Unclipping(l: Layer?, saved: Option<int>): seq<Write>
  {
    if l == null then [] else [SetZIndex(l, saved), SetClip(l, None)]
  }

  /**
   * One layer synchronisation: whether it is the first (the sides' layers
   * were still undefined, which differs from every layer and from null),
   * the sides' layers before and after, the saved z-indices, whether the
   * control listens to `swipemode:newlayer` (then firing it re-enters the
   * synchronisation), the divider position (none before the slider
   * exists) and the map.
   */
  datatype Update = Update(
    initial: bool,
    prevLeft: Layer?, prevRight: Layer?,
    left: Layer?, right: Layer?,
    savedLeft: Option<int>, savedRight: Option<int>,
    reentrant: bool, divider: Option<real>, view: HostMap)
  {
    /** The left side's layer differs from the one before (by reference). */
    predicate LeftChanged()
    {
      initial || prevLeft != left
    }

    predicate RightChanged()
    {
      initial || prevRight != right
    }

    /** What a re-entered synchronisation writes: it finds both sides unchanged. */
    function Refresh(): seq<Write>
    {
      RaiseWrites(left) + RaiseWrites(right) + ClipWrites(left, right, divider, view)
    }

    function Nested(): seq<Write>
    {
      if reentrant then Refresh() else []
    }

    function NestedEvents(): seq<Fired>
    {
      if reentrant then DividerEvents(divider) else []
    }

    /** The writes, in order: raise both sides, restore the left, then the right, previous layer, clip. */
    function Writes(): (ws: seq<Write>)
      ensures forall w :: w in ws ==> w.target == left || w.target == right || w.target == prevLeft || w.target == prevRight
      ensures forall w :: w in ws && w.SetClip? ==> w.target == left || w.target == right
    {
      RaiseWrites(left) + RaiseWrites(right)
      + SideWrites(LeftChanged(), prevLeft, savedLeft, Nested())
      + SideWrites(RightChanged(), prevRight, savedRight, Nested())
      + ClipWrites(left, right, divider, view)
    }

    /** The events, in order: the left side's, the right side's, then `dividermove`. */
    function Events(): (evs: seq<Fired>)
      ensures evs == [] <==> Unchanged() && divider.None?
      ensures divider.Some? ==> evs[|evs| - 1] == Fired(OnControl, DividerMove(divider.value))
      ensures LeftChanged() ==> evs[0] == Fired(OnMap, NewLayer)
    {
      SideEvents(Left, LeftChanged(), prevLeft, left, NestedEvents())
      + SideEvents(Right, RightChanged(), prevRight, right, NestedEvents())
      + DividerEvents(divider)
    }

    /** No side changes its layer. */
    predicate Unchanged()
    {
      !LeftChanged() && !RightChanged()
    }
  }

  /**
   * A synchronisation that finds both sides unchanged emits no layer
   * events, only `dividermove`, and only raises and clips the two layers.
   */
  lemma QuietWhenUnchanged(u: Update)
    requires u.Unchanged()
    ensures u.Events() == DividerEvents(u.divider)
    ensures u.Writes() == u.Refresh()
  {
  }

  /**
   * A side that changes its layer emits `newlayer` on the map, then the
   * removal and the addition; on the left both come from the map, on the
   * right from the control.
   */
  lemma ChangedSideEvents(u: Update)
    requires u.LeftChanged() && !u.RightChanged() && !u.reentrant
    ensures u.Events() == [Fired(OnMap, NewLayer), Fired(OnMap, LayerRemove(Left, u.prevLeft)),
                           Fired(OnMap, LayerAdd(Left, u.left))] + DividerEvents(u.divider)
  {
  }

  lemma ChangedRightSideEvents(u: Update)
    requires !u.LeftChanged() && u.RightChanged() && !u.reentrant
    ensures u.Events() == [Fired(OnMap, NewLayer), Fired(OnControl, LayerRemove(Right, u.prevRight)),
                           Fired(OnControl, LayerAdd(Right, u.right))] + DividerEvents(u.divider)
  {
  }

  /** Clipping never changes a z-index. */
  lemma NoZIndexInClips(left: Layer?, right: Layer?, divider: Option<real>, m: HostMap, l: Layer)
    ensures LastZIndexWrite(ClipWrites(left, right, divider, m), l) == None
  {
    NoZIndexWrite(ClipWrites(left, right, divider, m), l);
  }

  /** The re-entered synchronisation leaves both sides' layers raised. */
  lemma RefreshRaises(u: Update, l: Layer)
    requires l == u.left || l == u.right
    ensures LastZIndexWrite(u.Refresh(), l) == Some(Some(MaxZIndex))
  {
    NoZIndexInClips(u.left, u.right, u.divider, u.view, l);
    LastWriteAppend(RaiseWrites(u.left) + RaiseWrites(u.right), ClipWrites(u.left, u.right, u.divider, u.view), l);
    LastWriteAppend(RaiseWrites(u.left), RaiseWrites(u.right), l);
  }

  /** The last z-index write of a changed side is the nested one, when there is one. */
  lemma SideWritesLastZIndex(prev: Layer?, saved: Option<int>, nested: seq<Write>, l: Layer)
    ensures LastZIndexWrite(SideWrites(true, prev, saved, nested), l) ==
              if LastZIndexWrite(nested, l).Some? then LastZIndexWrite(nested, l)
              else if prev == l then Some(saved)
              else None
  {
    var r := Restoring(prev, saved);
    LastWriteAppend(r, nested, l);
    if prev != null {
      assert r[..0] == [];
    }
  }

  /** Raising one layer leaves it at the top z-index and touches no other layer. */
  lemma RaiseLast(x: Layer?, l: Layer)
    ensures LastZIndexWrite(RaiseWrites(x), l) == if x == l then Some(Some(MaxZIndex)) else None
  {
    if x != null {
      assert RaiseWrites(x)[..0] == [];
    }
  }

  /** Raising both sides' layers leaves each at the top z-index and touches no other layer. */
  lemma RaisesLast(left: Layer?, right: Layer?, l: Layer)
    ensures LastZIndexWrite(RaiseWrites(left) + RaiseWrites(right), l) ==
              if l == left || l == right then Some(Some(MaxZIndex)) else None
  {
    LastWriteAppend(RaiseWrites(left), RaiseWrites(right), l);
    RaiseLast(left, l);
    RaiseLast(right, l);
  }

  /** A synchronisation splits into raising, the left side, the right side and clipping. */
  lemma WritesSplit(u: Update, l: Layer)
    ensures LastZIndexWrite(u.Writes(), l) ==
      var c := LastZIndexWrite(SideWrites(u.RightChanged(), u.prevRight, u.savedRight, u.Nested()), l);
      var b := LastZIndexWrite(SideWrites(u.LeftChanged(), u.prevLeft, u.savedLeft, u.Nested()), l);
      if c.Some? then c
      else if b.Some? then b
      else if l == u.left || l == u.right then Some(Some(MaxZIndex))
      else None
  {
    var a := RaiseWrites(u.left) + RaiseWrites(u.right);
    var b := SideWrites(u.LeftChanged(), u.prevLeft, u.savedLeft, u.Nested());
    var c := SideWrites(u.RightChanged(), u.prevRight, u.savedRight, u.Nested());
    var d := ClipWrites(u.left, u.right, u.divider, u.view);
    NoZIndexInClips(u.left, u.right, u.divider, u.view, l);
    LastWriteAppend(a + b + c, d, l);
    LastWriteAppend(a + b, c, l);
    LastWriteAppend(a, b, l);
    RaisesLast(u.left, u.right, l);
  }

  /** The restoring part of a side writes no clip. */
  lemma SideWritesLastClip(changed: bool, prev: Layer?, saved: Option<int>, nested: seq<Write>, l: Layer)
    ensures LastClipWrite(SideWrites(changed, prev, saved, nested), l) ==
              if changed then LastClipWrite(nested, l) else None
  {
    if changed {
      var r := Restoring(prev, saved);
      NoClipWrite(r, l);
      LastWriteAppend(r, nested, l);
    }
  }

  /** Only the sides' current layers are clipped, and the final clipping is the one that counts. */
  lemma WritesClipSplit(u: Update, l: Layer)
    ensures LastClipWrite(ClipWrites(u.left, u.right, u.divider, u.view), l).Some? ==>
              LastClipWrite(u.Writes(), l) == LastClipWrite(ClipWrites(u.left, u.right, u.divider, u.view), l)
    ensures l != u.left && l != u.right ==> LastClipWrite(u.Writes(), l) == None
  {
    var a := RaiseWrites(u.left) + RaiseWrites(u.right);
    var b := SideWrites(u.LeftChanged(), u.prevLeft, u.savedLeft, u.Nested());
    var c := SideWrites(u.RightChanged(), u.prevRight, u.savedRight, u.Nested());
    var d := ClipWrites(u.left, u.right, u.divider, u.view);
    LastWriteAppend(a + b + c, d, l);
    if l != u.left && l != u.right {
      NoClipWrite(d, l);
      NoClipWrite(a, l);
      LastWriteAppend(a, d, l);
      assert LastClipWrite(u.Nested(), l) == None;
      SideWritesLastClip(u.LeftChanged(), u.prevLeft, u.savedLeft, u.Nested(), l);
      SideWritesLastClip(u.RightChanged(), u.prevRight, u.savedRight, u.Nested(), l);
      LastWriteAppend(a + b, c, l);
      LastWriteAppend(a, b, l);
    }
  }

  /**
   * While the control listens to `swipemode:newlayer`, every layer shown
   * on a side ends the synchronisation at the top z-index.
   */
  lemma ReentrantKeepsSidesRaised(u: Update, l: Layer, s: Style)
    requires u.reentrant
    requires l == u.left || l == u.right
    ensures Replay(u.Writes(), l, s).zIndex == Some(MaxZIndex)
  {
    ReplayIsLastWrite(u.Writes(), l, s);
    WritesSplit(u, l);
    RefreshRaises(u, l);
    if u.LeftChanged() {
      SideWritesLastZIndex(u.prevLeft, u.savedLeft, u.Nested(), l);
    }
    if u.RightChanged() {
      SideWritesLastZIndex(u.prevRight, u.savedRight, u.Nested(), l);
    }
  }

  /**
   * Without re-entry, a layer shown on a side ends at the top z-index
   * unless it is also the previous layer of a side that changed.
   */
  lemma RaisedUnlessRestored(u: Update, l: Layer, s: Style)
    requires !u.reentrant
    requires l == u.left || l == u.right
    requires !(u.LeftChanged() && u.prevLeft == l)
    requires !(u.RightChanged() && u.prevRight == l)
    ensures Replay(u.Writes(), l, s).zIndex == Some(MaxZIndex)
  {
    ReplayIsLastWrite(u.Writes(), l, s);
    WritesSplit(u, l);
    assert u.Nested() == [];
    NoZIndexWrite([], l);
    if u.LeftChanged() {
      SideWritesLastZIndex(u.prevLeft, u.savedLeft, u.Nested(), l);
    }
    if u.RightChanged() {
      SideWritesLastZIndex(u.prevRight, u.savedRight, u.Nested(), l);
    }
  }

  /**
   * A right layer that was replaced, and is shown on no side, gets the
   * z-index saved for the right side at the time of the synchronisation.
   */
  lemma RestoredRightGetsSaved(u: Update, s: Style)
    requires u.RightChanged() && u.prevRight != null && u.prevRight != u.right && u.prevRight != u.left
    ensures Replay(u.Writes(), u.prevRight, s).zIndex == u.savedRight
  {
    var l := u.prevRight;
    ReplayIsLastWrite(u.Writes(), l, s);
    WritesSplit(u, l);
    SideWritesLastZIndex(u.prevRight, u.savedRight, u.Nested(), l);
    NoZIndexWrite(u.Nested(), l);
  }

  /**
   * A left layer that was replaced, shown on no side and not also the
   * replaced right layer, gets the z-index saved for the left side.
   */
  lemma RestoredLeftGetsSaved(u: Update, s: Style)
    requires u.LeftChanged() && u.prevLeft != null && u.prevLeft != u.left && u.prevLeft != u.right
    requires !(u.RightChanged() && u.prevRight == u.prevLeft)
    ensures Replay(u.Writes(), u.prevLeft, s).zIndex == u.savedLeft
  {
    var l := u.prevLeft;
    ReplayIsLastWrite(u.Writes(), l, s);
    WritesSplit(u, l);
    SideWritesLastZIndex(u.prevLeft, u.savedLeft, u.Nested(), l);
    NoZIndexWrite(u.Nested(), l);
    if u.RightChanged() {
      SideWritesLastZIndex(u.prevRight, u.savedRight, u.Nested(), l);
    }
  }

  /**
   * Without re-entry, a layer that moves from the left side to the right
   * side ends at the left side's saved z-index, not at the top.
   */
  lemma MovedAcrossLosesRaise(u: Update, s: Style)
    requires !u.reentrant && !u.initial
    requires u.LeftChanged() && u.prevLeft != null && u.prevLeft == u.right && u.left != u.right
    ensures Replay(u.Writes(), u.right, s).zIndex == u.savedLeft
  {
    var l := u.right;
    ReplayIsLastWrite(u.Writes(), l, s);
    WritesSplit(u, l);
    SideWritesLastZIndex(u.prevLeft, u.savedLeft, u.Nested(), l);
    if u.RightChanged() {
      SideWritesLastZIndex(u.prevRight, u.savedRight, u.Nested(), l);
    }
  }

  /** A synchronisation touches no layer other than the sides' previous and current ones. */
  lemma UntouchedLayer(u: Update, l: Layer, s: Style)
    requires l != u.prevLeft && l != u.prevRight && l != u.left && l != u.right
    ensures Replay(u.Writes(), l, s) == s
  {
    ReplayIsLastWrite(u.Writes(), l, s);
    WritesSplit(u, l);
    WritesClipSplit(u, l);
    NoClipWrite(ClipWrites(u.left, u.right, u.divider, u.view), l);
    NoZIndexWrite(u.Nested(), l);
    if u.LeftChanged() {
      SideWritesLastZIndex(u.prevLeft, u.savedLeft, u.Nested(), l);
    }
    if u.RightChanged() {
      SideWritesLastZIndex(u.prevRight, u.savedRight, u.Nested(), l);
    }
  }

  /**
   * With the slider present, the right side's layer ends clipped to the
   * east of the divider, and the left side's to the west of it unless
   * the same layer is on both sides.
   */
  lemma ClipsAfterUpdate(u: Update, s: Style)
    requires u.divider.Some?
    ensures u.right != null ==>
      Replay(u.Writes(), u.right, s).clip == Some(ClipRects(u.view.nw, u.view.se, u.divider.value).right)
    ensures u.left != null && u.left != u.right ==>
      Replay(u.Writes(), u.left, s).clip == Some(ClipRects(u.view.nw, u.view.se, u.divider.value).left)
  {
    var d := ClipWrites(u.left, u.right, u.divider, u.view);
    if u.right != null {
      ReplayIsLastWrite(u.Writes(), u.right, s);
      WritesClipSplit(u, u.right);
      assert d[|d| - 1].target == u.right;
    }
    if u.left != null && u.left != u.right {
      ReplayIsLastWrite(u.Writes(), u.left, s);
      WritesClipSplit(u, u.left);
      if u.right != null {
        assert d[..|d| - 1] == [d[0]];
      }
      assert LastClipWrite(d, u.left) == Some(Some(ClipRects(u.view.nw, u.view.se, u.divider.value).left));
    }
  }

  /**
   * Turning swipe mode off gives the right side's layer the right saved
   * z-index and no clip, the left side's layer the left saved z-index and
   * no clip (the right side wins when one layer is on both), and touches
   * nothing else.
   */
  lemma DisableRestores(left: Layer?, right: Layer?, savedLeft: Option<int>, savedRight: Option<int>, l: Layer, s: Style)
    ensures l == right ==> Replay(DisableWrites(left, right, savedLeft, savedRight), l, s) == Style(savedRight, None)
    ensures l == left && l != right ==> Replay(DisableWrites(left, right, savedLeft, savedRight), l, s) == Style(savedLeft, None)
    ensures l != left && l != right ==> Replay(DisableWrites(left, right, savedLeft, savedRight), l, s) == s
  {
    var a := Unclipping(left, savedLeft);
    var b := Unclipping(right, savedRight);
    ReplayAppend(a, b, l, s);
    if left != null {
      assert a[..1] == [a[0]] && a[..1][..0] == [];
    }
    if right != null {
      assert b[..1] == [b[0]] && b[..1][..0] == [];
    }
    if l != right {
      ReplayUntouched(b, l, Replay(a, l, s));
    }
    if l != left {
      ReplayUntouched(a, l, s);
    }
  }

  /**
   * A synchronisation that re-enters itself, with the divider at the
   * centre line of the map, leaves every layer shown on a side on top and
   * clipped to its half of the map (the right half when one layer is on
   * both sides).
   */
  lemma EnabledSidesShown(u: Update, l: Layer, s: Style)
    requires u.reentrant && u.divider == Some(u.view.width / 2.0)
    requires l == u.left || l == u.right
    ensures Replay(u.Writes(), l, s).zIndex == Some(MaxZIndex)
    ensures l == u.right ==> Replay(u.Writes(), l, s).clip == Some(ClipRects(u.view.nw, u.view.se, u.view.width / 2.0).right)
    ensures l != u.right ==> Replay(u.Writes(), l, s).clip == Some(ClipRects(u.view.nw, u.view.se, u.view.width / 2.0).left)
  {
    ReentrantKeepsSidesRaised(u, l, s);
    var r := ClipRects(u.view.nw, u.view.se, u.divider.value);
    assert r == ClipRects(u.view.nw, u.view.se, u.view.width / 2.0);
    assert l == u.right ==> Replay(u.Writes(), l, s).clip == Some(r.right) by {
      ClipsAfterUpdate(u, s);
    }
    assert l != u.right ==> Replay(u.Writes(), l, s).clip == Some(r.left) by {
      ClipsAfterUpdate(u, s);
    }
  }

  /**
   * Choosing again the layer the left side already shows, after a
   * synchronisation that re-entered itself, saves the z-index the control
   * raised it to: turning swipe mode off then gives that layer 9999 back
   * instead of the z-index it had before.
   */
  lemma ReselectedLeftKeepsRaise(u: Update, l: Layer, s: Style, t: Style, right: Layer?, savedRight: Option<int>)
    requires u.reentrant && l == u.left && l != right
    ensures SavedZIndex(Replay(u.Writes(), l, s).zIndex) == MaxZIndex
    ensures Replay(DisableWrites(l, right, Some(SavedZIndex(Replay(u.Writes(), l, s).zIndex)), savedRight), l, t)
              == Style(Some(MaxZIndex), None)
  {
    ReentrantKeepsSidesRaised(u, l, s);
    DisableRestores(l, right, Some(MaxZIndex), savedRight, l, t);
  }

  /**
   * A synchronisation only resets the z-index of a side's previous layer:
   * a layer no longer shown on either side keeps the clip it had.
   */
  lemma ReplacedKeepsClip(u: Update, l: Layer, s: Style)
    requires l != u.left && l != u.right
    ensures Replay(u.Writes(), l, s).clip == s.clip
  {
    ReplayIsLastWrite(u.Writes(), l, s);
    WritesClipSplit(u, l);
  }
}
