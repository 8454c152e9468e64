/**
 * The swipe control: two layers compared across a vertical divider. The
 * control remembers the layer the user chose for each side, shows on a
 * side only a layer the map holds, raises the shown layers to the top,
 * clips them to their side of the divider, and gives layers it stops
 * showing their saved z-index back.
 */
module SwipeControl {
  import opened Wrappers
  import opened SwipeGeometry
  import opened Layers
  import opened SwipeSync

  /** The options that bear on the control's behaviour. */
  datatype Options = Options(thumbSize: real, padding: real, noControl: bool)

  /** A 42-pixel thumb, no padding, and the control's own button. */
  const DefaultOptions: Options := Options(42.0, 0.0, false)

  /** Regrouping four runs of events. */
  lemma Regroup<T>(a: seq<T>, b: seq<T>, c: seq<T>, d: seq<T>)
    ensures a + b + c + d == a + (b + c + d)
  {
  }

  /** Raises a shown layer, if any, to the top z-index. */
  method Raise(l: Layer?, ghost before: map<Layer, Style>, ghost done: seq<Write>)
    requires Tracks(before, done)
    modifies l
    ensures Tracks(before, done + RaiseWrites(l))
  {
    if l != null {
      Perform(SetZIndex(l, Some(MaxZIndex)), done, before);
    } else {
      assert done + [] == done;
    }
  }

  /** Gives a side's previous layer, if any, the side's saved z-index. */
  method Restore(prev: Layer?, saved: Option<int>, ghost before: map<Layer, Style>, ghost done: seq<Write>)
    requires Tracks(before, done)
    modifies prev
    ensures Tracks(before, done + Restoring(prev, saved))
  {
    if prev != null {
      Perform(SetZIndex(prev, saved), done, before);
    } else {
      assert done + [] == done;
    }
  }

  /** Gives a side's layer, if any, the side's saved z-index back and clears its clip. */
  method Unclip(l: Layer?, saved: Option<int>, ghost before: map<Layer, Style>, ghost done: seq<Write>)
    requires Tracks(before, done)
    modifies l
    ensures Tracks(before, done + Unclipping(l, saved))
  {
    if l != null {
      Perform(SetZIndex(l, saved), done, before);
      Perform(SetClip(l, None), done + [SetZIndex(l, saved)], before);
      assert done + [SetZIndex(l, saved)] + [SetClip(l, None)] == done + Unclipping(l, saved);
    } else {
      assert done + [] == done;
    }
  }

  /** The events the map and the control fire, in order, as a listener on both sees them. */
  class EventTrace {
    var fired: seq<Fired>

    constructor ()
      ensures fired == []
    {
      fired := [];
    }
  }

  class SwipeModeControl {
    const options: Options
    /** Swipe mode is on (`_isSwipeModeActive`). */
    var active: bool
    /** The layers the user chose for each side (`_userLeftLayer`, `_userRightLayer`). */
    var userLeft: Layer?
    var userRight: Layer?
    /** The layers shown on each side (`_leftLayer`, `_rightLayer`); only meaningful once `synced`. */
    var left: Layer?
    var right: Layer?
    /** Whether a synchronisation has synced `left` and `right`; before, both are undefined. */
    var synced: bool
    /** The z-indices saved for each side (`_sourceLeftLayerZindex`, `_sourceRightLayerZindex`); `None` is undefined. */
    var savedLeft: Option<int>
    var savedRight: Option<int>
    /** The slider's value; `None` until swipe mode is first turned on and the slider exists. */
    var range: Option<real>
    /** The map and slider listeners are attached. */
    var listening: bool
    /** Where the events the map and the control fire are recorded. */
    const trace: EventTrace

    ghost predicate Valid()
      reads this
    {
      && (listening ==> range.Some?)
      && (range.Some? ==> 0.0 <= range.value <= 1.0)
      && (!synced ==> left == null && right == null)
    }

    /** Every layer the control holds a reference to, and `null` when a side has none. */
    ghost function Layers(): set<Layer?>
      reads this
    {
      {userLeft, userRight, left, right}
    }

    /** The part of the state that only toggling, the setters and the slider change. */
    function Config(): (bool, Layer?, Layer?, Option<int>, Option<int>, Option<real>, bool)
      reads this
    {
      (active, userLeft, userRight, savedLeft, savedRight, range, listening)
    }

    /** The divider's offset for the slider's value on map `m`; none before the slider exists. */
    function DividerOf(m: HostMap): Option<real>
      reads this
    {
      if range.None? then None
      else Some(DividerPosition(m.width, range.value, options.padding, options.thumbSize))
    }

    /** The synchronisation `_updateLayers` performs from the current state on map `m`. */
    function Planned(m: HostMap): Update
      reads this
    {
      Update(!synced, left, right, Effective(userLeft, m), Effective(userRight, m),
             savedLeft, savedRight, listening, DividerOf(m), m)
    }

    /** The synchronisation `_enable` runs: the slider is new, at 0.5, and the control listens. */
    function Enabling(m: HostMap): Update
      reads this
    {
      Planned(m).(reentrant := true, divider := Some(DividerPosition(m.width, 0.5, options.padding, options.thumbSize)))
    }

    /** The synchronisation after `layer` is chosen for `side`: its saved z-index replaces the side's. */
    function Retargeted(side: Side, layer: Layer, m: HostMap): Update
      reads this, layer
    {
      var saved := Some(SavedZIndex(layer.zIndex));
      if side == Left then Planned(m).(left := Effective(layer, m), savedLeft := saved)
      else Planned(m).(right := Effective(layer, m), savedRight := saved)
    }

    /** The control's sides are those the synchronisation `u` assigns, and the rest of `u` is the current state. */
    ghost predicate Agrees(u: Update)
      reads this
    {
      && synced && left == u.left && right == u.right
      && u.left == Effective(userLeft, u.view) && u.right == Effective(userRight, u.view)
      && savedLeft == u.savedLeft && savedRight == u.savedRight
      && listening == u.reentrant && DividerOf(u.view) == u.divider
    }

    /** How many sides a synchronisation on `m` would change. */
    ghost function Mismatch(m: HostMap): nat
      reads this
    {
      (if synced && left == Effective(userLeft, m) then 0 else 1)
      + (if synced && right == Effective(userRight, m) then 0 else 1)
    }

    /**
     * `initialize`: remembers the two layers and, for each one given,
     * saves its z-index; swipe mode starts off.
     */
    constructor (leftLayer: Layer?, rightLayer: Layer?, opts: Options)
      ensures Valid()
      ensures options == opts && !active && !listening && range == None && fresh(trace) && trace.fired == []
      ensures userLeft == leftLayer && userRight == rightLayer && !synced && left == null && right == null
      ensures savedLeft == if leftLayer != null then Some(SavedZIndex(leftLayer.zIndex)) else None
      ensures savedRight == if rightLayer != null then Some(SavedZIndex(rightLayer.zIndex)) else None
    {
      options := opts;
      active := false;
      userLeft := leftLayer;
      savedLeft := if leftLayer != null then Some(SavedZIndex(leftLayer.zIndex)) else None;
      userRight := rightLayer;
      savedRight := if rightLayer != null then Some(SavedZIndex(rightLayer.zIndex)) else None;
      left, right, synced := null, null, false;
      range, listening := None, false;
      trace := new EventTrace();
    }

    /**
     * `_updateClip`: fires `dividermove` with the divider's offset from the
     * container's left edge and clips each shown layer to its side. Before
     * the slider exists, reading its value fails before anything happens.
     * The layers' styles are followed from `before` through the writes
     * `done` already made.
     */
    method UpdateClip(m: HostMap, ghost before: map<Layer, Style>, ghost done: seq<Write>)
      requires Valid() && before.Keys >= Layers() - {null}
      requires Tracks(before, done)
      modifies trace, Layers()
      ensures trace.fired == old(trace.fired) + DividerEvents(DividerOf(m))
      ensures Tracks(before, done + ClipWrites(left, right, DividerOf(m), m))
    {
      if range.None? {
        assert done + [] == done;
        return;
      }
      var d := DividerPosition(m.width, range.value, options.padding, options.thumbSize);
      trace.fired := trace.fired + [Fired(OnControl, DividerMove(d))];
      var rects := ClipRects(m.nw, m.se, d);
      ghost var clips: seq<Write> := [];
      if left != null {
        Perform(SetClip(left, Some(rects.left)), done, before);
        clips := [SetClip(left, Some(rects.left))];
      } else {
        assert done + clips == done;
      }
      if right != null {
        Perform(SetClip(right, Some(rects.right)), done + clips, before);
        assert done + clips + [SetClip(right, Some(rects.right))] == done + (clips + [SetClip(right, Some(rects.right))]);
        clips := clips + [SetClip(right, Some(rects.right))];
      }
      assert clips == ClipWrites(left, right, DividerOf(m), m);
    }

    /**
     * `_updateLayers`: with no map, nothing; otherwise the synchronisation
     * planned from the current state, its events appended to the trace and
     * its writes applied to every layer the control holds.
     */
    method UpdateLayers(m: Option<HostMap>)
      requires Valid()
      modifies this, trace, Layers()
      decreases if m.Some? then Mismatch(m.value) else 0, 8
      ensures Valid() && Config() == old(Config())
      ensures m.None? ==> left == old(left) && right == old(right) && synced == old(synced) && trace.fired == old(trace.fired)
      ensures m.None? ==> forall l: Layer :: l in old(Layers()) ==> l.CurrentStyle() == old(l.CurrentStyle())
      ensures m.Some? ==> synced && left == Effective(userLeft, m.value) && right == Effective(userRight, m.value)
      ensures m.Some? ==> trace.fired == old(trace.fired) + old(Planned(m.value)).Events()
      ensures m.Some? ==> forall l: Layer :: l in old(Layers()) ==>
                l.CurrentStyle() == Replay(old(Planned(m.value)).Writes(), l, old(l.CurrentStyle()))
    {
      if m.Some? {
        Synchronise(m.value);
      }
    }

    /**
     * `_updateLayers` on a control added to map `hm`: each side shows the
     * user's layer when the map holds it and nothing otherwise, shown
     * layers are raised to the top, each side whose layer changed is
     * handled in turn, then the layers are clipped.
     */
    method Synchronise(hm: HostMap)
      requires Valid()
      modifies this, trace, Layers()
      decreases Mismatch(hm), 7
      ensures Valid() && Config() == old(Config())
      ensures synced && left == Effective(userLeft, hm) && right == Effective(userRight, hm)
      ensures trace.fired == old(trace.fired) + old(Planned(hm)).Events()
      ensures forall l: Layer :: l in old(Layers()) ==>
                l.CurrentStyle() == Replay(old(Planned(hm)).Writes(), l, old(l.CurrentStyle()))
    {
      ghost var before := Styles(Layers() - {null});
      assert Tracks(before, []);
      Run(hm, Planned(hm), before);
    }

    /**
     * The body of `_updateLayers` for the planned synchronisation `u`, with
     * the layers' styles followed from `before`.
     */
    method Run(hm: HostMap, ghost u: Update, ghost before: map<Layer, Style>)
      requires Valid() && u == Planned(hm) && before.Keys >= Layers() - {null}
      requires Tracks(before, [])
      modifies this, trace, Layers()
      decreases Mismatch(hm), 6
      ensures Valid() && Config() == old(Config()) && Agrees(u)
      ensures trace.fired == old(trace.fired) + u.Events()
      ensures Tracks(before, u.Writes())
    {
      ghost var bound := Mismatch(hm);
      var prevLeft, prevRight, wasSynced := left, right, synced;
      RaiseSides(hm, u, before);
      Finish(hm, wasSynced, prevLeft, prevRight, u, before, bound);
    }

    /** What `_updateLayers` does once the sides are assigned and raised: each side's step, then the clip. */
    method Finish(hm: HostMap, wasSynced: bool, prevLeft: Layer?, prevRight: Layer?, ghost u: Update,
                  ghost before: map<Layer, Style>, ghost bound: nat)
      requires Valid() && Agrees(u) && u.view == hm
      requires u.initial == !wasSynced && u.prevLeft == prevLeft && u.prevRight == prevRight
      requires u.LeftChanged() || u.RightChanged() ==> bound >= 1
      requires before.Keys >= Layers() - {null} && (prevLeft != null ==> prevLeft in before)
      requires prevRight != null ==> prevRight in before
      requires Tracks(before, RaiseWrites(u.left) + RaiseWrites(u.right))
      modifies this, trace, Layers(), prevLeft, prevRight
      decreases bound, 5
      ensures Valid() && Config() == old(Config()) && Agrees(u)
      ensures trace.fired == old(trace.fired) + u.Events()
      ensures Tracks(before, u.Writes())
    {
      ghost var log0 := trace.fired;
      SyncSides(hm, wasSynced, prevLeft, prevRight, u, before, bound);
      ghost var done := RaiseWrites(u.left) + RaiseWrites(u.right)
                        + SideWrites(u.LeftChanged(), prevLeft, u.savedLeft, u.Nested())
                        + SideWrites(u.RightChanged(), prevRight, u.savedRight, u.Nested());
      ghost var log2 := trace.fired;
      UpdateClip(hm, before, done);
      assert trace.fired == log2 + DividerEvents(u.divider);
      Regroup(log0, SideEvents(Left, u.LeftChanged(), prevLeft, u.left, u.NestedEvents()),
              SideEvents(Right, u.RightChanged(), prevRight, u.right, u.NestedEvents()), DividerEvents(u.divider));
    }

    /** The two sides' steps within `_updateLayers`, the left one first. */
    method SyncSides(hm: HostMap, wasSynced: bool, prevLeft: Layer?, prevRight: Layer?, ghost u: Update,
                     ghost before: map<Layer, Style>, ghost bound: nat)
      requires Valid() && Agrees(u) && u.view == hm
      requires u.initial == !wasSynced && u.prevLeft == prevLeft && u.prevRight == prevRight
      requires u.LeftChanged() || u.RightChanged() ==> bound >= 1
      requires before.Keys >= Layers() - {null} && (prevLeft != null ==> prevLeft in before)
      requires prevRight != null ==> prevRight in before
      requires Tracks(before, RaiseWrites(u.left) + RaiseWrites(u.right))
      modifies this, trace, Layers(), prevLeft, prevRight
      decreases bound, 4
      ensures Valid() && Config() == old(Config()) && Agrees(u)
      ensures trace.fired == old(trace.fired) + SideEvents(Left, u.LeftChanged(), prevLeft, u.left, u.NestedEvents())
                                              + SideEvents(Right, u.RightChanged(), prevRight, u.right, u.NestedEvents())
      ensures Tracks(before, RaiseWrites(u.left) + RaiseWrites(u.right)
                             + SideWrites(u.LeftChanged(), prevLeft, u.savedLeft, u.Nested())
                             + SideWrites(u.RightChanged(), prevRight, u.savedRight, u.Nested()))
    {
      ghost var done := RaiseWrites(u.left) + RaiseWrites(u.right);
      SyncSide(Left, hm, !wasSynced || prevLeft != left, prevLeft, u, before, done, bound);
      done := done + SideWrites(u.LeftChanged(), prevLeft, u.savedLeft, u.Nested());
      SyncSide(Right, hm, !wasSynced || prevRight != right, prevRight, u, before, done, bound);
    }

    /**
     * One side's step within `_updateLayers`: nothing when its layer did
     * not change. The ghost `bound` is the number of sides the enclosing
     * synchronisation changes.
     */
    method SyncSide(side: Side, hm: HostMap, changed: bool, prev: Layer?, ghost u: Update,
                    ghost before: map<Layer, Style>, ghost done: seq<Write>, ghost bound: nat)
      requires Valid() && Agrees(u) && u.view == hm
      requires changed == (if side == Left then u.LeftChanged() else u.RightChanged())
      requires changed ==> bound >= 1
      requires before.Keys >= Layers() - {null} && (prev != null ==> prev in before)
      requires Tracks(before, done)
      modifies this, trace, Layers(), prev
      decreases bound, 3
      ensures Valid() && Config() == old(Config()) && Agrees(u) && Layers() == old(Layers())
      ensures trace.fired == old(trace.fired) + SideEvents(side, changed, prev, if side == Left then u.left else u.right, u.NestedEvents())
      ensures Tracks(before, done + SideWrites(changed, prev, if side == Left then u.savedLeft else u.savedRight, u.Nested()))
    {
      if changed {
        ChangeSide(side, hm, prev, u, before, done);
      } else {
        assert done + [] == done;
      }
    }

    /**
     * The first part of `_updateLayers`: each side shows the user's layer
     * when the map holds it and nothing otherwise, and each shown layer is
     * raised to the top, the left one first.
     */
    method RaiseSides(hm: HostMap, ghost u: Update, ghost before: map<Layer, Style>)
      requires Valid() && u == Planned(hm) && before.Keys >= Layers() - {null}
      requires Tracks(before, [])
      modifies this, Layers()
      ensures Valid() && Config() == old(Config()) && Agrees(u) && before.Keys >= Layers() - {null}
      ensures Tracks(before, RaiseWrites(u.left) + RaiseWrites(u.right))
    {
      var shownLeft := if HasLayer(hm, userLeft) then userLeft else null;
      var shownRight := if HasLayer(hm, userRight) then userRight else null;
      left, right, synced := shownLeft, shownRight, true;
      Raise(left, before, []);
      assert [] + RaiseWrites(left) == RaiseWrites(left);
      Raise(right, before, RaiseWrites(left));
    }

    /**
     * A side whose layer changed, within `_updateLayers`: the previous
     * layer gets the side's saved z-index back, the map fires `newlayer`
     * (which re-enters the synchronisation while the control listens),
     * then the removal and the addition fire.
     */
    method ChangeSide(side: Side, hm: HostMap, prev: Layer?, ghost u: Update, ghost before: map<Layer, Style>, ghost done: seq<Write>)
      requires Valid() && Agrees(u) && u.view == hm
      requires before.Keys >= Layers() - {null} && (prev != null ==> prev in before)
      requires Tracks(before, done)
      modifies this, trace, Layers(), prev
      decreases 0, 11
      ensures Valid() && Config() == old(Config()) && Agrees(u) && Layers() == old(Layers())
      ensures trace.fired == old(trace.fired) + SideEvents(side, true, prev, if side == Left then u.left else u.right, u.NestedEvents())
      ensures Tracks(before, done + SideWrites(true, prev, if side == Left then u.savedLeft else u.savedRight, u.Nested()))
    {
      var saved := if side == Left then savedLeft else savedRight;
      Restore(prev, saved, before, done);
      Announce(side, hm, prev, u, before, done + Restoring(prev, saved));
      assert done + Restoring(prev, saved) + u.Nested() == done + SideWrites(true, prev, saved, u.Nested());
    }

    /**
     * The events of a side whose layer changed: `newlayer` on the map, with
     * whatever the listeners it wakes do, then the removal and the addition.
     */
    method Announce(side: Side, hm: HostMap, prev: Layer?, ghost u: Update, ghost before: map<Layer, Style>, ghost done: seq<Write>)
      requires Valid() && Agrees(u) && u.view == hm
      requires before.Keys >= Layers() - {null}
      requires Tracks(before, done)
      modifies this, trace, Layers()
      decreases 0, 10
      ensures Valid() && Config() == old(Config()) && Agrees(u) && Layers() == old(Layers())
      ensures trace.fired == old(trace.fired) + SideEvents(side, true, prev, if side == Left then u.left else u.right, u.NestedEvents())
      ensures Tracks(before, done + u.Nested())
    {
      var cur := if side == Left then left else right;
      ghost var log0 := trace.fired;
      trace.fired := trace.fired + [Fired(OnMap, NewLayer)];
      Reenter(hm, u, before, done);
      var target := SideTarget(side);
      trace.fired := trace.fired + [Fired(target, LayerRemove(side, prev)), Fired(target, LayerAdd(side, cur))];
      Regroup(log0, [Fired(OnMap, NewLayer)], u.NestedEvents(),
              [Fired(target, LayerRemove(side, prev)), Fired(target, LayerAdd(side, cur))]);
    }

    /**
     * Firing `swipemode:newlayer`: while the control listens it runs the
     * synchronisation again. That comes after both sides were assigned, so
     * it changes no side: it raises the shown layers again, fires
     * `dividermove` and clips.
     */
    method Reenter(hm: HostMap, ghost u: Update, ghost before: map<Layer, Style>, ghost done: seq<Write>)
      requires Valid() && Agrees(u) && u.view == hm && before.Keys >= Layers() - {null}
      requires Tracks(before, done)
      modifies this, trace, Layers()
      decreases 0, 9
      ensures Valid() && Config() == old(Config()) && Agrees(u) && Layers() == old(Layers())
      ensures trace.fired == old(trace.fired) + u.NestedEvents()
      ensures Tracks(before, done + u.Nested())
    {
      if !listening {
        assert done + [] == done;
        return;
      }
      ghost var mid := Styles(before.Keys);
      ghost var again := Planned(hm);
      UpdateLayers(Some(hm));
      QuietWhenUnchanged(again);
      assert again.Refresh() == u.Refresh() == u.Nested();
      forall l | l in before
        ensures l.CurrentStyle() == Replay(done + u.Refresh(), l, before[l])
      {
        ReplayAppend(done, u.Refresh(), l, before[l]);
        if l !in Layers() {
          UntouchedLayer(again, l, mid[l]);
        }
      }
    }

    /** `enabled`: whether swipe mode is on. */
    function Enabled(): (on: bool)
      reads this
      ensures on <==> active
    {
      active
    }

    /**
     * `toggle`: flips swipe mode, then turns it on (and the map fires
     * `start`) or off (and the map fires `stop`). With no map, turning on
     * fails where `_enable` asks the map for its container and turning off
     * where `toggle` fires on the map, so only the flag changes. Turning
     * off a control whose slider was never built (it was turned on before
     * it had a map) fails where `_disable` removes the missing container,
     * after the restores, so `stop` is not fired.
     */
    method Toggle(m: Option<HostMap>)
      requires Valid()
      modifies this, trace, Layers()
      ensures Valid() && active == !old(active)
      ensures userLeft == old(userLeft) && userRight == old(userRight)
      ensures savedLeft == old(savedLeft) && savedRight == old(savedRight)
      ensures m.None? ==> range == old(range) && listening == old(listening) && trace.fired == old(trace.fired)
      ensures m.None? ==> left == old(left) && right == old(right) && synced == old(synced)
      ensures m.None? ==> forall l: Layer :: l in old(Layers()) ==> l.CurrentStyle() == old(l.CurrentStyle())
      ensures m.Some? && !old(active) ==> range == Some(0.5) && listening
      ensures m.Some? && !old(active) ==> synced && left == Effective(userLeft, m.value) && right == Effective(userRight, m.value)
      ensures m.Some? && !old(active) ==> trace.fired == old(trace.fired) + old(Enabling(m.value)).Events() + [Fired(OnMap, Start)]
      ensures m.Some? && !old(active) ==> forall l: Layer :: l in old(Layers()) ==>
                l.CurrentStyle() == Replay(old(Enabling(m.value)).Writes(), l, old(l.CurrentStyle()))
      ensures m.Some? && old(active) ==> range == old(range) && !listening
      ensures m.Some? && old(active) ==> left == old(left) && right == old(right) && synced == old(synced)
      ensures m.Some? && old(active) && old(range).Some? ==> trace.fired == old(trace.fired) + [Fired(OnMap, Stop)]
      ensures m.Some? && old(active) && old(range).None? ==> trace.fired == old(trace.fired)
      ensures m.Some? && old(active) ==> forall l: Layer :: l in old(Layers()) ==>
                l.CurrentStyle() == Replay(old(DisableWrites(left, right, savedLeft, savedRight)), l, old(l.CurrentStyle()))
    {
      if !active {
        active := true;
        if m.Some? {
          assert Enabling(m.value) == old(Enabling(m.value));
          Enable(m.value);
          trace.fired := trace.fired + [Fired(OnMap, Start)];
        }
      } else {
        active := false;
        Disable(m);
        if m.Some? && range.Some? {
          trace.fired := trace.fired + [Fired(OnMap, Stop)];
        }
      }
    }

    /**
     * `_enable` on a control added to map `hm`: a new slider at 0.5, the
     * listeners attached, then a synchronisation that re-enters itself
     * (see `EnabledSidesShown`).
     */
    method Enable(hm: HostMap)
      requires Valid()
      modifies this, trace, Layers()
      ensures Valid() && range == Some(0.5) && listening
      ensures active == old(active) && userLeft == old(userLeft) && userRight == old(userRight)
      ensures savedLeft == old(savedLeft) && savedRight == old(savedRight)
      ensures synced && left == Effective(userLeft, hm) && right == Effective(userRight, hm)
      ensures trace.fired == old(trace.fired) + old(Enabling(hm)).Events()
      ensures forall l: Layer :: l in old(Layers()) ==>
                l.CurrentStyle() == Replay(old(Enabling(hm)).Writes(), l, old(l.CurrentStyle()))
    {
      range, listening := Some(0.5), true;
      assert Planned(hm) == old(Enabling(hm));
      Synchronise(hm);
    }

    /**
     * `_disable`: with no map, nothing; otherwise each side's layer gets
     * the side's saved z-index back and loses its clip, and the listeners
     * are removed. The sides keep their layers.
     */
    method Disable(m: Option<HostMap>)
      requires Valid()
      modifies this, Layers()
      ensures Valid()
      ensures (active, userLeft, userRight, savedLeft, savedRight, range) == old((active, userLeft, userRight, savedLeft, savedRight, range))
      ensures left == old(left) && right == old(right) && synced == old(synced)
      ensures listening == (old(listening) && m.None?)
      ensures forall l: Layer :: l in old(Layers()) ==>
                l.CurrentStyle() == if m.Some? then Replay(old(DisableWrites(left, right, savedLeft, savedRight)), l, old(l.CurrentStyle()))
                                    else old(l.CurrentStyle())
      ensures m.Some? && right != null ==> right.CurrentStyle() == Style(savedRight, None)
      ensures m.Some? && left != null && left != right ==> left.CurrentStyle() == Style(savedLeft, None)
    {
      if m.None? {
        return;
      }
      ghost var before := Styles(Layers() - {null});
      assert Tracks(before, []);
      Unclip(left, savedLeft, before, []);
      assert [] + Unclipping(left, savedLeft) == Unclipping(left, savedLeft);
      Unclip(right, savedRight, before, Unclipping(left, savedLeft));
      listening := false;
      if right != null {
        DisableRestores(left, right, savedLeft, savedRight, right, before[right]);
      }
      if left != null && left != right {
        DisableRestores(left, right, savedLeft, savedRight, left, before[left]);
      }
    }

    /**
     * `setLeftLayer`: the left side's chosen layer becomes `layer` and the
     * left saved z-index `layer`'s; unless the control has no button of its
     * own, a synchronisation follows (none without a map). A null layer is
     * stored, then reading its options fails: `ok` is false and nothing
     * else changes.
     */
    method SetLeftLayer(layer: Layer?, m: Option<HostMap>) returns (ok: bool)
      requires Valid()
      modifies this, trace, Layers(), layer
      ensures Valid() && ok == (layer != null) && userLeft == layer
      ensures (active, userRight, savedRight, range, listening) == old((active, userRight, savedRight, range, listening))
      ensures !ok ==> savedLeft == old(savedLeft)
      ensures ok ==> savedLeft == Some(SavedZIndex(old(layer.zIndex)))
      ensures !ok || options.noControl || m.None? ==>
                left == old(left) && right == old(right) && synced == old(synced) && trace.fired == old(trace.fired)
      ensures !ok || options.noControl || m.None? ==>
                forall l: Layer :: l in old(Layers()) || l == layer ==> l.CurrentStyle() == old(l.CurrentStyle())
      ensures ok && !options.noControl && m.Some? ==>
                synced && left == Effective(userLeft, m.value) && right == Effective(userRight, m.value)
      ensures ok && !options.noControl && m.Some? ==>
                trace.fired == old(trace.fired) + old(Retargeted(Left, layer, m.value)).Events()
      ensures ok && !options.noControl && m.Some? ==> forall l: Layer :: l in old(Layers()) || l == layer ==>
                l.CurrentStyle() == Replay(old(Retargeted(Left, layer, m.value)).Writes(), l, old(l.CurrentStyle()))
    {
      userLeft := layer;
      if layer == null {
        return false;
      }
      savedLeft := Some(SavedZIndex(layer.zIndex));
      if !options.noControl {
        ghost var shown := Layers();
        if m.Some? {
          assert Planned(m.value) == old(Retargeted(Left, layer, m.value));
        }
        UpdateLayers(m);
        if m.Some? {
          ghost var u := old(Retargeted(Left, layer, m.value));
          forall l: Layer | l in old(Layers()) && l !in shown
            ensures l.CurrentStyle() == Replay(u.Writes(), l, old(l.CurrentStyle()))
          {
            UntouchedLayer(u, l, old(l.CurrentStyle()));
          }
        }
      }
      ok := true;
    }

    /** `setRightLayer`: as `SetLeftLayer`, for the right side. */
    method SetRightLayer(layer: Layer?, m: Option<HostMap>) returns (ok: bool)
      requires Valid()
      modifies this, trace, Layers(), layer
      ensures Valid() && ok == (layer != null) && userRight == layer
      ensures (active, userLeft, savedLeft, range, listening) == old((active, userLeft, savedLeft, range, listening))
      ensures !ok ==> savedRight == old(savedRight)
      ensures ok ==> savedRight == Some(SavedZIndex(old(layer.zIndex)))
      ensures !ok || options.noControl || m.None? ==>
                left == old(left) && right == old(right) && synced == old(synced) && trace.fired == old(trace.fired)
      ensures !ok || options.noControl || m.None? ==>
                forall l: Layer :: l in old(Layers()) || l == layer ==> l.CurrentStyle() == old(l.CurrentStyle())
      ensures ok && !options.noControl && m.Some? ==>
                synced && left == Effective(userLeft, m.value) && right == Effective(userRight, m.value)
      ensures ok && !options.noControl && m.Some? ==>
                trace.fired == old(trace.fired) + old(Retargeted(Right, layer, m.value)).Events()
      ensures ok && !options.noControl && m.Some? ==> forall l: Layer :: l in old(Layers()) || l == layer ==>
                l.CurrentStyle() == Replay(old(Retargeted(Right, layer, m.value)).Writes(), l, old(l.CurrentStyle()))
    {
      userRight := layer;
      if layer == null {
        return false;
      }
      savedRight := Some(SavedZIndex(layer.zIndex));
      if !options.noControl {
        ghost var shown := Layers();
        if m.Some? {
          assert Planned(m.value) == old(Retargeted(Right, layer, m.value));
        }
        UpdateLayers(m);
        if m.Some? {
          ghost var u := old(Retargeted(Right, layer, m.value));
          forall l: Layer | l in old(Layers()) && l !in shown
            ensures l.CurrentStyle() == Replay(u.Writes(), l, old(l.CurrentStyle()))
          {
            UntouchedLayer(u, l, old(l.CurrentStyle()));
          }
        }
      }
      ok := true;
    }

    /** The map's `move` while the control listens: the clip is redone for the new viewport. */
    method OnMove(hm: HostMap)
      requires Valid()
      modifies trace, Layers()
      ensures trace.fired == old(trace.fired) + if listening then DividerEvents(DividerOf(hm)) else []
      ensures forall l: Layer :: l in Layers() ==>
                l.CurrentStyle() == if listening then Replay(ClipWrites(left, right, DividerOf(hm), hm), l, old(l.CurrentStyle()))
                                    else old(l.CurrentStyle())
    {
      if listening {
        ghost var before := Styles(Layers() - {null});
        assert Tracks(before, []);
        UpdateClip(hm, before, []);
        assert [] + ClipWrites(left, right, DividerOf(hm), hm) == ClipWrites(left, right, DividerOf(hm), hm);
      } else {
        assert old(trace.fired) + [] == old(trace.fired);
      }
    }

    /** The slider's input while the control listens: the slider holds `v` and the clip is redone. */
    method OnRangeInput(v: real, hm: HostMap)
      requires Valid() && 0.0 <= v <= 1.0
      modifies this, trace, Layers()
      ensures Valid()
      ensures range == if old(listening) then Some(v) else old(range)
      ensures (active, userLeft, userRight, savedLeft, savedRight, listening) == old((active, userLeft, userRight, savedLeft, savedRight, listening))
      ensures left == old(left) && right == old(right) && synced == old(synced)
      ensures trace.fired == old(trace.fired) + if listening then DividerEvents(DividerOf(hm)) else []
      ensures forall l: Layer :: l in Layers() ==>
                l.CurrentStyle() == if listening then Replay(ClipWrites(left, right, DividerOf(hm), hm), l, old(l.CurrentStyle()))
                                    else old(l.CurrentStyle())
    {
      if listening {
        range := Some(v);
        OnMove(hm);
      } else {
        assert old(trace.fired) + [] == old(trace.fired);
      }
    }
  }

  /**
   * Once synchronised on a map, the next synchronisation on the same map
   * changes no side: it emits only `dividermove`, and only raises and
   * clips the shown layers again.
   */
  lemma SecondUpdateQuiet(c: SwipeModeControl, m: HostMap)
    requires c.synced && c.left == Effective(c.userLeft, m) && c.right == Effective(c.userRight, m)
    ensures c.Planned(m).Events() == DividerEvents(c.DividerOf(m))
    ensures c.Planned(m).Writes() == c.Planned(m).Refresh()
  {
    QuietWhenUnchanged(c.Planned(m));
  }

  /**
   * Choosing a new layer for a side saves its z-index before the
   * synchronisation restores the side's previous layer, so the previous
   * layer, when it ends on no side, gets the new layer's saved z-index.
   */
  lemma ReplacedLayerGetsNewSaved(c: SwipeModeControl, side: Side, layer: Layer, m: HostMap, s: Style)
    requires c.left != c.right
    requires side == Left ==> c.left != null && c.left != Effective(layer, m) && c.left != Effective(c.userRight, m)
    requires side == Right ==> c.right != null && c.right != Effective(layer, m) && c.right != Effective(c.userLeft, m)
    ensures Replay(c.Retargeted(side, layer, m).Writes(), if side == Left then c.left else c.right, s).zIndex
              == Some(SavedZIndex(layer.zIndex))
  {
    if side == Left {
      RestoredLeftGetsSaved(c.Retargeted(side, layer, m), s);
    } else {
      RestoredRightGetsSaved(c.Retargeted(side, layer, m), s);
    }
  }

  /** `_enable` synchronises with re-entry and with the divider at the map's centre line. */
  lemma EnablingAtCentre(c: SwipeModeControl, m: HostMap)
    ensures c.Enabling(m).reentrant && c.Enabling(m).divider == Some(m.width / 2.0)
    ensures c.Enabling(m).left == Effective(c.userLeft, m) && c.Enabling(m).right == Effective(c.userRight, m)
  {
    DividerAtHalf(m.width, c.options.padding, c.options.thumbSize);
  }

  /**
   * Choosing for a side, on the same map, the layer already chosen for it
   * changes no side: the synchronisation fires no add or remove event,
   * only `dividermove`.
   */
  lemma ReselectedSideQuiet(c: SwipeModeControl, side: Side, layer: Layer, m: HostMap)
    requires c.synced && c.left == Effective(c.userLeft, m) && c.right == Effective(c.userRight, m)
    requires side == Left ==> c.userLeft == layer
    requires side == Right ==> c.userRight == layer
    ensures c.Retargeted(side, layer, m).Events() == DividerEvents(c.DividerOf(m))
  {
    QuietWhenUnchanged(c.Retargeted(side, layer, m));
  }

  /**
   * Turning swipe mode off keeps the slider, and the synchronisation does
   * not ask whether the mode is on: choosing a left layer on a map while
   * the mode is off still raises it to the top and clips it to the left
   * of the divider.
   */
  lemma SetterWhileOffShowsLayer(c: SwipeModeControl, layer: Layer, m: HostMap, s: Style)
    requires c.Valid() && !c.active && !c.listening && c.range.Some?
    requires HasLayer(m, layer) && layer != c.right && layer != Effective(c.userRight, m)
    ensures Replay(c.Retargeted(Left, layer, m).Writes(), layer, s)
              == Style(Some(MaxZIndex), Some(ClipRects(m.nw, m.se, c.DividerOf(m).value).left))
  {
    var u := c.Retargeted(Left, layer, m);
    RaisedUnlessRestored(u, layer, s);
    ClipsAfterUpdate(u, s);
  }
}
