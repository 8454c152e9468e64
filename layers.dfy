/**
 * Map layers as the swipe control sees them: an identity, a stacking
 * order and a clip on the layer's container. A change to a layer is a
 * `Write`; what a layer shows after a run of writes is `Replay`.
 */
module Layers {
  import opened Wrappers
  import opened SwipeGeometry

  /** What a layer's container shows: its z-index (`None` is undefined) and its CSS clip (`None` is ""). */
  datatype Style = Style(zIndex: Option<int>, clip: Option<Rect>)

  class Layer {
    /** The identifier Leaflet stamps on the layer (`_leaflet_id`). */
    const id: int
    /** `options.zIndex`, which Leaflet's `setZIndex` overwrites. */
    var zIndex: Option<int>
    /** The clip style of the layer's container. */
    var clip: Option<Rect>

    constructor (id: int, zIndex: Option<int>)
      ensures this.id == id && this.zIndex == zIndex && clip == None
    {
      this.id := id;
      this.zIndex := zIndex;
      clip := None;
    }

    function CurrentStyle(): Style
      reads this
    {
      Style(zIndex, clip)
    }
  }

  /** One change to one layer: a `setZIndex` call or an assignment to its container's clip. */
  datatype Write = SetZIndex(target: Layer, z: Option<int>) | SetClip(target: Layer, rect: Option<Rect>)

  /** The effect of one write on layer `l`, whose style was `s`. */
  function Step(w: Write, l: Layer, s: Style): Style
  {
    if w.target != l then s
    else match w
      case SetZIndex(_, z) => s.(zIndex := z)
      case SetClip(_, c) => s.(clip := c)
  }

  /** The style of `l` after the writes `ws`, in order, starting from `s`. */
  function Replay(ws: seq<Write>, l: Layer, s: Style): Style
  {
    if ws == [] then s else Step(ws[|ws| - 1], l, Replay(ws[..|ws| - 1], l, s))
  }

  /** The styles of the given layers, as a snapshot. */
  ghost function Styles(ls: set<Layer>): (m: map<Layer, Style>)
    reads ls
    ensures m.Keys == ls
    ensures forall l :: l in ls ==> m[l] == l.CurrentStyle()
  {
    map l | l in ls :: l.CurrentStyle()
  }

  /** Replaying two runs of writes is replaying the first, then the second. */
  lemma {:induction false} ReplayAppend(a: seq<Write>, b: seq<Write>, l: Layer, s: Style)
    ensures Replay(a + b, l, s) == Replay(b, l, Replay(a, l, s))
    decreases |b|
  {
    if b == [] {
      assert a + b == a;
    } else {
      var b' := b[..|b| - 1];
      assert (a + b)[..|a + b| - 1] == a + b';
      ReplayAppend(a, b', l, s);
    }
  }

  /** Writes aimed at other layers leave `l` as it was. */
  lemma {:induction false} ReplayUntouched(ws: seq<Write>, l: Layer, s: Style)
    requires forall i :: 0 <= i < |ws| ==> ws[i].target != l
    ensures Replay(ws, l, s) == s
  {
    if ws != [] {
      ReplayUntouched(ws[..|ws| - 1], l, s);
    }
  }

  /** The value of the last z-index write to `l` in `ws`, if there is one. */
  function LastZIndexWrite(ws: seq<Write>, l: Layer): Option<Option<int>>
  {
    if ws == [] then None
    else if ws[|ws| - 1].SetZIndex? && ws[|ws| - 1].target == l then Some(ws[|ws| - 1].z)
    else LastZIndexWrite(ws[..|ws| - 1], l)
  }

  /** The value of the last clip write to `l` in `ws`, if there is one. */
  function LastClipWrite(ws: seq<Write>, l: Layer): Option<Option<Rect>>
  {
    if ws == [] then None
    else if ws[|ws| - 1].SetClip? && ws[|ws| - 1].target == l then Some(ws[|ws| - 1].rect)
    else LastClipWrite(ws[..|ws| - 1], l)
  }

  /** After a run of writes, each property of a layer holds the last value written to it, or its old value. */
  lemma {:induction false} ReplayIsLastWrite(ws: seq<Write>, l: Layer, s: Style)
    ensures Replay(ws, l, s).zIndex == if LastZIndexWrite(ws, l).Some? then LastZIndexWrite(ws, l).value else s.zIndex
    ensures Replay(ws, l, s).clip == if LastClipWrite(ws, l).Some? then LastClipWrite(ws, l).value else s.clip
  {
    if ws != [] {
      ReplayIsLastWrite(ws[..|ws| - 1], l, s);
    }
  }

  /** The last write in `a + b` is the last in `b`, or, when `b` writes nothing there, the last in `a`. */
  lemma {:induction false} LastWriteAppend(a: seq<Write>, b: seq<Write>, l: Layer)
    ensures LastZIndexWrite(a + b, l) == if LastZIndexWrite(b, l).Some? then LastZIndexWrite(b, l) else LastZIndexWrite(a, l)
    ensures LastClipWrite(a + b, l) == if LastClipWrite(b, l).Some? then LastClipWrite(b, l) else LastClipWrite(a, l)
    decreases |b|
  {
    if b == [] {
      assert a + b == a;
    } else {
      var b' := b[..|b| - 1];
      assert (a + b)[..|a + b| - 1] == a + b';
      LastWriteAppend(a, b', l);
    }
  }

  lemma {:induction false} NoZIndexWrite(ws: seq<Write>, l: Layer)
    requires forall i :: 0 <= i < |ws| ==> !(ws[i].SetZIndex? && ws[i].target == l)
    ensures LastZIndexWrite(ws, l) == None
  {
    if ws != [] {
      NoZIndexWrite(ws[..|ws| - 1], l);
    }
  }

  lemma {:induction false} NoClipWrite(ws: seq<Write>, l: Layer)
    requires forall i :: 0 <= i < |ws| ==> !(ws[i].SetClip? && ws[i].target == l)
    ensures LastClipWrite(ws, l) == None
  {
    if ws != [] {
      NoClipWrite(ws[..|ws| - 1], l);
    }
  }

  /**
   * The layers of `before` showed the styles recorded there, and `done`
   * holds the writes performed on them since.
   */
  ghost predicate Tracks(before: map<Layer, Style>, done: seq<Write>)
    reads before.Keys
  {
    forall l :: l in before ==> l.CurrentStyle() == Replay(done, l, before[l])
  }

  /** Performs one write, which joins the writes `done` tracked from `before`. */
  method Perform(w: Write, ghost done: seq<Write>, ghost before: map<Layer, Style>)
    requires Tracks(before, done)
    modifies w.target
    ensures Tracks(before, done + [w])
  {
    match w
    case SetZIndex(x, z) => x.zIndex := z;
    case SetClip(x, c) => x.clip := c;
    forall l | l in before
      ensures l.CurrentStyle() == Replay(done + [w], l, before[l])
    {
      assert (done + [w])[..|done|] == done;
    }
  }
}
