# Leaflet.SwipeMode in Dafny

A model of `L.Control.SwipeMode`, the Leaflet control that compares two map
layers across a vertical divider, and of its two helpers `findLayerById`
and `getRangeEvent`.

The control remembers a layer chosen by the user for each side. Each side
shows its chosen layer only while the map holds it. The shown layers are
raised to z-index 9999, and each is clipped to its side of the divider. A
layer that stops being shown on a side gets that side's saved z-index
back. The divider follows a slider whose value runs from 0 to 1.

Modules:

- `SwipeGeometry` (`geometry.dfy`): the divider offset for a slider value,
  and the two clip rectangles it cuts the viewport into. Pixel quantities
  are exact reals.
- `Layers` (`layers.dfy`): a map layer is a `class` with its Leaflet
  identifier, its `zIndex` option and its container's clip.
  - A change to a layer is a `Write`.
  - `Replay` gives what a layer shows after a run of writes.
  - `Perform` makes one write in place. The predicate `Tracks` follows the
    styles of a set of layers through the writes performed so far.
- `SwipeSync` (`sync.dfy`): what one run of `_updateLayers` does, as
  values.
  - An `Update` records the sides' layers before and after, the saved
    z-indices, whether the control listens to `swipemode:newlayer`, the
    divider and the map.
  - `Update.Events()` and `Update.Writes()` are the events fired and the
    layer writes made, in order.
  - The lemmas say what these sequences leave each layer showing.
- `SwipeControl` (`control.dfy`): the control as a `class` whose methods
  update its fields and the layers in place. Events are appended to an
  `EventTrace` object's `fired` log.
  - `_updateLayers` is proved equal to the `Update` planned from the
    state at entry.
  - Firing `swipemode:newlayer` re-enters `_updateLayers` while the control
    listens. The model runs that nested synchronisation too, and proves that
    it changes no side.
- `SwipeUtils` (`utils.dfy`): `getRangeEvent`, and `findLayerById`, which
  includes `parseInt(id, 10)`.

The host map is a value `HostMap`. It holds the identifiers of the layers
on the map, the map's width in pixels, and the viewport's corners in layer
pixels. Methods that the source runs against `this._map` take an
`Option<HostMap>`, where `None` means the control was never added to a map.

Behaviours of the code that may surprise a caller. The model reproduces
each of them:

- There is no separate activate or deactivate. Each `toggle` flips the
  flag and runs `_enable` or `_disable` according to the old value, so a
  second call turns the mode off.
- Some public operations throw a TypeError:
  - `toggle` on a control never added to a map, after flipping the flag;
  - `setLeftLayer(null)` and `setRightLayer(null)`, after storing `null`,
    with or without a map;
  - a setter on a map before the first activation, where `_updateClip`
    reads the slider that does not exist yet.
- The divider offset is non-decreasing in the slider value only when the
  map is at least `2·padding + thumbSize` wide (`DividerFallsOnNarrowMap`).
- The control does not listen to the map's layer add and remove events.
  It only synchronises when it is turned on, when a side's layer is set,
  and on its own `swipemode:newlayer`.
- Left-side layer events are fired on the map, but right-side ones are
  fired on the control.
- A setter saves the new layer's z-index before the synchronisation
  restores the side's previous layer. The previous layer therefore gets
  the new layer's z-index (`ReplacedLayerGetsNewSaved`).
- Choosing again the layer a side already shows saves the z-index the
  control raised it to, 9999. Turning swipe mode off later gives the layer
  9999 back, not its own z-index (`ReselectedLeftKeepsRaise`).
- A control turned on before it is added to a map does not build its slider then.
  Turning it off later, on a map, restores the layers, then throws where
  `_disable` removes the missing container, so `stop` is not fired.
- Replacing a side's layer gives the previous layer its saved z-index but
  not its clip: a layer no longer shown keeps the clip rectangle it had
  (`ReplacedKeepsClip`).
- Turning swipe mode off keeps the slider, and the synchronisation does
  not look at whether the mode is on. A setter on a map while the mode is
  off still raises the new layer to 9999 and clips both sides
  (`SetterWhileOffShowsLayer`).
- Choosing for a side the layer it already has fires no add or remove
  event, only `dividermove` (`ReselectedSideQuiet`).

## Model

| member | source | states |
|---|---|---|
| SwipeGeometry.DividerPosition | src/leaflet.swipemode.js:108-113 | the offset is the map's centre line moved by `(v − 0.5)` times the width minus `2·padding + thumbSize` |
| SwipeGeometry.DividerAtHalf | src/leaflet.swipemode.js:108-113 | at slider value 0.5 the divider is at `W/2`, whatever the padding and thumb size |
| SwipeGeometry.DividerAtEnds | src/leaflet.swipemode.js:108-113 | at 0 the divider is a padding plus half a thumb in from the left edge, at 1 the same distance in from the right edge |
| SwipeGeometry.DividerDefaultsExample | src/leaflet.swipemode.js:108-113 | with the default 42-pixel thumb and no padding on a 1000-pixel map: 21, 500 and 979 at values 0, 0.5 and 1 |
| SwipeGeometry.DividerMonotone | src/leaflet.swipemode.js:110-112 | the offset is non-decreasing in the slider value when the map is at least as wide as `2·padding + thumbSize` |
| SwipeGeometry.DividerFallsOnNarrowMap | src/leaflet.swipemode.js:110-112 | on a 10-pixel map with the default thumb the offset falls from 21 to −11 as the value goes from 0 to 1 |
| SwipeGeometry.DividerWithinTrack | src/leaflet.swipemode.js:110-112 | for values in [0, 1] the divider stays between its two extreme positions |
| SwipeGeometry.ClipRects | src/leaflet.swipemode.js:172-183 | left rectangle (nw.y, clipX, se.y, nw.x) and right rectangle (nw.y, se.x, se.y, clipX) share the edge `clipX = nw.x + d` |
| SwipeGeometry.ClipRectsTileViewport | src/leaflet.swipemode.js:172-183 | with the divider in the viewport, every viewport point is in one of the rectangles, none is strictly inside both, and their widths add up to the viewport's |
| Layers.Perform | src/leaflet.swipemode.js:185-190 | one `setZIndex` or clip assignment changes only its target, and the tracked styles then equal the replay of the writes so far |
| SwipeSync.SavedZIndex | src/leaflet.swipemode.js:30 | the saved z-index is the layer's `zIndex` when that is truthy, otherwise 1, so it is never 0 |
| SwipeSync.ReselectedLeftKeepsRaise | src/leaflet.swipemode.js:90-92 | choosing again the left side's shown layer after a re-entrant synchronisation saves 9999, and turning off (:156-158) then leaves that layer at 9999 with no clip |
| SwipeSync.Effective | src/leaflet.swipemode.js:204-212 | a side shows the chosen layer exactly when the map holds it, otherwise nothing |
| SwipeSync.SideEvents | src/leaflet.swipemode.js:214-230 | no event for an unchanged side; for a changed side `newlayer` first and the removal of the previous layer and the addition of the new one last |
| SwipeSync.RaiseWrites | src/leaflet.swipemode.js:204-212 | raising writes z-index 9999 to the shown layer only |
| SwipeSync.ClipWrites | src/leaflet.swipemode.js:185-190 | clipping writes clips only, and only to the two shown layers |
| SwipeSync.QuietWhenUnchanged | src/leaflet.swipemode.js:214-232 | a synchronisation that changes no side fires only `dividermove` and only raises and clips the shown layers |
| SwipeSync.ChangedSideEvents | src/leaflet.swipemode.js:214-221 | a left change fires `newlayer`, `leftlayerremove(prev)` and `leftlayeradd(new)`, all on the map |
| SwipeSync.ChangedRightSideEvents | src/leaflet.swipemode.js:223-230 | a right change fires `newlayer` on the map, then `rightlayerremove` and `rightlayeradd` on the control |
| SwipeSync.RefreshRaises | src/leaflet.swipemode.js:204-212 | the nested synchronisation leaves both shown layers at 9999 |
| SwipeSync.ReentrantKeepsSidesRaised | src/leaflet.swipemode.js:204-230 | while the control listens, every shown layer ends the synchronisation at 9999 |
| SwipeSync.RaisedUnlessRestored | src/leaflet.swipemode.js:204-230 | without re-entry, a shown layer ends at 9999 unless it is also the previous layer of a changed side |
| SwipeSync.MovedAcrossLosesRaise | src/leaflet.swipemode.js:204-217 | without re-entry, a layer moved from the left side to the right side ends at the left saved z-index, not at 9999 |
| SwipeSync.RestoredLeftGetsSaved | src/leaflet.swipemode.js:214-217 | a replaced left layer that is shown nowhere gets the left saved z-index |
| SwipeSync.RestoredRightGetsSaved | src/leaflet.swipemode.js:223-226 | a replaced right layer that is shown nowhere gets the right saved z-index |
| SwipeSync.Update.Writes | src/leaflet.swipemode.js:193-233 | the writes of one `_updateLayers` run touch only the sides' previous and current layers, and only the current ones get clips |
| SwipeSync.Update.Events | src/leaflet.swipemode.js:193-233 | the events of one run: none exactly when no side changed and there is no slider; `dividermove` last when there is a slider; `newlayer` first when the left side changed |
| SwipeSync.ReplacedKeepsClip | src/leaflet.swipemode.js:214-217 | a layer shown on neither side after the run keeps its clip; only its z-index is restored |
| SwipeSync.UntouchedLayer | src/leaflet.swipemode.js:193-233 | a layer that is neither a previous nor a current side's layer is left exactly as it was |
| SwipeSync.ClipsAfterUpdate | src/leaflet.swipemode.js:182-190 | with a slider, the right layer ends clipped east of the divider and the left one west of it, unless one layer is on both sides |
| SwipeSync.DisableWrites | src/leaflet.swipemode.js:156-164 | turning off writes only to the two sides' layers: each gets its own side's saved z-index, and every clip written is empty |
| SwipeSync.DisableRestores | src/leaflet.swipemode.js:156-164 | turning off leaves each side's layer with its side's saved z-index and no clip (the right side wins for a shared layer) and touches no other layer |
| SwipeSync.EnabledSidesShown | src/leaflet.swipemode.js:144-148 | a re-entrant synchronisation with the divider at the centre leaves every shown layer at 9999 and clipped to its half of the map |
| SwipeControl.Raise | src/leaflet.swipemode.js:206 | raises a shown layer, if any, and the tracked styles follow |
| SwipeControl.Restore | src/leaflet.swipemode.js:215-217 | gives a previous layer, if any, the side's saved z-index |
| SwipeControl.Unclip | src/leaflet.swipemode.js:156-159 | gives a side's layer its saved z-index and an empty clip |
| SwipeControl.SwipeModeControl.constructor | src/leaflet.swipemode.js:23-40 | off, no sides yet, the given layers chosen, and a z-index saved for each layer given |
| SwipeControl.SwipeModeControl.UpdateClip | src/leaflet.swipemode.js:171-191 | fires `dividermove` with the offset and clips the shown layers; does nothing before the slider exists |
| SwipeControl.SwipeModeControl.UpdateLayers | src/leaflet.swipemode.js:193-233 | without a map nothing changes; otherwise each side shows the chosen layer if the map holds it, and the events and layer writes are exactly those of the `Update` planned from the entry state |
| SwipeControl.SwipeModeControl.Synchronise | src/leaflet.swipemode.js:198-232 | the body of `_updateLayers` on a map, with the same result as `UpdateLayers` |
| SwipeControl.SwipeModeControl.Run | src/leaflet.swipemode.js:198-232 | from tracked styles, the events and writes are the planned `Update`'s |
| SwipeControl.SwipeModeControl.RaiseSides | src/leaflet.swipemode.js:201-212 | assigns both sides and raises the shown layers, the left first |
| SwipeControl.SwipeModeControl.Finish | src/leaflet.swipemode.js:214-232 | the two sides' steps, then the clip |
| SwipeControl.SwipeModeControl.SyncSides | src/leaflet.swipemode.js:214-230 | the left side's step, then the right side's |
| SwipeControl.SwipeModeControl.SyncSide | src/leaflet.swipemode.js:214-221 | nothing for an unchanged side |
| SwipeControl.SwipeModeControl.ChangeSide | src/leaflet.swipemode.js:214-221 | a changed side restores its previous layer, then fires its events |
| SwipeControl.SwipeModeControl.Announce | src/leaflet.swipemode.js:218-220 | `newlayer`, the nested synchronisation's events, then the removal and the addition |
| SwipeControl.SwipeModeControl.Reenter | src/leaflet.swipemode.js:253 | the `newlayer` listener re-runs the synchronisation, which changes no side and only raises and clips again |
| SwipeControl.SwipeModeControl.Enabled | src/leaflet.swipemode.js:74-76 | true exactly when swipe mode is on |
| SwipeControl.SwipeModeControl.Toggle | src/leaflet.swipemode.js:78-88 | flips the flag; turning on enables and the map fires `start`; turning off disables and the map fires `stop` only when the slider exists (otherwise `_disable` throws at :168); without a map only the flag changes |
| SwipeControl.SwipeModeControl.Enable | src/leaflet.swipemode.js:115-149 | slider at 0.5, listening, then a re-entrant synchronisation |
| SwipeControl.SwipeModeControl.Disable | src/leaflet.swipemode.js:151-169 | without a map nothing; otherwise each side's layer gets its saved z-index and no clip, the listeners go, and the sides are kept |
| SwipeControl.SwipeModeControl.SetLeftLayer | src/leaflet.swipemode.js:90-97 | stores the layer; null fails after storing it; otherwise saves the layer's z-index first and then synchronises, unless `noControl` is set or there is no map |
| SwipeControl.SwipeModeControl.SetRightLayer | src/leaflet.swipemode.js:99-106 | the same for the right side |
| SwipeControl.SwipeModeControl.OnMove | src/leaflet.swipemode.js:251 | while listening, a map move redoes the clip; nothing else changes |
| SwipeControl.SwipeModeControl.OnRangeInput | src/leaflet.swipemode.js:255-260 | while listening, the slider takes the new value and the clip is redone |
| SwipeControl.ReselectedSideQuiet | src/leaflet.swipemode.js:90-105 | choosing on the same map the layer a side already has fires only `dividermove` (both setters) |
| SwipeControl.SetterWhileOffShowsLayer | src/leaflet.swipemode.js:193-233 | while the mode is off, with the slider kept by `_disable`, a left setter on a map leaves the new layer at 9999 clipped to the left of the divider |
| SwipeControl.SecondUpdateQuiet | src/leaflet.swipemode.js:214-230 | after a synchronisation on a map, the next one on the same map fires only `dividermove` and only raises and clips again |
| SwipeControl.ReplacedLayerGetsNewSaved | src/leaflet.swipemode.js:92 | after a setter, the side's previous layer, when shown nowhere, gets the new layer's saved z-index |
| SwipeControl.EnablingAtCentre | src/leaflet.swipemode.js:144 | `_enable`'s synchronisation re-enters and puts the divider at the map's centre line |
| SwipeUtils.GetRangeEvent | src/swipemode.utils.js:1-3 | "input" exactly when the element has `oninput`, "change" otherwise |
| SwipeUtils.ParseInt10 | src/swipemode.utils.js:9 | `parseInt(id, 10)`: NaN exactly when no digit follows the leading white space and an optional sign; a negative result only after a minus sign |
| SwipeUtils.TrimStart | src/swipemode.utils.js:9 | drops exactly the leading white space |
| SwipeUtils.LeadingDigits | src/swipemode.utils.js:9 | the longest all-digit prefix |
| SwipeUtils.ParseDecimalRoundTrip | src/swipemode.utils.js:9 | `parseInt` of an integer's decimal text gives the integer back |
| SwipeUtils.ParseDecimalString | src/swipemode.utils.js:9 | the same with any non-digit text after the number |
| SwipeUtils.ParseNaNExamples | src/swipemode.utils.js:9 | "" and "px" parse to NaN |
| SwipeUtils.ParseUnitExample | src/swipemode.utils.js:9 | "12px" parses to 12 |
| SwipeUtils.LastMatch | src/swipemode.utils.js:8-12 | the reference for the scan: a result is one of the layers and carries the target identifier |
| SwipeUtils.FindLayerById | src/swipemode.utils.js:5-15 | the scan returns the last layer whose identifier equals the parsed id, or null |
| SwipeUtils.LastMatchNull | src/swipemode.utils.js:5-15 | the result is null exactly when no layer has the parsed id |
| SwipeUtils.LastMatchIsLast | src/swipemode.utils.js:8-12 | a result has the parsed id, and no later layer does |
| SwipeUtils.NaNMatchesNothing | src/swipemode.utils.js:9 | an id that parses to NaN finds nothing |
| SwipeUtils.FindsByDecimalId | src/swipemode.utils.js:5-15 | looking a layer up by the text of its own identifier finds a layer with that identifier |

## Left out

- DOM construction is not modelled: `onAdd`, the elements `_enable` creates, `_openLayerSelector`, `_closeLayerSelector` and `src/swipemode.dom.js`. They only build the user interface.
- `setPosition` is not modelled; it does nothing.
- Listener wiring in `_addEvents` and `_removeEvents` is the flag `listening`.
  - The drag handlers `_enableMapDrag` and `_cancelMapDrag` are left out; they only switch the map's dragging.
- The `style.left` strings of the divider and its button are left out. Only the offset carried by `dividermove` is kept.
- CSS `rect(...)` strings are not modelled. Clip rectangles are `Rect` values, and the empty clip is `None`.
- Pixel numbers and the slider value are exact reals, not IEEE doubles.
  - `getSize` and `containerPointToLayerPoint` are inputs, in `HostMap`.
- `parseInt` is modelled only for base 10.
  - The model gives the exact integer; JavaScript loses precision beyond 2^53.
  - The layer picker supplies the identifier text. It is not part of this model.
- Other code listening to the control's events is not modelled. Only the control's own `newlayer` listener runs when an event fires.
- JavaScript `undefined` is `null` for layer references. The one exception is the sides before their first synchronisation, which the flag `synced` tells apart.
- Leaflet's `setZIndex` is one assignment to the layer's `zIndex`. Its redrawing of the container is not modelled.
- Options `position`, `text` and `button` are not modelled. They only affect `onAdd` and labels.
- SwipeControl.SwipeModeControl.Toggle: the TypeError thrown without a map is not returned to the caller. The model stops where the source throws.
- SwipeControl.SwipeModeControl.Disable: when the slider was never built, `_disable` throws at `L.DomUtil.remove` after the restores and the listener removal. The model stops there too and reports nothing; `Toggle` then fires no `stop`.
- SwipeControl.SwipeModeControl.SetLeftLayer: before the first activation, `_updateLayers` ends with a TypeError in `_updateClip`. The model stops there too, but `ok` is still true.
- SwipeControl.SwipeModeControl.SetRightLayer: before the first activation on a map, `_updateLayers` ends with a TypeError in `_updateClip` (:174). The model stops there too, but `ok` is still true.
- SwipeControl.SwipeModeControl.UpdateClip: its TypeError before the slider exists is modelled as doing nothing.
- SwipeControl.SwipeModeControl.OnRangeInput: requires a value in [0, 1], which a range input with `min` 0 and `max` 1 guarantees.
