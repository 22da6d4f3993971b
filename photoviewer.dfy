/** The photo viewer panel of the map editor: its three resize handles, the
    rule that shrinks it when the map is resized, and the button that copies
    the viewer's current photo id into the selected features' tags.

    Sizes and pointer positions are whole pixels. Browser layout (measured
    sizes, CSS padding) and the imagery service (is the viewer open, which
    image is active) are inputs. */
module PhotoViewer {
  import opened Wrappers

  /** Space kept free at the top and bottom of the map for its menus. */
  const MapMargin: int := 90
  const DefaultMinHeight: int := 240
  const DefaultMinWidth: int := 320
  /** Beyond this distance (metres) from the active image a feature is "too far". */
  const TooFarMeters: real := 100.0
  const MapillaryTag: string := "mapillary"

  datatype Size = Size(width: int, height: int)

  // ---------------------------------------------------------------------------
  // Resize arithmetic

  /** `Math.max(min, Math.min(num, max))`: when the bounds cross, `min` wins. */
  function Clamp(num: int, min: int, max: int): (r: int)
    ensures min <= r
    ensures min <= max ==> r <= max
    ensures max < min ==> r == min
    ensures min <= num <= max ==> r == num
    ensures num <= min ==> r == min
    ensures min <= max <= num ==> r == max
  {
    var lower := if num < max then num else max;
    if min > lower then min else lower
  }

  /** The options a handle is built with; an omitted minimum is `None`. */
  datatype ResizeOptions = ResizeOptions(resizeOnX: bool, resizeOnY: bool, minHeight: Option<int>, minWidth: Option<int>)

  /** The settings a resize listener works with once defaults are filled in. */
  datatype Settings = Settings(resizeOnX: bool, resizeOnY: bool, minHeight: int, minWidth: int)

  /** JavaScript's `v || fallback` on an optional number: both `undefined` and 0 are falsy. */
  function OrElse(v: Option<int>, fallback: int): int
  {
    if v.Some? && v.value != 0 then v.value else fallback
  }

  function SettingsOf(o: ResizeOptions): (s: Settings)
    ensures s.resizeOnX == o.resizeOnX && s.resizeOnY == o.resizeOnY
    ensures o.minHeight == None || o.minHeight == Some(0) ==> s.minHeight == DefaultMinHeight
    ensures o.minWidth == None || o.minWidth == Some(0) ==> s.minWidth == DefaultMinWidth
    ensures o.minHeight.Some? && o.minHeight.value != 0 ==> s.minHeight == o.minHeight.value
    ensures o.minWidth.Some? && o.minWidth.value != 0 ==> s.minWidth == o.minWidth.value
  {
    Settings(o.resizeOnX, o.resizeOnY, OrElse(o.minHeight, DefaultMinHeight), OrElse(o.minWidth, DefaultMinWidth))
  }

  /** The three handles: the corner one, the side one and the top one. */
  datatype Handle = HandleXY | HandleX | HandleY

  function HandleOptions(h: Handle): ResizeOptions
  {
    match h
    case HandleXY => ResizeOptions(true, true, None, None)
    case HandleX => ResizeOptions(true, false, None, None)
    case HandleY => ResizeOptions(false, true, None, None)
  }

  /** The x handle resizes only the width, the y handle only the height, the
      corner handle both; none of them sets a minimum, so the defaults apply. */
  lemma HandleSettings(h: Handle)
    ensures SettingsOf(HandleOptions(h)).resizeOnX <==> h != HandleY
    ensures SettingsOf(HandleOptions(h)).resizeOnY <==> h != HandleX
    ensures SettingsOf(HandleOptions(h)).minWidth == DefaultMinWidth
    ensures SettingsOf(HandleOptions(h)).minHeight == DefaultMinHeight
  {
  }

  /** The pointer position and panel size captured when a drag begins. */
  datatype Grip = Grip(x: int, y: int, width: int, height: int)

  /** The panel size a pointer move at (clientX, clientY) produces: the width
      follows the pointer rightwards, the height follows it upwards, each
      clamped between its minimum and the map (less the margin, for height). */
  function Resized(s: Settings, g: Grip, current: Size, clientX: int, clientY: int, mapSize: Size): (r: Size)
    ensures !s.resizeOnX ==> r.width == current.width
    ensures !s.resizeOnY ==> r.height == current.height
    ensures s.resizeOnX ==> s.minWidth <= r.width
    ensures s.resizeOnX && s.minWidth <= mapSize.width ==> r.width <= mapSize.width
    ensures s.resizeOnX && mapSize.width < s.minWidth ==> r.width == s.minWidth
    ensures s.resizeOnY ==> s.minHeight <= r.height
    ensures s.resizeOnY && s.minHeight <= mapSize.height - MapMargin ==> r.height <= mapSize.height - MapMargin
    ensures s.resizeOnY && mapSize.height - MapMargin < s.minHeight ==> r.height == s.minHeight
    ensures s.resizeOnX && s.minWidth <= g.width + clientX - g.x <= mapSize.width ==> r.width == g.width + clientX - g.x
    ensures s.resizeOnY && s.minHeight <= g.height + g.y - clientY <= mapSize.height - MapMargin ==> r.height == g.height + g.y - clientY
    ensures s.resizeOnX && g.width + clientX - g.x <= s.minWidth ==> r.width == s.minWidth
    ensures s.resizeOnX && s.minWidth <= mapSize.width <= g.width + clientX - g.x ==> r.width == mapSize.width
    ensures s.resizeOnY && g.height + g.y - clientY <= s.minHeight ==> r.height == s.minHeight
    ensures s.resizeOnY && s.minHeight <= mapSize.height - MapMargin <= g.height + g.y - clientY ==> r.height == mapSize.height - MapMargin
  {
    Size(
      if s.resizeOnX then Clamp(g.width + clientX - g.x, s.minWidth, mapSize.width) else current.width,
      if s.resizeOnY then Clamp(g.height + g.y - clientY, s.minHeight, mapSize.height - MapMargin) else current.height)
  }

  /** Moving the pointer right never narrows the panel; moving it down never makes it taller. */
  lemma ResizedMonotone(s: Settings, g: Grip, current: Size, x1: int, y1: int, x2: int, y2: int, mapSize: Size)
    requires x1 <= x2 && y1 <= y2
    ensures Resized(s, g, current, x1, y1, mapSize).width <= Resized(s, g, current, x2, y2, mapSize).width
    ensures Resized(s, g, current, x1, y1, mapSize).height >= Resized(s, g, current, x2, y2, mapSize).height
  {
  }

  /** Bringing the pointer back to where the drag began restores the size the
      panel had then, when that size was within bounds. */
  lemma ResizedAtGrip(s: Settings, g: Grip, mapSize: Size)
    requires s.resizeOnX && s.resizeOnY
    requires s.minWidth <= g.width <= mapSize.width
    requires s.minHeight <= g.height <= mapSize.height - MapMargin
    ensures forall current :: Resized(s, g, current, g.x, g.y, mapSize) == Size(g.width, g.height)
  {
  }

  // ---------------------------------------------------------------------------
  // Map resize

  /** The panel fits when it is no wider than the map and leaves the margin free. */
  predicate Fits(photo: Size, mapSize: Size)
  {
    photo.width <= mapSize.width && photo.height <= mapSize.height - MapMargin
  }

  /** None when the panel already fits; otherwise the largest size that fits
      and is no larger than the panel in either dimension. */
  function ShrinkToFit(photo: Size, mapSize: Size): (r: Option<Size>)
    ensures r.None? <==> Fits(photo, mapSize)
    ensures r.Some? ==> Fits(r.value, mapSize)
    ensures r.Some? ==> r.value.width <= photo.width && r.value.height <= photo.height
    ensures r.Some? && photo.width <= mapSize.width ==> r.value.width == photo.width
    ensures r.Some? && photo.height <= mapSize.height - MapMargin ==> r.value.height == photo.height
  {
    if photo.width > mapSize.width || photo.height > mapSize.height - MapMargin then
      Some(Size(
        if photo.width < mapSize.width then photo.width else mapSize.width,
        if photo.height < mapSize.height - MapMargin then photo.height else mapSize.height - MapMargin))
    else
      None
  }

  /** Shrinking twice is shrinking once. */
  lemma ShrinkToFitIdempotent(photo: Size, mapSize: Size)
    requires ShrinkToFit(photo, mapSize).Some?
    ensures ShrinkToFit(ShrinkToFit(photo, mapSize).value, mapSize) == None
  {
  }

  /** Every size that fits and is within the panel is within the shrunk panel. */
  lemma ShrinkToFitIsLargest(photo: Size, mapSize: Size, q: Size)
    requires Fits(q, mapSize) && q.width <= photo.width && q.height <= photo.height
    requires ShrinkToFit(photo, mapSize).Some?
    ensures q.width <= ShrinkToFit(photo, mapSize).value.width
    ensures q.height <= ShrinkToFit(photo, mapSize).value.height
  {
  }

  /** A corner-handle resize leaves a panel that the map-resize rule keeps, as
      long as the minimums themselves fit the map. */
  lemma ResizedFits(s: Settings, g: Grip, current: Size, clientX: int, clientY: int, mapSize: Size)
    requires s.resizeOnX && s.resizeOnY
    requires s.minWidth <= mapSize.width && s.minHeight <= mapSize.height - MapMargin
    ensures ShrinkToFit(Resized(s, g, current, clientX, clientY, mapSize), mapSize) == None
  {
  }

  /** The panel's CSS padding on each side, as read from the page. */
  datatype Padding = Padding(left: int, right: int, top: int, bottom: int)

  /** The size reported with a 'resize' event: the outer size less the padding
      on both sides, so that content and padding make up the outer size again. */
  function SubtractPadding(d: Size, p: Padding): (r: Size)
    ensures r.width + p.left + p.right == d.width
    ensures r.height + p.top + p.bottom == d.height
  {
    Size(d.width - p.left - p.right, d.height - p.top - p.bottom)
  }

  // ---------------------------------------------------------------------------
  // Set photo from viewer

  type EntityId = string

  datatype Loc = Loc(lon: real, lat: real)

  /** A feature of the map: its tags and the centre of its extent. */
  datatype Entity = Entity(tags: map<string, string>, center: Loc)

  type Graph = map<EntityId, Entity>

  /** The image the viewer is showing. */
  datatype Image = Image(id: string, loc: Loc)

  /** The `mapillary` tag, `undefined` when absent. */
  function TagOf(e: Entity): Option<string>
  {
    if MapillaryTag in e.tags then Some(e.tags[MapillaryTag]) else None
  }

  /** `activeImage?.id`. */
  function IdOf(active: Option<Image>): Option<string>
  {
    if active.Some? then Some(active.value.id) else None
  }

  /** `ids.map(id => graph.entity(id))`; None when some id is not in the graph (the lookup throws). */
  function Lookup(g: Graph, ids: seq<EntityId>): (r: Option<seq<Entity>>)
    ensures r.Some? <==> forall i :: 0 <= i < |ids| ==> ids[i] in g
    ensures r.Some? ==> |r.value| == |ids| && forall i :: 0 <= i < |ids| ==> r.value[i] == g[ids[i]]
  {
    if ids == [] then Some([])
    else if ids[0] !in g then None
    else
      match Lookup(g, ids[1..])
      case None => None
      case Some(rest) => Some([g[ids[0]]] + rest)
  }

  /** An entity with its `mapillary` tag set to `imageId`, every other tag kept. */
  function Tagged(e: Entity, imageId: string): Entity
  {
    e.(tags := e.tags[MapillaryTag := imageId])
  }

  /** The fold that the button's click performs: each selected entity in turn
      gets `mapillary = imageId`, the rest of its tags kept. None when an id is
      not in the graph. */
  function SetPhotoTag(g: Graph, ids: seq<EntityId>, imageId: string): (r: Option<Graph>)
    ensures r.Some? <==> forall i :: 0 <= i < |ids| ==> ids[i] in g
    ensures r.Some? ==> r.value.Keys == g.Keys
    ensures r.Some? ==> forall id :: id in g && id in ids ==> r.value[id] == Tagged(g[id], imageId)
    ensures r.Some? ==> forall id :: id in g && id !in ids ==> r.value[id] == g[id]
  {
    if ids == [] then Some(g)
    else if ids[0] !in g then None
    else SetPhotoTag(g[ids[0] := Tagged(g[ids[0]], imageId)], ids[1..], imageId)
  }

  /** The tag update changes nothing but the `mapillary` tag of the selected entities. */
  lemma SetPhotoTagKeepsOtherTags(g: Graph, ids: seq<EntityId>, imageId: string, id: EntityId, key: string)
    requires SetPhotoTag(g, ids, imageId).Some? && id in g && key != MapillaryTag
    ensures key in SetPhotoTag(g, ids, imageId).value[id].tags <==> key in g[id].tags
    ensures key in g[id].tags ==> SetPhotoTag(g, ids, imageId).value[id].tags[key] == g[id].tags[key]
    ensures SetPhotoTag(g, ids, imageId).value[id].center == g[id].center
  {
  }

  /** Whether every entity's `mapillary` tag equals `id` (`every`, true of no entities). */
  function AllTagged(es: seq<Entity>, id: Option<string>): (b: bool)
    ensures b <==> forall i :: 0 <= i < |es| ==> TagOf(es[i]) == id
  {
    if es == [] then true else TagOf(es[0]) == id && AllTagged(es[1..], id)
  }

  /** Whether every entity's centre is more than `TooFarMeters` from `loc`. */
  function AllFar(es: seq<Entity>, loc: Loc, distance: (Loc, Loc) -> real): (b: bool)
    ensures b <==> forall i :: 0 <= i < |es| ==> distance(es[i].center, loc) > TooFarMeters
  {
    if es == [] then true else distance(es[0].center, loc) > TooFarMeters && AllFar(es[1..], loc, distance)
  }

  /** The state of the set-photo button: disabled because every selected
      entity already carries the active image id; else disabled because an
      image is active and every selected entity is too far from it; else enabled. */
  datatype Status = AlreadySet | TooFar | Enabled

  function Classify(es: seq<Entity>, active: Option<Image>, distance: (Loc, Loc) -> real): (r: Status)
    ensures r == AlreadySet <==> forall i :: 0 <= i < |es| ==> TagOf(es[i]) == IdOf(active)
    ensures r == TooFar <==>
              && (exists i :: 0 <= i < |es| && TagOf(es[i]) != IdOf(active))
              && active.Some?
              && (forall i :: 0 <= i < |es| ==> distance(es[i].center, active.value.loc) > TooFarMeters)
    ensures es == [] ==> r == AlreadySet
    ensures active == None ==> r != TooFar
  {
    if AllTagged(es, IdOf(active)) then AlreadySet
    else if active.Some? && AllFar(es, active.value.loc, distance) then TooFar
    else Enabled
  }

  /** With no active image and some selected feature already tagged, the button
      is enabled; clicking it then reads the id of a missing image. */
  lemma EnabledWithoutImage(es: seq<Entity>, distance: (Loc, Loc) -> real)
    requires exists i :: 0 <= i < |es| && MapillaryTag in es[i].tags
    ensures Classify(es, None, distance) == Enabled
  {
    var i :| 0 <= i < |es| && MapillaryTag in es[i].tags;
    assert TagOf(es[i]) != IdOf(None);
  }

  /** After the click's tag update the selection reads as already set. */
  lemma SetPhotoTagThenAlreadySet(g: Graph, ids: seq<EntityId>, image: Image, distance: (Loc, Loc) -> real)
    requires SetPhotoTag(g, ids, image.id).Some?
    ensures Lookup(SetPhotoTag(g, ids, image.id).value, ids).Some?
    ensures Classify(Lookup(SetPhotoTag(g, ids, image.id).value, ids).value, Some(image), distance) == AlreadySet
  {
    var g' := SetPhotoTag(g, ids, image.id).value;
    var es := Lookup(g', ids).value;
    forall i | 0 <= i < |es|
      ensures TagOf(es[i]) == IdOf(Some(image))
    {
      assert ids[i] in ids;
      assert es[i] == Tagged(g[ids[i]], image.id);
    }
  }

  /** `s.split('/')[0]`: the text before the first slash, or all of it. */
  function FirstSegment(s: string): (r: string)
    ensures r <= s && '/' !in r
    ensures |r| == |s| || s[|r|] == '/'
  {
    if s == [] || s[0] == '/' then [] else [s[0]] + FirstSegment(s[1..])
  }

  /** The two ensures of FirstSegment pin its result down. */
  lemma FirstSegmentUnique(s: string, t: string)
    requires t <= s && '/' !in t
    requires |t| == |s| || s[|t|] == '/'
    ensures FirstSegment(s) == t
  {
    var r := FirstSegment(s);
    assert |r| == |t|;
    assert r == s[..|r|] == t;
  }

  /** The first segment is `mapillary` exactly for `mapillary` and `mapillary/...`. */
  lemma MapillarySegment(p: string)
    ensures FirstSegment(p) == MapillaryTag <==> p == MapillaryTag || MapillaryTag + "/" <= p
  {
    if p == MapillaryTag {
      FirstSegmentUnique(p, MapillaryTag);
    } else if MapillaryTag + "/" <= p {
      assert p[|MapillaryTag|] == '/';
      FirstSegmentUnique(p, MapillaryTag);
    }
    if FirstSegment(p) == MapillaryTag && p != MapillaryTag {
      assert p[..|MapillaryTag| + 1] == MapillaryTag + "/";
    }
  }

  /** The photo service named in the URL hash: `photo` up to its first slash;
      None when the hash has no `photo` parameter or it is empty (`undefined`
      and `''` are both falsy). It names Mapillary exactly when the parameter
      is `mapillary` or starts with `mapillary/`. */
  function ServiceId(hash: map<string, string>): (r: Option<string>)
    ensures r.None? <==> "photo" !in hash || hash["photo"] == ""
    ensures r.Some? ==> r.value == FirstSegment(hash["photo"])
    ensures r == Some(MapillaryTag) <==>
              "photo" in hash && (hash["photo"] == MapillaryTag || MapillaryTag + "/" <= hash["photo"])
  {
    if "photo" in hash && hash["photo"] != "" then
      MapillarySegment(hash["photo"]);
      Some(FirstSegment(hash["photo"]))
    else
      None
  }

  /** Whether the button belongs on the panel (the viewer being open): exactly
      in select mode, with the Mapillary layer on and a hash `photo` parameter
      of `mapillary` or `mapillary/...`. */
  function ShowButton(modeId: string, mapillaryLayerEnabled: bool, hash: map<string, string>): (b: bool)
    ensures b <==> && modeId == "select" && mapillaryLayerEnabled
                   && "photo" in hash
                   && (hash["photo"] == MapillaryTag || MapillaryTag + "/" <= hash["photo"])
  {
    modeId == "select" && mapillaryLayerEnabled && ServiceId(hash) == Some(MapillaryTag)
  }

  // ---------------------------------------------------------------------------
  // The panel

  /** The button, absent or present with its state. */
  datatype Button = NoButton | Present(status: Status)

  /** The photo viewer panel: its size as styled, the set-photo button, and the
      payloads of the 'resize' events it has dispatched. */
  class Panel {
    var width: int
    var height: int
    var button: Button
    var resizeEvents: seq<Size>

    constructor (width: int, height: int)
      ensures this.width == width && this.height == height
      ensures button == NoButton && resizeEvents == []
    {
      this.width := width;
      this.height := height;
      button := NoButton;
      resizeEvents := [];
    }

    function Dimensions(): Size
      reads this
    {
      Size(width, height)
    }

    /** Shrinks the panel when it no longer fits the map, and reports the new size. */
    method OnMapResize(mapSize: Size, padding: Padding)
      modifies this
      ensures button == old(button)
      ensures ShrinkToFit(old(Dimensions()), mapSize).None? ==>
                Dimensions() == old(Dimensions()) && resizeEvents == old(resizeEvents)
      ensures ShrinkToFit(old(Dimensions()), mapSize).Some? ==>
                && Dimensions() == ShrinkToFit(old(Dimensions()), mapSize).value
                && resizeEvents == old(resizeEvents) + [SubtractPadding(Dimensions(), padding)]
      ensures Fits(Dimensions(), mapSize)
    {
      var photo := Dimensions();
      if photo.width > mapSize.width || photo.height > mapSize.height - MapMargin {
        var w := if photo.width < mapSize.width then photo.width else mapSize.width;
        var h := if photo.height < mapSize.height - MapMargin then photo.height else mapSize.height - MapMargin;
        width, height := w, h;
        resizeEvents := resizeEvents + [SubtractPadding(Size(w, h), padding)];
      }
    }

    /** Recomputes the button after a selection or history change. */
    method UpdateSetPhotoButton(viewerOpen: bool, modeId: string, mapillaryLayerEnabled: bool,
                                hash: map<string, string>, active: Option<Image>,
                                g: Graph, selected: seq<EntityId>, distance: (Loc, Loc) -> real)
      modifies this`button
      ensures !viewerOpen ==> button == old(button)
      ensures viewerOpen && !ShowButton(modeId, mapillaryLayerEnabled, hash) ==> button == NoButton
      ensures viewerOpen && ShowButton(modeId, mapillaryLayerEnabled, hash) ==>
                button == match Lookup(g, selected)
                          case Some(es) => Present(Classify(es, active, distance))
                          case None => if old(button) == NoButton then Present(Enabled) else old(button)
    {
      if viewerOpen {
        if modeId != "select" || !(mapillaryLayerEnabled && ServiceId(hash) == Some(MapillaryTag)) {
          button := NoButton;
        } else {
          if button == NoButton {
            // a freshly created button carries no disabled attribute
            button := Present(Enabled);
          }
          var es := Lookup(g, selected);
          if es.Some? {
            button := Present(Classify(es.value, active, distance));
          }
        }
      }
    }

    /** A click on the button. Only an enabled button receives it; the tag
        update aborts (None) when there is no active image to read an id from
        and something is selected, or when a selected id is not in the graph. */
    method ClickSetPhotoButton(active: Option<Image>, g: Graph, selected: seq<EntityId>) returns (edited: Option<Graph>)
      modifies this`button
      ensures old(button) != Present(Enabled) ==> edited == None
      ensures old(button) == Present(Enabled) && active.Some? ==> edited == SetPhotoTag(g, selected, active.value.id)
      ensures old(button) == Present(Enabled) && active.None? ==> edited == (if selected == [] then Some(g) else None)
      ensures edited.Some? ==> button == Present(AlreadySet)
      ensures edited.None? ==> button == old(button)
    {
      edited := None;
      if button == Present(Enabled) {
        if active.Some? {
          edited := SetPhotoTag(g, selected, active.value.id);
        } else if selected == [] {
          edited := Some(g);
        }
        if edited.Some? {
          button := Present(AlreadySet);
        }
      }
    }
  }

  // ---------------------------------------------------------------------------
  // The resize listener of one handle

  /** The pointer a drag belongs to: `pointerId || 'mouse'`. */
  datatype PointerKey = Mouse | Pointer(id: int)

  datatype PointerEvent = PointerEvent(pointerId: Option<int>, clientX: int, clientY: int)

  /** Mouse events carry no pointer id; a pointer id of 0 is falsy and reads as 'mouse' too. */
  function KeyOf(ev: PointerEvent): (k: PointerKey)
    ensures k == Mouse <==> ev.pointerId == None || ev.pointerId == Some(0)
    ensures k != Mouse ==> k == Pointer(ev.pointerId.value)
  {
    if ev.pointerId.Some? && ev.pointerId.value != 0 then Pointer(ev.pointerId.value) else Mouse
  }

  /** A window listener is addressed by its event type and its name (namespace). */
  datatype ListenerKey = ListenerKey(eventType: string, name: string)

  datatype Action = Resizes | Stops

  datatype Listener = Listener(owner: ResizeListener, action: Action)

  /** The window's table of named event listeners. */
  class Window {
    var listeners: map<ListenerKey, Listener>

    constructor ()
      ensures listeners == map[]
    {
      listeners := map[];
    }
  }

  /** The keys under which `InitResize` registers, for a prefix of 'pointer' or 'mouse'. */
  function ResizeKeys(pointerPrefix: string, name: string): set<ListenerKey>
  {
    {ListenerKey(pointerPrefix + "move", name), ListenerKey(pointerPrefix + "up", name)}
      + (if pointerPrefix == "pointer" then {ListenerKey("pointercancel", name)} else {})
  }

  /** The listener built for one handle, with the state its closure keeps. */
  class ResizeListener {
    const target: Panel
    const eventName: string
    const pointerPrefix: string
    const settings: Settings
    var pointerId: Option<PointerKey>
    var grip: Grip

    constructor (target: Panel, eventName: string, pointerEvents: bool, options: ResizeOptions)
      ensures this.target == target && this.eventName == eventName
      ensures pointerPrefix == (if pointerEvents then "pointer" else "mouse")
      ensures settings == SettingsOf(options)
      ensures pointerId == None
    {
      this.target := target;
      this.eventName := eventName;
      pointerPrefix := if pointerEvents then "pointer" else "mouse";
      settings := SettingsOf(options);
      pointerId := None;
      grip := Grip(0, 0, 0, 0);
    }

    /** Pointer down on the handle: remember the pointer, where it is and the
        panel's outer size, and listen on the window for its moves and release. */
    method InitResize(ev: PointerEvent, rect: Size, win: Window)
      modifies this, win
      ensures pointerId == Some(KeyOf(ev))
      ensures grip == Grip(ev.clientX, ev.clientY, rect.width, rect.height)
      ensures forall k :: k in ResizeKeys(pointerPrefix, eventName) ==>
                k in win.listeners && win.listeners[k] == Listener(this, if k.eventType == pointerPrefix + "move" then Resizes else Stops)
      ensures forall k :: k !in ResizeKeys(pointerPrefix, eventName) ==>
                (k in win.listeners <==> k in old(win.listeners)) && (k in win.listeners ==> win.listeners[k] == old(win.listeners[k]))
    {
      pointerId := Some(KeyOf(ev));
      grip := Grip(ev.clientX, ev.clientY, rect.width, rect.height);
      win.listeners := win.listeners[ListenerKey(pointerPrefix + "move", eventName) := Listener(this, Resizes)]
                                    [ListenerKey(pointerPrefix + "up", eventName) := Listener(this, Stops)];
      if pointerPrefix == "pointer" {
        win.listeners := win.listeners[ListenerKey("pointercancel", eventName) := Listener(this, Stops)];
      }
    }

    /** Pointer move: ignored unless it comes from the captured pointer;
        otherwise resizes the panel and reports its size. */
    method StartResize(ev: PointerEvent, mapSize: Size, padding: Padding)
      modifies target
      ensures pointerId != Some(KeyOf(ev)) ==> unchanged(target)
      ensures pointerId == Some(KeyOf(ev)) ==>
                && target.Dimensions() == Resized(settings, grip, old(target.Dimensions()), ev.clientX, ev.clientY, mapSize)
                && target.resizeEvents == old(target.resizeEvents) + [SubtractPadding(target.Dimensions(), padding)]
                && target.button == old(target.button)
    {
      if pointerId != Some(KeyOf(ev)) {
        return;
      }
      if settings.resizeOnX {
        var maxWidth := mapSize.width;
        target.width := Clamp(grip.width + ev.clientX - grip.x, settings.minWidth, maxWidth);
      }
      if settings.resizeOnY {
        var maxHeight := mapSize.height - MapMargin;
        target.height := Clamp(grip.height + grip.y - ev.clientY, settings.minHeight, maxHeight);
      }
      target.resizeEvents := target.resizeEvents + [SubtractPadding(target.Dimensions(), padding)];
    }

    /** Pointer up or cancel: ignored unless it comes from the captured pointer;
        otherwise removes every window listener named after this listener's event. */
    method StopResize(ev: PointerEvent, win: Window)
      modifies win
      ensures pointerId != Some(KeyOf(ev)) ==> win.listeners == old(win.listeners)
      ensures pointerId == Some(KeyOf(ev)) ==>
                && (forall k :: k in win.listeners <==> k in old(win.listeners) && k.name != eventName)
                && (forall k :: k in win.listeners ==> win.listeners[k] == old(win.listeners[k]))
    {
      if pointerId != Some(KeyOf(ev)) {
        return;
      }
      win.listeners := map k | k in win.listeners && k.name != eventName :: win.listeners[k];
    }
  }

  /** A whole drag with one handle: press, one move, release. The panel ends
      at the size the move asks for, and no listener of the drag is left. */
  method Drag(h: Handle, pointerEvents: bool, down: PointerEvent, move: PointerEvent, up: PointerEvent,
              startSize: Size, mapSize: Size, padding: Padding)
    returns (final: Size, leftOver: set<ListenerKey>)
    requires KeyOf(down) == KeyOf(move) == KeyOf(up)
    ensures final == Resized(SettingsOf(HandleOptions(h)), Grip(down.clientX, down.clientY, startSize.width, startSize.height),
                             startSize, move.clientX, move.clientY, mapSize)
    ensures leftOver == {}
  {
    var panel := new Panel(startSize.width, startSize.height);
    var win := new Window();
    var listener := new ResizeListener(panel, "resize", pointerEvents, HandleOptions(h));
    listener.InitResize(down, startSize, win);
    listener.StartResize(move, mapSize, padding);
    listener.StopResize(up, win);
    final := panel.Dimensions();
    leftOver := set k | k in win.listeners && k in ResizeKeys(listener.pointerPrefix, "resize");
  }
}
