/** The collage display: the filter table, the zoom/pan state machine driven by
    wheel and pointer events, and the projection of a layout document and the
    image list onto positioned elements inside a transformed frame. */
module CollageDisplay {
  import opened Types

  // ---------------------------------------------------------------------------
  // Filters

  /** The fixed filter table: tag to CSS `filter` value. */
  function FilterCss(f: FilterStyle): (css: string)
    ensures css == "none" <==> f == NoFilter
  {
    match f
    case NoFilter => "none"
    case Grayscale => "grayscale(100%)"
    case Sepia => "sepia(100%)"
    case Invert => "invert(100%)"
  }

  /** Different tags never render alike. */
  lemma FilterCssInjective(f: FilterStyle, g: FilterStyle)
    ensures FilterCss(f) == FilterCss(g) ==> f == g
  {
  }

  /** The `filter` style of an image: `none` when it carries no tag, the table entry otherwise. */
  function ElementFilter(tag: Option<FilterStyle>): (css: string)
    ensures css == "none" <==> (tag.None? || tag == Some(NoFilter))
    ensures tag.Some? ==> css == FilterCss(tag.value)
  {
    if tag.Some? then FilterCss(tag.value) else "none"
  }

  // ---------------------------------------------------------------------------
  // Zoom and pan

  const ZoomFactor: real := 1.1
  const MinScale: real := 0.25
  const MaxScale: real := 4.0

  predicate ScaleInRange(s: real) { MinScale <= s <= MaxScale }

  /** The viewport: `scale` and `position` belong to the application, `isPanning`
      and `panStart` are the display's own references. */
  datatype ViewState = ViewState(scale: real, position: Point, isPanning: bool, panStart: Point)

  const InitialView: ViewState := ViewState(1.0, Origin, false, Origin)

  /** One wheel step: divide by the zoom factor when scrolling down, multiply
      otherwise, then clamp to [MinScale, MaxScale]. */
  function ZoomedScale(scale: real, deltaY: real): (s: real)
    ensures ScaleInRange(s)
    ensures ScaleInRange(scale) && deltaY > 0.0 ==> s <= scale
    ensures ScaleInRange(scale) && deltaY <= 0.0 ==> s >= scale
    ensures ScaleInRange(scale) && deltaY > 0.0 ==> s >= scale / ZoomFactor && (scale > MinScale ==> s < scale)
    ensures ScaleInRange(scale) && deltaY <= 0.0 ==> s <= scale * ZoomFactor && (scale < MaxScale ==> s > scale)
    ensures deltaY > 0.0 && ScaleInRange(scale / ZoomFactor) ==> s == scale / ZoomFactor
    ensures deltaY <= 0.0 && ScaleInRange(scale * ZoomFactor) ==> s == scale * ZoomFactor
    ensures (if deltaY > 0.0 then scale / ZoomFactor else scale * ZoomFactor) < MinScale ==> s == MinScale
    ensures (if deltaY > 0.0 then scale / ZoomFactor else scale * ZoomFactor) > MaxScale ==> s == MaxScale
  {
    var raw := if deltaY > 0.0 then scale / ZoomFactor else scale * ZoomFactor;
    Max(MinScale, Min(raw, MaxScale))
  }

  function Min(a: real, b: real): real { if a <= b then a else b }

  function Max(a: real, b: real): real { if a >= b then a else b }

  /** The new translation along one axis that keeps the content point under the cursor in place. */
  function Anchored(mouse: real, pos: real, oldScale: real, newScale: real): real
    requires oldScale != 0.0
  {
    mouse - (mouse - pos) * (newScale / oldScale)
  }

  lemma AnchoredKeepsPoint(mouse: real, pos: real, oldScale: real, newScale: real)
    requires oldScale != 0.0
    ensures Anchored(mouse, pos, oldScale, newScale) + newScale * ((mouse - pos) / oldScale) == mouse
  {
  }

  /** A wheel event at `mouse` (relative to the container's top-left corner). */
  function Wheel(v: ViewState, deltaY: real, mouse: Point): (w: ViewState)
    requires v.scale > 0.0
    ensures ScaleInRange(w.scale)
    ensures ScaleInRange(v.scale) && deltaY > 0.0 ==> w.scale <= v.scale
    ensures ScaleInRange(v.scale) && deltaY <= 0.0 ==> w.scale >= v.scale
    ensures w.scale == ZoomedScale(v.scale, deltaY)
    ensures w.position.x + w.scale * ((mouse.x - v.position.x) / v.scale) == mouse.x
    ensures w.position.y + w.scale * ((mouse.y - v.position.y) / v.scale) == mouse.y
    ensures w.scale == v.scale ==> w.position == v.position
    ensures w.isPanning == v.isPanning && w.panStart == v.panStart
  {
    var s := ZoomedScale(v.scale, deltaY);
    AnchoredKeepsPoint(mouse.x, v.position.x, v.scale, s);
    AnchoredKeepsPoint(mouse.y, v.position.y, v.scale, s);
    v.(scale := s,
       position := Point(Anchored(mouse.x, v.position.x, v.scale, s),
                         Anchored(mouse.y, v.position.y, v.scale, s)))
  }

  /** Pointer down at `client` starts a drag session. */
  function MouseDown(v: ViewState, client: Point): (w: ViewState)
    ensures w.isPanning && w.panStart == client
    ensures w.scale == v.scale && w.position == v.position
  {
    v.(isPanning := true, panStart := client)
  }

  /** Pointer move to `client`: while panning, the position moves by the
      distance from the previous pointer position; otherwise nothing changes. */
  function MouseMove(v: ViewState, client: Point): (w: ViewState)
    ensures !v.isPanning ==> w == v
    ensures v.isPanning ==> w.position == Add(v.position, Sub(client, v.panStart)) && w.panStart == client
    ensures w.scale == v.scale && w.isPanning == v.isPanning
  {
    if !v.isPanning then v
    else
      var d := Sub(client, v.panStart);
      v.(panStart := client, position := Add(v.position, d))
  }

  /** Pointer up or pointer leave ends the drag session. */
  function MouseUpOrLeave(v: ViewState): (w: ViewState)
    ensures !w.isPanning
    ensures w.scale == v.scale && w.position == v.position && w.panStart == v.panStart
  {
    v.(isPanning := false)
  }

  /** Reset view: scale 1, no translation; the display's references are kept. */
  function ResetView(v: ViewState): (w: ViewState)
    ensures w.scale == 1.0 && w.position == Origin
    ensures w.isPanning == v.isPanning && w.panStart == v.panStart
  {
    v.(scale := 1.0, position := Origin)
  }

  /** The events the display listens to, in arrival order. */
  datatype PointerEvent =
    | WheelEvent(deltaY: real, at: Point)
    | Down(at: Point)
    | Move(at: Point)
    | UpOrLeave

  function Step(v: ViewState, e: PointerEvent): (w: ViewState)
    requires v.scale > 0.0
    ensures w.scale > 0.0
  {
    match e
    case WheelEvent(dy, at) => Wheel(v, dy, at)
    case Down(at) => MouseDown(v, at)
    case Move(at) => MouseMove(v, at)
    case UpOrLeave => MouseUpOrLeave(v)
  }

  /** Each event is applied to the state the previous one left. */
  function Replay(v: ViewState, events: seq<PointerEvent>): ViewState
    requires v.scale > 0.0
    decreases |events|
  {
    if events == [] then v else Replay(Step(v, events[0]), events[1..])
  }

  function Moves(points: seq<Point>): (es: seq<PointerEvent>)
    ensures |es| == |points|
    ensures forall k :: 0 <= k < |points| ==> es[k] == Move(points[k])
  {
    seq(|points|, k requires 0 <= k < |points| => Move(points[k]))
  }

  /** Whatever the events, a scale that starts in range stays in range. */
  lemma {:induction false} ScaleStaysInRange(v: ViewState, events: seq<PointerEvent>)
    requires ScaleInRange(v.scale)
    ensures ScaleInRange(Replay(v, events).scale)
    decreases |events|
  {
    if events != [] {
      var w := Step(v, events[0]);
      assert ScaleInRange(w.scale);
      ScaleStaysInRange(w, events[1..]);
    }
  }

  /** Moves during a drag telescope: the position moves by the distance from the
      last recorded pointer position to the last move, and that last move is the
      new recorded position. */
  lemma {:induction false} PanTelescopes(v: ViewState, points: seq<Point>)
    requires v.scale > 0.0 && v.isPanning && points != []
    ensures Replay(v, Moves(points)).position == Add(v.position, Sub(points[|points| - 1], v.panStart))
    ensures Replay(v, Moves(points)).panStart == points[|points| - 1]
    ensures Replay(v, Moves(points)).isPanning && Replay(v, Moves(points)).scale == v.scale
    decreases |points|
  {
    var w := MouseMove(v, points[0]);
    assert Moves(points)[1..] == Moves(points[1..]);
    if |points| > 1 {
      PanTelescopes(w, points[1..]);
    }
  }

  /** A drag session from pointer-down at `down` through moves `points` moves the
      position by the distance from `down` to the last move. */
  lemma DragSession(v: ViewState, down: Point, points: seq<Point>)
    requires v.scale > 0.0 && points != []
    ensures Replay(v, [Down(down)] + Moves(points)).position
         == Add(v.position, Sub(points[|points| - 1], down))
  {
    var w := MouseDown(v, down);
    assert ([Down(down)] + Moves(points))[1..] == Moves(points);
    PanTelescopes(w, points);
  }

  /** After pointer up or leave, moves change nothing until the next pointer-down. */
  lemma {:induction false} MovesAfterReleaseIgnored(v: ViewState, points: seq<Point>)
    requires v.scale > 0.0 && !v.isPanning
    ensures Replay(v, Moves(points)) == v
    decreases |points|
  {
    if points != [] {
      assert Moves(points)[1..] == Moves(points[1..]);
      MovesAfterReleaseIgnored(v, points[1..]);
    }
  }

  /** The zoom/pan state of the display. */
  class Viewport {
    var scale: real
    var position: Point
    var isPanning: bool
    var panStart: Point

    function State(): ViewState
      reads this
    {
      ViewState(scale, position, isPanning, panStart)
    }

    ghost predicate Valid()
      reads this
    {
      ScaleInRange(scale)
    }

    constructor ()
      ensures Valid() && State() == InitialView
    {
      scale := 1.0;
      position := Origin;
      isPanning := false;
      panStart := Origin;
    }

    method HandleWheel(deltaY: real, mouse: Point)
      requires Valid()
      modifies this
      ensures Valid()
      ensures State() == Wheel(old(State()), deltaY, mouse)
    {
      var newScale := if deltaY > 0.0 then scale / ZoomFactor else scale * ZoomFactor;
      var clamped := Max(MinScale, Min(newScale, MaxScale));
      assert clamped == ZoomedScale(scale, deltaY);
      var newX := mouse.x - (mouse.x - position.x) * (clamped / scale);
      var newY := mouse.y - (mouse.y - position.y) * (clamped / scale);
      assert newX == Anchored(mouse.x, position.x, scale, clamped);
      assert newY == Anchored(mouse.y, position.y, scale, clamped);
      scale := clamped;
      position := Point(newX, newY);
    }

    method HandleMouseDown(client: Point)
      modifies this
      ensures State() == MouseDown(old(State()), client)
    {
      isPanning := true;
      panStart := client;
    }

    method HandleMouseMove(client: Point)
      modifies this
      ensures State() == MouseMove(old(State()), client)
    {
      if !isPanning {
        return;
      }
      var dx := client.x - panStart.x;
      var dy := client.y - panStart.y;
      panStart := client;
      position := Point(position.x + dx, position.y + dy);
    }

    method HandleMouseUpOrLeave()
      modifies this
      ensures State() == MouseUpOrLeave(old(State()))
    {
      isPanning := false;
    }

    /** The application's reset: `setScale(1)` and `setPosition({x: 0, y: 0})`. */
    method Reset()
      modifies this
      ensures Valid()
      ensures State() == ResetView(old(State()))
    {
      scale := 1.0;
      position := Origin;
    }

    /** The display leaves the page: its references start afresh when it is shown again. */
    method Unmount()
      modifies this
      ensures State() == old(State()).(isPanning := false, panStart := Origin)
    {
      isPanning := false;
      panStart := Origin;
    }
  }

  // ---------------------------------------------------------------------------
  // Rendering

  /** `translate(tx px, ty px) scale(s)` with the origin at the top-left corner. */
  datatype CssTransform = TranslateScale(tx: real, ty: real, s: real)

  /** `translate(0px, 0px) scale(1)`. */
  const IdentityTransform: CssTransform := TranslateScale(0.0, 0.0, 1.0)

  function ViewTransform(v: ViewState): (t: CssTransform)
    ensures t.s == v.scale && t.tx == v.position.x && t.ty == v.position.y
  {
    TranslateScale(v.position.x, v.position.y, v.scale)
  }

  /** Where a point of the untransformed collage appears on screen. */
  function ScreenPoint(t: CssTransform, p: Point): Point
  {
    Point(t.tx + t.s * p.x, t.ty + t.s * p.y)
  }

  /** The collage point shown at screen point `q`. */
  function ContentPoint(v: ViewState, q: Point): Point
    requires v.scale != 0.0
  {
    Point((q.x - v.position.x) / v.scale, (q.y - v.position.y) / v.scale)
  }

  /** Zoom anchoring, seen through the rendered transform: the collage point that
      was under the cursor is drawn under the cursor after the wheel step. */
  lemma ZoomKeepsPointUnderCursor(v: ViewState, deltaY: real, mouse: Point)
    requires v.scale > 0.0
    ensures ScreenPoint(ViewTransform(v), ContentPoint(v, mouse)) == mouse
    ensures ScreenPoint(ViewTransform(Wheel(v, deltaY, mouse)), ContentPoint(v, mouse)) == mouse
  {
  }

  /** The reset view renders exactly the transform the exporter installs. */
  lemma ResetViewIsIdentity(v: ViewState)
    ensures ViewTransform(ResetView(v)) == IdentityTransform
    ensures forall p :: ScreenPoint(ViewTransform(ResetView(v)), p) == p
  {
  }

  datatype ImageSource = FromObjectUrl(url: ObjectUrl) | FromDataUrl(uri: string)

  /** The frame's background: a colour, or an image stretched to cover and centred. */
  datatype BackgroundStyle =
    | SolidFill(color: string)
    | CoverImage(source: ImageSource, size: string, position: string)

  function BackgroundStyleOf(b: Background): (st: BackgroundStyle)
    ensures st.SolidFill? <==> b.Color?
    ensures b.Color? ==> st.color == b.value
    ensures b.Image? ==> st == CoverImage(FromObjectUrl(b.url), "cover", "center")
    ensures b.Generated? ==> st == CoverImage(FromDataUrl(b.value), "cover", "center")
  {
    match b
    case Color(c) => SolidFill(c)
    case Image(u, _) => CoverImage(FromObjectUrl(u), "cover", "center")
    case Generated(d, _) => CoverImage(FromDataUrl(d), "cover", "center")
  }

  /** The absolutely positioned box of one element. */
  datatype Box = Box(width: string, height: string, top: string, left: string, rotationDeg: real, zIndex: real)

  function BoxOf(entry: CollageImageLayout): Box
  {
    Box(entry.width, entry.height, entry.top, entry.left, entry.rotation, entry.zIndex)
  }

  const PlainBorder := "2px solid white"

  /** A Polaroid-style card (the image inset above a caption strip), or a plain bordered image. */
  datatype Element =
    | CaptionedCard(key: string, box: Box, src: ObjectUrl, filter: string, caption: string)
    | PlainImage(key: string, box: Box, src: ObjectUrl, filter: string, border: string)

  /** The transformed frame: aspect ratio, background, view transform and one
      slot per layout entry (empty where there is no image to draw). */
  datatype Frame = Frame(
    aspectWidth: real,
    aspectHeight: real,
    fill: BackgroundStyle,
    transform: CssTransform,
    origin: string,
    children: seq<Option<Element>>)

  /** What an element drawn for `entry` and `image` must look like. */
  predicate Depicts(e: Element, entry: CollageImageLayout, image: UploadedImage)
  {
    && e.key == image.id
    && e.src == image.previewUrl
    && e.box == BoxOf(entry)
    && e.filter == ElementFilter(image.filter)
    && (entry.caption.Some? ==> e.CaptionedCard? && e.caption == entry.caption.value)
    && (entry.caption.None? ==> e.PlainImage? && e.border == PlainBorder)
  }

  function RenderEntry(entry: CollageImageLayout, image: UploadedImage): Element
  {
    if entry.caption.Some? then
      CaptionedCard(image.id, BoxOf(entry), image.previewUrl, ElementFilter(image.filter), entry.caption.value)
    else
      PlainImage(image.id, BoxOf(entry), image.previewUrl, ElementFilter(image.filter), PlainBorder)
  }

  /** The display: nothing at all without images; otherwise the frame, where
      entry `i` is drawn exactly when image `i` exists. */
  function Render(layout: CollageLayout, images: seq<UploadedImage>, background: Background, v: ViewState): (r: Option<Frame>)
    ensures r.None? <==> images == []
    ensures r.Some? ==> r.value.transform == ViewTransform(v) && r.value.origin == "top left"
    ensures r.Some? ==> r.value.fill == BackgroundStyleOf(background)
    ensures r.Some? ==> r.value.aspectWidth == layout.container.width && r.value.aspectHeight == layout.container.height
    ensures r.Some? ==> |r.value.children| == |layout.images|
    ensures r.Some? ==> forall i :: 0 <= i < |layout.images| ==> (r.value.children[i].Some? <==> i < |images|)
    ensures r.Some? ==> forall i :: 0 <= i < |layout.images| && i < |images| ==>
                          r.value.children[i].Some? && Depicts(r.value.children[i].value, layout.images[i], images[i])
  {
    if images == [] then None
    else
      var children := seq(|layout.images|, i requires 0 <= i < |layout.images| =>
                            if i < |images| then Some(RenderEntry(layout.images[i], images[i])) else None);
      Some(Frame(layout.container.width, layout.container.height, BackgroundStyleOf(background),
                 ViewTransform(v), "top left", children))
  }

  /** When the layout has one entry per image, every entry is drawn. */
  lemma MatchingCountDrawsEverything(layout: CollageLayout, images: seq<UploadedImage>, background: Background, v: ViewState)
    requires |layout.images| == |images| > 0
    ensures Render(layout, images, background, v).Some?
    ensures forall i :: 0 <= i < |layout.images| ==> Render(layout, images, background, v).value.children[i].Some?
  {
  }
}
