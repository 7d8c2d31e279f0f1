/** The editor's application state and its handlers: replacing the image list,
    choosing a filter, generating a collage or a background, uploading a
    background image, exporting and resetting the view. */
module App {
  import opened Types
  import opened CollageDisplay
  import GeminiService
  import ObjectUrls

  const DefaultBackgroundColor := "#111827"

  const TooFewImagesError := "Please upload at least 2 images to create a collage."
  const CollageFailedError := "Failed to generate collage. The AI may be busy, please try again."
  const EmptyPromptError := "Please enter a prompt for the background image."
  const BackgroundFailedError := "Failed to generate background image. Please try again."
  const ExportFailedError := "Failed to export the collage. Please try again."

  const JpegQuality: real := 0.95

  // ---------------------------------------------------------------------------
  // Filters

  /** The filter an image keeps after the user picks `f`: picking "None" removes the tag. */
  function StoredFilter(f: FilterStyle): (tag: Option<FilterStyle>)
    ensures tag.None? <==> f == NoFilter
    ensures ElementFilter(tag) == FilterCss(f)
  {
    if f == NoFilter then None else Some(f)
  }

  /** The image list after the user picks filter `f` for the image(s) with id `id`. */
  function ApplyFilter(images: seq<UploadedImage>, id: string, f: FilterStyle): (r: seq<UploadedImage>)
    ensures |r| == |images|
    ensures forall i :: 0 <= i < |images| && images[i].id != id ==> r[i] == images[i]
    ensures forall i :: 0 <= i < |images| && images[i].id == id ==>
              r[i] == images[i].(filter := StoredFilter(f)) && ElementFilter(r[i].filter) == FilterCss(f)
  {
    seq(|images|, i requires 0 <= i < |images| =>
          if images[i].id == id then images[i].(filter := StoredFilter(f)) else images[i])
  }

  /** Picking a filter twice in a row is the same as picking the second one. */
  lemma LastFilterWins(images: seq<UploadedImage>, id: string, f: FilterStyle, g: FilterStyle)
    ensures ApplyFilter(ApplyFilter(images, id, f), id, g) == ApplyFilter(images, id, g)
  {
  }

  // ---------------------------------------------------------------------------
  // Collage generation

  /** The colour named in the layout prompt: the background colour, or the default
      when the background is an image. */
  function PromptBackgroundColor(b: Background): (c: string)
    ensures b.Color? ==> c == b.value
    ensures !b.Color? ==> c == DefaultBackgroundColor
  {
    if b.Color? then b.value else DefaultBackgroundColor
  }

  function Files(images: seq<UploadedImage>): (files: seq<File>)
    ensures |files| == |images|
    ensures forall i :: 0 <= i < |images| ==> files[i] == images[i].file
  {
    seq(|images|, i requires 0 <= i < |images| => images[i].file)
  }

  function LayoutRequestFor(images: seq<UploadedImage>, style: CollageStyle, b: Background): (req: GeminiService.LayoutRequest)
    ensures |req.files| == |images|
  {
    GeminiService.LayoutRequest(Files(images), style, PromptBackgroundColor(b))
  }

  /** A colour background takes the layout's background colour when it names one;
      an image background is kept. */
  function AdoptedBackground(b: Background, layout: CollageLayout): (nb: Background)
    ensures !b.Color? ==> nb == b
    ensures b.Color? ==> nb.Color?
    ensures b.Color? && layout.container.backgroundColor != "" ==> nb.value == layout.container.backgroundColor
    ensures layout.container.backgroundColor == "" ==> nb == b
  {
    if layout.container.backgroundColor != "" && b.Color? then Color(layout.container.backgroundColor) else b
  }

  // ---------------------------------------------------------------------------
  // Export

  datatype ImageFormat = Png | Jpeg

  function Extension(format: ImageFormat): string
  {
    match format
    case Png => "png"
    case Jpeg => "jpeg"
  }

  function ExportFileName(format: ImageFormat): (name: string)
    ensures |name| > 11 && name[..11] == "ai-collage." && name[11..] == Extension(format)
  {
    "ai-collage." + Extension(format)
  }

  datatype ExportOptions = ExportOptions(backgroundColor: Option<string>, quality: Option<real>)

  /** The rasteriser's options: the colour only for a colour background, and the
      fixed JPEG quality only for JPEG. */
  function ExportOptionsFor(b: Background, format: ImageFormat): (o: ExportOptions)
    ensures o.backgroundColor.Some? <==> b.Color?
    ensures b.Color? ==> o.backgroundColor == Some(b.value)
    ensures o.quality.Some? <==> format == Jpeg
    ensures format == Jpeg ==> o.quality == Some(JpegQuality)
  {
    var color := if b.Color? then Some(b.value) else None;
    match format
    case Png => ExportOptions(color, None)
    case Jpeg => ExportOptions(color, Some(JpegQuality))
  }

  /** What the rasteriser is asked for, including the transform the node carries while it captures. */
  datatype CaptureRequest = CaptureRequest(transform: CssTransform, format: ImageFormat, options: ExportOptions)

  datatype ExportOutcome =
    | NothingToExport
    | Downloaded(request: CaptureRequest, fileName: string, href: string)
    | ExportFailed(request: CaptureRequest)

  /** The collage node of the page, whose inline transform the exporter overwrites.
      `transform` stands for whatever the page last put there; the re-rendering that
      sets it from the view is not part of this model, so only export writes it. */
  class CollageNode {
    var transform: CssTransform

    constructor ()
      ensures transform == IdentityTransform
    {
      transform := IdentityTransform;
    }
  }

  // ---------------------------------------------------------------------------
  // The application

  /** All of the application's state at one moment. */
  datatype Snapshot = Snapshot(
    images: seq<UploadedImage>,
    collageLayout: Option<CollageLayout>,
    isLoading: bool,
    isGeneratingBackground: bool,
    error: Option<string>,
    collageStyle: CollageStyle,
    background: Background,
    view: ViewState,
    nodeTransform: CssTransform)

  /** The collage display is on the page: not loading, no error, a layout installed. */
  predicate Shown(s: Snapshot)
  {
    !s.isLoading && s.error.None? && s.collageLayout.Some?
  }

  /** A display that is off the page keeps no drag session: when it comes back its
      references start afresh. */
  function Settled(s: Snapshot): (t: Snapshot)
    ensures Shown(t) == Shown(s)
    ensures !Shown(t) ==> !t.view.isPanning && t.view.panStart == Origin
    ensures Shown(s) ==> t == s
    ensures t == s.(view := s.view.(isPanning := t.view.isPanning, panStart := t.view.panStart))
  {
    if Shown(s) then s else s.(view := s.view.(isPanning := false, panStart := Origin))
  }

  class CollageApp {
    var images: seq<UploadedImage>
    var collageLayout: Option<CollageLayout>
    var isLoading: bool
    var isGeneratingBackground: bool
    var error: Option<string>
    var collageStyle: CollageStyle
    var background: Background
    const view: Viewport
    const node: CollageNode

    function Current(): Snapshot
      reads this, view, node
    {
      Snapshot(images, collageLayout, isLoading, isGeneratingBackground, error,
               collageStyle, background, view.State(), node.transform)
    }

    predicate DisplayShown()
      reads this, view, node
    {
      Shown(Current())
    }

    /** The scale is in range; an installed layout has one entry per image and at
        least two; while the display is off the page no drag is in progress. */
    ghost predicate Valid()
      reads this, view, node
    {
      && view.Valid()
      && (collageLayout.Some? ==> |collageLayout.value.images| == |images| >= 2)
      && (!DisplayShown() ==> !view.isPanning && view.panStart == Origin)
    }

    constructor ()
      ensures Valid() && fresh(view) && fresh(node)
      ensures Current() == Snapshot([], None, false, false, None, Dynamic,
                                    Color(DefaultBackgroundColor), InitialView, IdentityTransform)
    {
      images := [];
      collageLayout := None;
      isLoading := false;
      isGeneratingBackground := false;
      error := None;
      collageStyle := Dynamic;
      background := Color(DefaultBackgroundColor);
      view := new Viewport();
      node := new CollageNode();
    }

    /** What the page shows of the collage: nothing unless the display is on the page,
        and then one drawn element per layout entry, because an installed layout has
        exactly one entry per image. */
    function Display(): (f: Option<Frame>)
      requires Valid()
      reads this, view, node
      ensures f.Some? <==> DisplayShown()
      ensures f.Some? ==> |f.value.children| == |images|
      ensures f.Some? ==> forall i :: 0 <= i < |images| ==>
                f.value.children[i].Some? && Depicts(f.value.children[i].value, collageLayout.value.images[i], images[i])
    {
      if DisplayShown() then Render(collageLayout.value, images, background, view.State()) else None
    }

    /** React removes the display when it is hidden; its references restart on return. */
    method Settle()
      modifies view
      ensures Current() == Settled(old(Current()))
    {
      if !DisplayShown() {
        view.Unmount();
      }
    }

    /** Replacing the image list always drops the layout. */
    method HandleImagesChange(newImages: seq<UploadedImage>)
      requires Valid()
      modifies this, view
      ensures Valid()
      ensures Current() == Settled(old(Current()).(images := newImages, collageLayout := None))
    {
      images := newImages;
      collageLayout := None;
      Settle();
    }

    method HandleFilterChange(id: string, f: FilterStyle)
      requires Valid()
      modifies this
      ensures Valid()
      ensures Current() == old(Current()).(images := ApplyFilter(old(images), id, f))
    {
      images := ApplyFilter(images, id, f);
    }

    /** Generation needs two images. Otherwise the request goes to `service` and its
        reply is validated: a valid layout is installed with the view reset and, over
        a colour background, its background colour adopted; any failure leaves no
        layout and reports the failure. Loading ends either way. */
    method HandleGenerateCollage(service: GeminiService.LayoutRequest -> GeminiService.LayoutReply)
      requires Valid()
      modifies this, view
      ensures Valid()
      ensures |old(images)| < 2 ==> Current() == Settled(old(Current()).(error := Some(TooFewImagesError)))
      ensures |old(images)| >= 2 ==>
        var req := LayoutRequestFor(old(images), old(collageStyle), old(background));
        var outcome := GeminiService.GenerateCollageLayout(req, service(req));
        && images == old(images) && collageStyle == old(collageStyle)
        && isGeneratingBackground == old(isGeneratingBackground) && node.transform == old(node.transform)
        && !isLoading && !view.isPanning && view.panStart == Origin
        && (outcome.Ok? ==>
              && collageLayout == Some(outcome.value) && error.None?
              && view.scale == 1.0 && view.position == Origin
              && background == AdoptedBackground(old(background), outcome.value))
        && (outcome.Err? ==>
              && collageLayout.None? && error == Some(CollageFailedError)
              && view.scale == old(view.scale) && view.position == old(view.position)
              && background == old(background))
    {
      if |images| < 2 {
        error := Some(TooFewImagesError);
        Settle();
        return;
      }
      isLoading := true;
      error := None;
      collageLayout := None;
      view.Unmount();
      var request := LayoutRequestFor(images, collageStyle, background);
      var outcome := GeminiService.GenerateCollageLayout(request, service(request));
      match outcome {
        case Ok(layout) =>
          collageLayout := Some(layout);
          view.Reset();
          if layout.container.backgroundColor != "" && background.Color? {
            background := Color(layout.container.backgroundColor);
          }
        case Err(_) =>
          error := Some(CollageFailedError);
      }
      isLoading := false;
    }

    /** An empty prompt is refused; otherwise the image model's reply becomes a
        generated background, or an error when it carries no image. */
    method HandleGenerateBackground(prompt: string, service: string -> GeminiService.ImagesReply)
      requires Valid()
      modifies this, view
      ensures Valid()
      ensures prompt == "" ==> Current() == Settled(old(Current()).(error := Some(EmptyPromptError)))
      ensures prompt != "" ==>
        var r := GeminiService.GenerateBackgroundImage(service(prompt));
        Current() == Settled(old(Current()).(
          isGeneratingBackground := false,
          error := if r.Ok? then None else Some(BackgroundFailedError),
          background := if r.Ok? then Generated(r.value, prompt) else old(background)))
    {
      if prompt == "" {
        error := Some(EmptyPromptError);
        Settle();
        return;
      }
      isGeneratingBackground := true;
      error := None;
      var r := GeminiService.GenerateBackgroundImage(service(prompt));
      match r {
        case Ok(dataUrl) =>
          background := Generated(dataUrl, prompt);
        case Err(_) =>
          error := Some(BackgroundFailedError);
      }
      isGeneratingBackground := false;
      Settle();
    }

    /** The previous object URL is released exactly when the previous background was
        an uploaded image; the new background shows a fresh URL for `file`. */
    method HandleBackgroundImageUpload(file: File, urls: ObjectUrls.Registry)
      requires Valid()
      modifies this, urls
      ensures Valid()
      ensures urls.released == old(urls.released) + (if old(background).Image? then [old(background).url] else [])
      ensures urls.issued == old(urls.issued) + 1
      ensures background == Image(ObjectUrl(old(urls.issued)), file)
      ensures Current() == old(Current()).(background := background)
    {
      if background.Image? {
        urls.Revoke(background.url);
      }
      var previewUrl := urls.Create(file);
      background := Image(previewUrl, file);
    }

    /** Nothing without a displayed collage. Otherwise the node's transform is the
        identity while the rasteriser `capture` runs and is put back afterwards,
        whether the capture succeeded or failed. */
    method HandleExport(format: ImageFormat, capture: CaptureRequest -> Option<string>) returns (outcome: ExportOutcome)
      requires Valid()
      modifies this, view, node
      ensures Valid()
      ensures node.transform == old(node.transform)
      ensures !old(DisplayShown()) ==> outcome == NothingToExport && Current() == old(Current())
      ensures old(DisplayShown()) ==>
        var req := CaptureRequest(IdentityTransform, format, ExportOptionsFor(old(background), format));
        && (capture(req).Some? ==>
              outcome == Downloaded(req, ExportFileName(format), capture(req).value) && Current() == old(Current()))
        && (capture(req).None? ==>
              outcome == ExportFailed(req) && Current() == Settled(old(Current()).(error := Some(ExportFailedError))))
    {
      if !DisplayShown() {
        return NothingToExport;
      }
      var originalTransform := node.transform;
      node.transform := IdentityTransform;
      var request := CaptureRequest(node.transform, format, ExportOptionsFor(background, format));
      var dataUrl := capture(request);
      if dataUrl.Some? {
        outcome := Downloaded(request, ExportFileName(format), dataUrl.value);
      } else {
        error := Some(ExportFailedError);
        outcome := ExportFailed(request);
      }
      node.transform := originalTransform;
      Settle();
    }

    // The display's own handlers exist only while it is on the page.

    method HandleWheel(deltaY: real, mouse: Point)
      requires Valid() && DisplayShown()
      modifies view
      ensures Valid() && DisplayShown()
      ensures Current() == old(Current()).(view := Wheel(old(view.State()), deltaY, mouse))
    {
      view.HandleWheel(deltaY, mouse);
    }

    method HandleMouseDown(client: Point)
      requires Valid() && DisplayShown()
      modifies view
      ensures Valid() && DisplayShown()
      ensures Current() == old(Current()).(view := MouseDown(old(view.State()), client))
    {
      view.HandleMouseDown(client);
    }

    method HandleMouseMove(client: Point)
      requires Valid() && DisplayShown()
      modifies view
      ensures Valid() && DisplayShown()
      ensures Current() == old(Current()).(view := MouseMove(old(view.State()), client))
    {
      view.HandleMouseMove(client);
    }

    method HandleMouseUpOrLeave()
      requires Valid() && DisplayShown()
      modifies view
      ensures Valid() && DisplayShown()
      ensures Current() == old(Current()).(view := MouseUpOrLeave(old(view.State())))
    {
      view.HandleMouseUpOrLeave();
    }

    method HandleResetTransform()
      requires Valid()
      modifies view
      ensures Valid()
      ensures Current() == old(Current()).(view := ResetView(old(view.State())))
    {
      view.Reset();
    }
  }
}
