# AI collage maker: viewport, compositor, exporter and editor state

A Dafny model of the core of a browser collage editor. The user uploads photos. A
generative model is asked for a layout document that gives each photo a
percentage-based box, a rotation, a stacking order and, for the Polaroid style, a
caption. The editor draws that layout in a frame the user can zoom with the wheel
and pan by dragging. It can place a colour, an uploaded image or a generated
image behind the collage, and it exports the frame as PNG or JPEG at the identity
view transform.

The model has six modules, one per source file or concern:

- `Types` (`types.ts`): uploaded images, layout entries and documents, filter tags,
  collage styles, and the three-way `Background` union. Every number is a `real`.
- `ObjectUrls`: the browser's object-URL registry. `URL.createObjectURL` is a
  supply of handles that are never reused. `URL.revokeObjectURL` appends to a log
  of releases.
- `CollageDisplay` (`components/CollageDisplay.tsx`):
  - the filter table;
  - the zoom/pan state machine, as pure transition functions on `ViewState` and as
    the imperative class `Viewport` proved against them;
  - the render projection from a layout, the image list, the background and the
    view to a `Frame` of positioned elements.
- `GeminiService` (`services/geminiService.ts`):
  - the layout-count check and its error folding;
  - the PNG data URL of a generated background;
  - `split(',')[1]`, the prefix stripping applied to files read as data URLs.
- `App` (`App.tsx`): the class `CollageApp` with the application's state fields
  and one method per handler. Export overwrites and restores the collage node's
  transform.
- `ImageManager` (`components/ImageManager.tsx`): the add-files loop and
  remove-by-id, both acting on a `CollageApp` and the URL registry.

`Viewport` holds the scale and the position, which belong to the application. It
also holds the display's two references, `isPanning` and `panStart`. React throws
those references away whenever the display leaves the page: when it is loading,
shows an error or has no layout. The model mirrors this: every `CollageApp`
handler that can hide the display clears the drag session (`Settled`).
`CollageApp.Valid` carries three invariants:

- the scale is always in [0.25, 4];
- an installed layout has exactly one entry per image, and there are at least two
  images (with handlers run one at a time; see "## Left out");
- no drag session survives while the display is hidden.

From the second invariant, `CollageApp.Display` proves that every layout entry is
drawn.

Four behaviours of the code are worth knowing, and the model follows them:

- The code does not sort entries by `zIndex`. It only passes `zIndex` through as a
  style.
- The view transform applies to the frame that also paints the background.
- An uploaded background's object URL is released only when another upload
  replaces it (`App.tsx:88-95`). It is not released when a generated background
  replaces it, nor when the colour picker does.
- An image list replaced through `handleImagesChange` releases nothing. Only
  remove-by-id releases, and only for the first image with that id.

## Model

| member | source | states |
|---|---|---|
| `ObjectUrls.Registry.Create` | components/ImageManager.tsx:92 | a new object URL is the next unused handle; no handle is ever issued twice, and no release happens |
| `ObjectUrls.Registry.Revoke` | components/ImageManager.tsx:103 | a release is logged and the URL is no longer live |
| `CollageDisplay.FilterCss` | components/CollageDisplay.tsx:14-19 | the fixed tag-to-CSS table; only the `none` tag renders as `none` |
| `CollageDisplay.FilterCssInjective` | components/ImageManager.tsx:11-16 | two different tags never render as the same CSS filter |
| `CollageDisplay.ElementFilter` | components/CollageDisplay.tsx:123 | an element's filter is `none` exactly when the image has no tag or the `none` tag; otherwise it is the table entry |
| `CollageDisplay.ZoomedScale` | components/CollageDisplay.tsx:36-38 | a wheel step always gives a scale in [0.25, 4]; scrolling down divides by 1.1 and scrolling up multiplies by 1.1; a result below 0.25 or above 4 is clamped to that bound; from an in-range scale, scrolling down gives at least scale / 1.1 and strictly less unless already at 0.25, scrolling up at most scale × 1.1 and strictly more unless already at 4 |
| `CollageDisplay.AnchoredKeepsPoint` | components/CollageDisplay.tsx:44-45 | the re-anchored translation plus the new scale times the old content coordinate equals the cursor coordinate |
| `CollageDisplay.Wheel` | components/CollageDisplay.tsx:32-49 | a wheel step sets the scale to the zoomed-and-clamped value, so it stays in range and moves with the wheel direction; it keeps the content point under the cursor fixed on both axes; when clamping leaves the scale unchanged, the position does not move; the drag state is untouched |
| `CollageDisplay.MouseDown` | components/CollageDisplay.tsx:51-55 | pointer down starts panning and records the pointer position; scale and position are unchanged |
| `CollageDisplay.MouseMove` | components/CollageDisplay.tsx:57-64 | without panning a move changes nothing; while panning, the position moves by the pointer's displacement since the last recorded point, which becomes the new recorded point |
| `CollageDisplay.MouseUpOrLeave` | components/CollageDisplay.tsx:66-68 | pointer up or leave ends panning and changes nothing else |
| `CollageDisplay.ResetView` | App.tsx:125-128 | reset gives scale 1 and position (0,0) whatever the prior state |
| `CollageDisplay.Step` | components/CollageDisplay.tsx:82-86 | dispatching any of the four events keeps the scale positive |
| `CollageDisplay.ScaleStaysInRange` | components/CollageDisplay.tsx:36-38 | after any sequence of wheel and pointer events, a scale that started in range is still in range |
| `CollageDisplay.PanTelescopes` | components/CollageDisplay.tsx:57-64 | during a drag, moves m1..mn shift the position by mn minus the recorded start point; the deltas telescope and the scale is unchanged |
| `CollageDisplay.DragSession` | components/CollageDisplay.tsx:51-64 | pointer-down at d followed by moves m1..mn moves the position by exactly mn − d |
| `CollageDisplay.MovesAfterReleaseIgnored` | components/CollageDisplay.tsx:57-68 | after pointer up or leave, any number of moves leave the whole view state unchanged |
| `CollageDisplay.Viewport.constructor` | App.tsx:25-26 | the view starts at scale 1 and position (0,0), with no drag in progress |
| `CollageDisplay.Viewport.HandleWheel` | components/CollageDisplay.tsx:32-49 | the imperative wheel handler yields the state `Wheel` specifies and keeps the scale in range |
| `CollageDisplay.Viewport.HandleMouseDown` | components/CollageDisplay.tsx:51-55 | the imperative handler yields the state `MouseDown` specifies |
| `CollageDisplay.Viewport.HandleMouseMove` | components/CollageDisplay.tsx:57-64 | the imperative handler, with its early return, yields the state `MouseMove` specifies |
| `CollageDisplay.Viewport.HandleMouseUpOrLeave` | components/CollageDisplay.tsx:66-68 | the imperative handler yields the state `MouseUpOrLeave` specifies |
| `CollageDisplay.Viewport.Reset` | App.tsx:125-128 | resetting yields the state `ResetView` specifies and keeps the scale in range |
| `CollageDisplay.Viewport.Unmount` | components/CollageDisplay.tsx:23-24 | when the display leaves the page, its references return to their initial values; scale and position are kept |
| `CollageDisplay.ViewTransform` | components/CollageDisplay.tsx:94-95 | the frame is drawn with `translate(x px, y px) scale(s)` taken from the view |
| `CollageDisplay.ZoomKeepsPointUnderCursor` | components/CollageDisplay.tsx:41-45 | through the rendered top-left-origin transform, the collage point under the cursor is drawn under the cursor both before and after a wheel step |
| `CollageDisplay.ResetViewIsIdentity` | App.tsx:101 | the reset view renders exactly the identity transform that export installs, which maps every point to itself |
| `CollageDisplay.BackgroundStyleOf` | components/CollageDisplay.tsx:70-76 | a colour background is a solid fill of that colour; an uploaded or generated image is drawn covering the frame, centred |
| `CollageDisplay.Render` | components/CollageDisplay.tsx:78-154 | nothing renders without images. Otherwise the frame has the layout's aspect ratio, the background style, the view transform and a top-left origin, plus one slot per layout entry. Slot i holds an element exactly when image i exists. That element is keyed by the image id, shows its preview URL, box and rotation, and has the image's filter. A caption makes it a captioned card; without one it is a plain image with a 2px white border |
| `CollageDisplay.MatchingCountDrawsEverything` | components/CollageDisplay.tsx:98-100 | when the layout has one entry per image, no entry is skipped |
| `GeminiService.SplitOn` | services/geminiService.ts:18 | splitting on a character always yields at least one piece, and no piece contains the separator |
| `GeminiService.JoinSplit` | services/geminiService.ts:18 | joining the pieces with the separator gives the original text back |
| `GeminiService.SplitWithoutSeparator` | services/geminiService.ts:18 | text without the separator splits into itself alone |
| `GeminiService.SinglePieceIffNoSeparator` | services/geminiService.ts:18 | the split has a single piece exactly when the separator does not occur |
| `GeminiService.SplitAfterHead` | services/geminiService.ts:18 | a separator-free head followed by the separator comes off as the first piece, and the rest splits on its own |
| `GeminiService.StripDataUrlPrefix` | services/geminiService.ts:16-18 | the result is absent (`undefined`) exactly when the text has no comma; when present, it contains no comma |
| `GeminiService.SecondSegment` | services/geminiService.ts:18 | the result is the text after the first comma up to the next comma or the end |
| `GeminiService.PngDataUrl` | services/geminiService.ts:78 | the background URL is `data:image/png;base64,` followed by exactly the image's base64 text |
| `GeminiService.DataUrlRoundTrip` | services/geminiService.ts:76-78 | stripping the prefix off a PNG data URL returns the base64 text |
| `GeminiService.GenerateCollageLayout` | services/geminiService.ts:50-62 | a layout is returned exactly when the response parsed and has one entry per file sent. A parse failure and a count mismatch both fold into the single invalid-layout error. A failed call keeps its own error |
| `GeminiService.GenerateBackgroundImage` | services/geminiService.ts:76-81 | success exactly when the response lists at least one image; the result is the first image's PNG data URL; a missing or empty list gives the "failed to generate" error |
| `GeminiService.BackgroundCarriesFirstImage` | services/geminiService.ts:76-78 | the generated background URL gives back the first image's bytes under the uploader's prefix stripping |
| `App.StoredFilter` | App.tsx:38 | choosing `none` removes the tag, and any other choice is kept; either way the element then renders the chosen filter's CSS |
| `App.ApplyFilter` | App.tsx:35-41 | length and order are kept, and images with other ids are untouched. Each image with the id has the chosen filter stored (none for `none`) and nothing else changed |
| `App.LastFilterWins` | App.tsx:35-41 | choosing filter f and then g for an id is the same as choosing g |
| `App.PromptBackgroundColor` | App.tsx:54 | the layout request names the background colour for a colour background and `#111827` otherwise |
| `App.Files` | App.tsx:53 | the request carries every image's file, in order |
| `App.LayoutRequestFor` | App.tsx:53-54 | the request carries one file per image |
| `App.AdoptedBackground` | App.tsx:59-61 | a colour background takes the layout's background colour when the layout names one; an image or generated background is never replaced |
| `App.ExportFileName` | App.tsx:112 | the download is named `ai-collage.` followed by the format's extension |
| `App.ExportOptionsFor` | App.tsx:104-109 | the rasteriser gets a background colour exactly for colour backgrounds, and a quality of 0.95 exactly for JPEG |
| `App.Settled` | App.tsx:182 | a shown display's state comes back unchanged; a hidden display loses its drag in progress; nothing but `isPanning` and `panStart` ever changes |
| `App.CollageApp.constructor` | App.tsx:16-28 | no images and no layout; not loading and no error; the Dynamic style; the `#111827` colour background; the initial view |
| `App.CollageApp.Display` | App.tsx:182-193 | the collage is on the page exactly when not loading, with no error and a layout. Then every image draws its layout entry, since an installed layout has one entry per image |
| `App.CollageApp.Settle` | App.tsx:182 | while the display is hidden its drag state is cleared; nothing else changes |
| `App.CollageApp.HandleImagesChange` | App.tsx:30-33 | replacing the image list always clears the layout; nothing else changes apart from clearing a hidden display's drag state |
| `App.CollageApp.HandleFilterChange` | App.tsx:35-41 | only the image list changes, as `ApplyFilter` states |
| `App.CollageApp.HandleGenerateCollage` | App.tsx:43-68 | with fewer than 2 images, only the error is set. Otherwise the validated reply decides. On success the layout is installed, the view is reset to scale 1 and (0,0), and the colour is adopted. On failure there is no layout, the error is set, and view and background are unchanged. Loading ends either way, and the images and style are kept |
| `App.CollageApp.HandleGenerateBackground` | App.tsx:70-86 | an empty prompt only sets the error, and the background is unchanged. Otherwise success installs `generated` with the returned URL and the prompt. Failure sets the error and keeps the background |
| `App.CollageApp.HandleBackgroundImageUpload` | App.tsx:88-95 | the previous URL is released exactly when the previous background was an uploaded image. A fresh URL is created and installed with the file. Nothing else changes |
| `App.CollageApp.HandleExport` | App.tsx:97-123 | without a displayed collage nothing happens. Otherwise the capture sees the identity transform and the right options, and the node's transform is restored on success and on failure alike. Success downloads `ai-collage.<format>`. Failure sets the export error |
| `App.CollageApp.HandleResetTransform` | App.tsx:125-128 | only the view changes, to scale 1 and position (0,0) |
| `App.CollageApp.HandleWheel` | App.tsx:182-193 | while the display is shown, a wheel event changes only the view, to the state `Wheel` specifies, and the application invariant holds |
| `App.CollageApp.HandleMouseDown` | App.tsx:182-193 | while the display is shown, a pointer-down changes only the view, as `MouseDown` specifies, keeping the invariant |
| `App.CollageApp.HandleMouseMove` | App.tsx:182-193 | while the display is shown, a pointer move changes only the view, as `MouseMove` specifies, keeping the invariant |
| `App.CollageApp.HandleMouseUpOrLeave` | App.tsx:182-193 | while the display is shown, pointer up or leave changes only the view, as `MouseUpOrLeave` specifies, keeping the invariant |
| `ImageManager.ImageId` | components/ImageManager.tsx:90 | an image id is the file name, a dash, then the clock reading |
| `ImageManager.NewImages` | components/ImageManager.tsx:89-93 | one new image per picked file, in order. Each carries its file and no filter. Their preview URLs are pairwise distinct and newer than every URL issued before |
| `ImageManager.FindIndex` | components/ImageManager.tsx:101 | finds the first position whose id matches, and none exactly when no image has the id |
| `ImageManager.FindById` | components/ImageManager.tsx:101 | the image found has the id and is the first image in the list with it; none exactly when no image has the id |
| `ImageManager.RemoveById` | components/ImageManager.tsx:105 | an image is kept exactly when it was in the list with a different id; when no image has the id, the list is returned unchanged |
| `ImageManager.RemoveByIdSplits` | components/ImageManager.tsx:105 | removal distributes over concatenation, so the survivors keep their original order |
| `ImageManager.RemovalChangesListIffFound` | components/ImageManager.tsx:101-105 | the list is unchanged exactly when no image has the id, which is exactly when nothing is released |
| `ImageManager.HandleFileChange` | components/ImageManager.tsx:86-98 | no file list, no change. Otherwise the new list is the old list followed by the new images, which get consecutive fresh URLs and no filter. The list goes to the application, which drops the layout. Nothing is released |
| `ImageManager.HandleRemoveImage` | components/ImageManager.tsx:100-106 | only the first image with the id has its URL released, even when several share it; nothing is released when the id is absent. The application receives exactly the images with other ids, in order, and drops the layout |

## Left out

- Network calls to the layout and image models, the prompt text and response schema in `constants.ts`, the `API_KEY` check, `FileReader`, `response.text.trim()` and `JSON.parse`. A layout reply is an input: a failed call, or a response that did or did not parse to a layout. An image reply is likewise an input. The rest are foreign I/O or configuration of a black box.
- Asynchronous sequencing: the model runs each handler to completion. The intermediate `isLoading` and `isGeneratingBackground` states, React's batching of state updates, and stale closures over `scale` and `position` are not modelled. The count invariant (an installed layout has one entry per image), and with it `CollageApp.Display`'s promise that every entry is drawn, holds only because handlers run atomically here. In the program the image manager stays usable while a layout request is pending (`App.tsx:137-141`). An image added or removed during the await at `App.tsx:54` clears the layout, and then `App.tsx:55` installs a layout counted for the old list. The count guards at `components/CollageDisplay.tsx:26` and `:99-100` exist for that case.
- `htmlToImage` rasterisation and the `<a>` download click. The rasteriser is a function parameter that succeeds with a data URL or fails. The export outcome records what it was asked and the file name.
- React's own re-rendering of the collage node's transform from the view state. Only export's direct writes to the node are modelled. The `if (collageRef.current)` guard in export's `finally` always holds in the model, because nothing runs between capture and restore.
- Bounding-rect lookup, `preventDefault` and the missing-container early return. Wheel cursor coordinates are inputs relative to the container.
- Floating-point rounding. Scale and position are exact reals, and the anchoring identity holds only in that idealisation. The formatting of numbers into the CSS `translate`, `scale` and `rotate` strings is represented by the datatypes `CssTransform` and `Box`.
- `Date.now()`: ids take one clock reading per file, given as input.
- Paint order by `zIndex`: the code passes it through to CSS unsorted, so no sort is modelled.
- The `alt` text, the JSX markup, Tailwind classes and the caption's truncation and font.
- `components/CollageControls.tsx` (tabs, template previews, and the plain style and background setters it is handed), `Button.tsx`, `Header.tsx`, `Spinner.tsx` and `icons/index.tsx`: UI only.
- Resetting the file input's value after a pick: a DOM side effect with no effect on the state modelled.
