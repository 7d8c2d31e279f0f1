/** The data model of the collage editor: uploaded images, the layout document the
    layout generator returns, filters and the three kinds of background. */
module Types {

  datatype Option<+T> = None | Some(value: T)

  datatype Result<+T, +E> = Ok(value: T) | Err(error: E)

  /** A point or a displacement in CSS pixels. */
  datatype Point = Point(x: real, y: real)

  const Origin: Point := Point(0.0, 0.0)

  function Add(p: Point, d: Point): Point { Point(p.x + d.x, p.y + d.y) }

  function Sub(p: Point, q: Point): Point { Point(p.x - q.x, p.y - q.y) }

  /** A file chosen by the user; only its name is inspected by the core. */
  datatype File = File(name: string, content: seq<bv8>)

  /** A handle made by the browser's object-URL registry (a `blob:` URL). */
  datatype ObjectUrl = ObjectUrl(handle: nat)

  datatype FilterStyle = NoFilter | Grayscale | Sepia | Invert

  /** An uploaded image: `filter` is absent when no filter was ever chosen or
      when the user picked "None". */
  datatype UploadedImage = UploadedImage(id: string, file: File, previewUrl: ObjectUrl, filter: Option<FilterStyle>)

  /** One entry of a layout document: a box given in percentage strings, a
      rotation in degrees, a stacking order and, for the Polaroid style, a caption. */
  datatype CollageImageLayout = CollageImageLayout(
    width: string,
    height: string,
    top: string,
    left: string,
    rotation: real,
    zIndex: real,
    caption: Option<string>)

  datatype Container = Container(width: real, height: real, backgroundColor: string)

  datatype CollageLayout = CollageLayout(container: Container, images: seq<CollageImageLayout>)

  datatype CollageStyle = Dynamic | Minimal | Overlap | Grid | Polaroid

  /** A solid colour, an uploaded image shown through an object URL, or an
      image the background generator returned as a data URL together with its prompt. */
  datatype Background =
    | Color(value: string)
    | Image(url: ObjectUrl, file: File)
    | Generated(value: string, prompt: string)
}
