/** The image manager's handlers: adding the files the user picked (each gets a
    fresh object URL and no filter) and removing an image by id (releasing the
    object URL of the first image with that id). Both hand the new list to the
    application, which drops the layout. */
module ImageManager {
  import opened Types
  import App
  import ObjectUrls

  /** `${file.name}-${Date.now()}`, with the clock reading passed in. */
  function ImageId(file: File, stamp: string): (id: string)
    ensures |id| > |file.name| && id[..|file.name|] == file.name && id[|file.name|] == '-'
    ensures id[|file.name| + 1..] == stamp
  {
    file.name + "-" + stamp
  }

  /** The images made for freshly picked files, the k-th one shown through handle
      `firstHandle + k`. */
  function NewImages(files: seq<File>, stamps: seq<string>, firstHandle: nat): (r: seq<UploadedImage>)
    requires |stamps| == |files|
    ensures |r| == |files|
    ensures forall k :: 0 <= k < |files| ==> r[k].file == files[k] && r[k].id == ImageId(files[k], stamps[k])
    ensures forall k :: 0 <= k < |files| ==> r[k].filter.None? && r[k].previewUrl.handle >= firstHandle
    ensures forall j, k :: 0 <= j < k < |files| ==> r[j].previewUrl != r[k].previewUrl
  {
    seq(|files|, k requires 0 <= k < |files| =>
          UploadedImage(ImageId(files[k], stamps[k]), files[k], ObjectUrl(firstHandle + k), None))
  }

  /** `Array.prototype.find` by id: the first image whose id is `id`. */
  function FindIndex(images: seq<UploadedImage>, id: string): (r: Option<nat>)
    ensures r.None? <==> forall i :: 0 <= i < |images| ==> images[i].id != id
    ensures r.Some? ==> r.value < |images| && images[r.value].id == id
    ensures r.Some? ==> forall j :: 0 <= j < r.value ==> images[j].id != id
    decreases |images|
  {
    if images == [] then None
    else if images[0].id == id then Some(0)
    else match FindIndex(images[1..], id)
      case Some(i) => Some(i + 1)
      case None => None
  }

  function FindById(images: seq<UploadedImage>, id: string): (r: Option<UploadedImage>)
    ensures r.None? <==> forall i :: 0 <= i < |images| ==> images[i].id != id
    ensures r.Some? ==> r.value.id == id && r.value in images
    ensures r.Some? ==> exists i :: 0 <= i < |images| && images[i] == r.value && forall j :: 0 <= j < i ==> images[j].id != id
  {
    match FindIndex(images, id)
    case Some(i) => Some(images[i])
    case None => None
  }

  /** `images.filter(image => image.id !== id)`. */
  function RemoveById(images: seq<UploadedImage>, id: string): (r: seq<UploadedImage>)
    ensures |r| <= |images|
    ensures forall x :: x in r <==> x in images && x.id != id
    ensures (forall i :: 0 <= i < |images| ==> images[i].id != id) ==> r == images
    decreases |images|
  {
    if images == [] then []
    else
      assert images == [images[0]] + images[1..];
      (if images[0].id != id then [images[0]] else []) + RemoveById(images[1..], id)
  }

  /** Removal keeps the order of what remains: it works piecewise on a concatenation. */
  lemma {:induction false} RemoveByIdSplits(a: seq<UploadedImage>, b: seq<UploadedImage>, id: string)
    ensures RemoveById(a + b, id) == RemoveById(a, id) + RemoveById(b, id)
    decreases |a|
  {
    if a == [] {
      assert a + b == b;
    } else {
      assert (a + b)[0] == a[0];
      assert (a + b)[1..] == a[1..] + b;
      RemoveByIdSplits(a[1..], b, id);
    }
  }

  /** The list is left as it was exactly when no image has the id, which is exactly
      when nothing is released. */
  lemma RemovalChangesListIffFound(images: seq<UploadedImage>, id: string)
    ensures RemoveById(images, id) == images <==> FindById(images, id).None?
  {
  }

  /** The picked files (absent when the picker returned nothing) become new images
      appended after the existing ones; one clock reading per file. */
  method HandleFileChange(app: App.CollageApp, urls: ObjectUrls.Registry, files: Option<seq<File>>, stamps: seq<string>)
    requires app.Valid()
    requires files.Some? ==> |stamps| == |files.value|
    modifies app, app.view, urls
    ensures app.Valid()
    ensures files.None? ==>
      app.Current() == old(app.Current()) && urls.issued == old(urls.issued) && urls.released == old(urls.released)
    ensures files.Some? ==>
      && app.Current() == App.Settled(old(app.Current()).(
           images := old(app.images) + NewImages(files.value, stamps, old(urls.issued)),
           collageLayout := None))
      && urls.issued == old(urls.issued) + |files.value| && urls.released == old(urls.released)
  {
    if files.None? {
      return;
    }
    var picked := files.value;
    var newImages: seq<UploadedImage> := [];
    var i := 0;
    while i < |picked|
      invariant 0 <= i <= |picked|
      invariant urls.issued == old(urls.issued) + i && urls.released == old(urls.released)
      invariant newImages == NewImages(picked[..i], stamps[..i], old(urls.issued))
      modifies urls
    {
      var previewUrl := urls.Create(picked[i]);
      newImages := newImages + [UploadedImage(ImageId(picked[i], stamps[i]), picked[i], previewUrl, None)];
      assert picked[..i + 1] == picked[..i] + [picked[i]];
      assert stamps[..i + 1] == stamps[..i] + [stamps[i]];
      i := i + 1;
    }
    assert picked[..i] == picked && stamps[..i] == stamps;
    app.HandleImagesChange(app.images + newImages);
  }

  /** Removing id `id` releases the object URL of the first image with that id (if
      any) and leaves exactly the images with other ids, in order. */
  method HandleRemoveImage(app: App.CollageApp, urls: ObjectUrls.Registry, id: string)
    requires app.Valid()
    modifies app, app.view, urls
    ensures app.Valid()
    ensures app.Current() == App.Settled(old(app.Current()).(images := RemoveById(old(app.images), id), collageLayout := None))
    ensures urls.released == old(urls.released) +
              (match FindById(old(app.images), id) case Some(x) => [x.previewUrl] case None => [])
    ensures urls.issued == old(urls.issued)
  {
    var imageToRemove := FindById(app.images, id);
    if imageToRemove.Some? {
      urls.Revoke(imageToRemove.value.previewUrl);
    }
    app.HandleImagesChange(RemoveById(app.images, id));
  }
}
