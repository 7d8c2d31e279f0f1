/** The pure parts of the generative-model service: checking the layout document
    that comes back against the number of images sent, folding its failures into
    one error, building the data URL of a generated background, and stripping the
    `data:...;base64,` prefix off a file read as a data URL. The network calls
    themselves are not part of the model; their replies are inputs. */
module GeminiService {
  import opened Types

  const InvalidLayoutError := "The AI returned an invalid layout. Please try again."
  const NoBackgroundError := "AI failed to generate a background image."
  const PngDataUrlPrefix := "data:image/png;base64,"

  // ---------------------------------------------------------------------------
  // Splitting on a separator, as `String.prototype.split` does with a one-character separator

  /** The pieces of `s` between occurrences of `sep`; never empty. */
  function SplitOn(s: string, sep: char): (parts: seq<string>)
    ensures |parts| >= 1
    ensures forall k :: 0 <= k < |parts| ==> sep !in parts[k]
    decreases |s|
  {
    if s == [] then [""]
    else
      var rest := SplitOn(s[1..], sep);
      if s[0] == sep then [""] + rest
      else [[s[0]] + rest[0]] + rest[1..]
  }

  /** The inverse of splitting: the pieces glued back with `sep`. */
  function JoinWith(parts: seq<string>, sep: char): string
    requires |parts| >= 1
    decreases |parts|
  {
    if |parts| == 1 then parts[0] else parts[0] + [sep] + JoinWith(parts[1..], sep)
  }

  /** Splitting loses nothing: joining the pieces gives the text back. */
  lemma {:induction false} JoinSplit(s: string, sep: char)
    ensures JoinWith(SplitOn(s, sep), sep) == s
    decreases |s|
  {
    if s != [] {
      var rest := SplitOn(s[1..], sep);
      JoinSplit(s[1..], sep);
      if s[0] == sep {
        assert SplitOn(s, sep) == [""] + rest;
        assert ([""] + rest)[1..] == rest;
      } else {
        var parts := SplitOn(s, sep);
        assert parts == [[s[0]] + rest[0]] + rest[1..];
        if |rest| == 1 {
          assert parts == [[s[0]] + rest[0]];
        } else {
          assert parts[1..] == rest[1..];
          assert JoinWith(rest, sep) == rest[0] + [sep] + JoinWith(rest[1..], sep);
        }
      }
    }
  }

  /** Text without the separator is one piece. */
  lemma {:induction false} SplitWithoutSeparator(s: string, sep: char)
    requires sep !in s
    ensures SplitOn(s, sep) == [s]
    decreases |s|
  {
    if s != [] {
      assert s[0] != sep && sep !in s[1..];
      SplitWithoutSeparator(s[1..], sep);
      assert [s[0]] + s[1..] == s;
    }
  }

  /** Splitting yields one piece exactly when the separator does not occur. */
  lemma SinglePieceIffNoSeparator(s: string, sep: char)
    ensures |SplitOn(s, sep)| == 1 <==> sep !in s
  {
  }

  /** A separator-free head followed by the separator comes off as the first piece. */
  lemma {:induction false} SplitAfterHead(head: string, sep: char, tail: string)
    requires sep !in head
    ensures SplitOn(head + [sep] + tail, sep) == [head] + SplitOn(tail, sep)
    decreases |head|
  {
    if head == [] {
      assert head + [sep] + tail == [sep] + tail;
      assert ([sep] + tail)[1..] == tail;
    } else {
      var s := head + [sep] + tail;
      assert s[1..] == head[1..] + [sep] + tail;
      assert sep !in head[1..];
      SplitAfterHead(head[1..], sep, tail);
      assert [head[0]] + head[1..] == head;
    }
  }

  // ---------------------------------------------------------------------------
  // Data URLs

  /** `result.split(',')[1]`: the text after the first comma up to the next comma
      or the end; absent (`undefined`) when there is no comma at all. */
  function StripDataUrlPrefix(dataUrl: string): (payload: Option<string>)
    ensures payload.None? <==> ',' !in dataUrl
    ensures payload.Some? ==> ',' !in payload.value
  {
    var parts := SplitOn(dataUrl, ',');
    SinglePieceIffNoSeparator(dataUrl, ',');
    if |parts| >= 2 then Some(parts[1]) else None
  }

  /** The stripped payload is the second comma-separated segment. */
  lemma SecondSegment(head: string, payload: string, rest: string)
    requires ',' !in head && ',' !in payload
    requires rest == [] || rest[0] == ','
    ensures StripDataUrlPrefix(head + "," + payload + rest) == Some(payload)
  {
    assert head + "," + payload + rest == head + [','] + (payload + rest);
    SplitAfterHead(head, ',', payload + rest);
    if rest == [] {
      assert payload + rest == payload;
      SplitWithoutSeparator(payload, ',');
    } else {
      assert payload + rest == payload + [','] + rest[1..];
      SplitAfterHead(payload, ',', rest[1..]);
    }
  }

  /** The data URL of a PNG whose base64 text is `bytes`. */
  function PngDataUrl(bytes: string): (url: string)
    ensures |url| == |PngDataUrlPrefix| + |bytes|
    ensures url[..|PngDataUrlPrefix|] == PngDataUrlPrefix && url[|PngDataUrlPrefix|..] == bytes
  {
    PngDataUrlPrefix + bytes
  }

  /** Stripping the prefix off a PNG data URL gives back the base64 text, which
      never contains a comma. */
  lemma DataUrlRoundTrip(bytes: string)
    requires ',' !in bytes
    ensures StripDataUrlPrefix(PngDataUrl(bytes)) == Some(bytes)
  {
    var head := "data:image/png;base64";
    assert PngDataUrl(bytes) == head + "," + bytes + [];
    SecondSegment(head, bytes, []);
  }

  // ---------------------------------------------------------------------------
  // Layout generation

  /** What the layout request carries besides the prompt text. */
  datatype LayoutRequest = LayoutRequest(files: seq<File>, style: CollageStyle, backgroundColor: string)

  /** The layout model's answer: the call failed outright, or a response came back
      whose text did (`Some`) or did not (`None`) parse as a layout document. */
  datatype LayoutReply =
    | LayoutServiceFailure(message: string)
    | LayoutResponse(parsed: Option<CollageLayout>)

  /** A layout is returned only when it has one entry per file sent; a parse error
      and a count mismatch are both reported as the single invalid-layout error;
      a failed call propagates its own error. */
  function GenerateCollageLayout(request: LayoutRequest, reply: LayoutReply): (r: Result<CollageLayout, string>)
    ensures r.Ok? <==> reply.LayoutResponse? && reply.parsed.Some? && |reply.parsed.value.images| == |request.files|
    ensures r.Ok? ==> r.value == reply.parsed.value && |r.value.images| == |request.files|
    ensures reply.LayoutResponse? && r.Err? ==> r.error == InvalidLayoutError
    ensures reply.LayoutServiceFailure? ==> r == Err(reply.message)
  {
    match reply
    case LayoutServiceFailure(message) => Err(message)
    case LayoutResponse(parsed) =>
      if parsed.Some? && |parsed.value.images| == |request.files| then Ok(parsed.value)
      else Err(InvalidLayoutError)
  }

  // ---------------------------------------------------------------------------
  // Background generation

  datatype GeneratedImage = GeneratedImage(imageBytes: string)

  /** The image model's answer: the call failed outright, or a response whose list
      of generated images may be missing or empty. */
  datatype ImagesReply =
    | ImagesServiceFailure(message: string)
    | ImagesResponse(generatedImages: Option<seq<GeneratedImage>>)

  /** The first generated image as a PNG data URL; a missing or empty list is an error. */
  function GenerateBackgroundImage(reply: ImagesReply): (r: Result<string, string>)
    ensures r.Ok? <==> reply.ImagesResponse? && reply.generatedImages.Some? && |reply.generatedImages.value| > 0
    ensures r.Ok? ==> r.value == PngDataUrl(reply.generatedImages.value[0].imageBytes)
    ensures reply.ImagesResponse? && r.Err? ==> r.error == NoBackgroundError
    ensures reply.ImagesServiceFailure? ==> r == Err(reply.message)
  {
    match reply
    case ImagesServiceFailure(message) => Err(message)
    case ImagesResponse(generated) =>
      if generated.Some? && |generated.value| > 0 then Ok(PngDataUrl(generated.value[0].imageBytes))
      else Err(NoBackgroundError)
  }

  /** The background data URL carries the first image's base64 text, recoverable
      by the same prefix stripping the uploader applies. */
  lemma BackgroundCarriesFirstImage(reply: ImagesReply)
    requires GenerateBackgroundImage(reply).Ok?
    requires ',' !in reply.generatedImages.value[0].imageBytes
    ensures StripDataUrlPrefix(GenerateBackgroundImage(reply).value) == Some(reply.generatedImages.value[0].imageBytes)
  {
    DataUrlRoundTrip(reply.generatedImages.value[0].imageBytes);
  }
}
