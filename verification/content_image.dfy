/**
 * POST /v1/content/:id/content-image: an image generated from the intellectual
 * property's create-image.md template, stored with a thumbnail under a fresh folder.
 */
module ContentImage {
  import opened Common
  import opened Http
  import opened S3Service
  import Template

  const TemplateName := "create-image.md"
  const DefaultSize := "square"
  const ImageKeyVar := "IMAGE_API_KEY"
  const ImageModelVar := "OPENAI_IMAGE_MODEL"
  const DefaultImageModel := "dall-e-3"
  const BucketVar := "S3_BUCKET"
  const Quality := "hd"
  const PngType := "image/png"
  const OriginalName := "original.png"
  const ThumbnailName := "thumbnail.png"
  const MissingMessage := "Missing required field: message"
  const MissingImageKey := "IMAGE_API_KEY not set in environment."
  const InvalidSize := "Invalid size. Supported: square, portrait, landscape."
  const FailedToGenerate := "Failed to generate image"
  const DefaultStyle := "Fun cartoonish"
  const DefaultLighting := "natural lighting"
  const DefaultMood := "warm and inviting"
  const DefaultResolution := "high resolution"

  datatype ImageRequest = ImageRequest(
    message: Option<string>,
    size: Option<string>,
    subject: Option<string>,
    style: Option<string>,
    lighting: Option<string>,
    mood: Option<string>,
    resolution: Option<string>)

  /**
   * The outside world of one request: the image service (prompt, size, quality,
   * model to the URL of the image), the download, the thumbnail renderer, S3, the
   * clock in milliseconds and the eight random bytes.
   */
  datatype ImageIo = ImageIo(
    generate: (string, string, string, string) -> Reply<string>,
    download: string -> Reply<Bytes>,
    thumbnail: Bytes -> Reply<Bytes>,
    s3: S3,
    nowMs: nat,
    random: Bytes)

  /** The size table; every other size has no entry. */
  function SizeFor(size: string): (r: Option<string>)
    ensures r.Some? <==> size == "square" || size == "portrait" || size == "landscape"
    ensures size == "square" ==> r == Some("1024x1024")
    ensures size == "portrait" ==> r == Some("1024x1792")
    ensures size == "landscape" ==> r == Some("1792x1024")
  {
    if size == "square" then Some("1024x1024")
    else if size == "portrait" then Some("1024x1792")
    else if size == "landscape" then Some("1792x1024")
    else None
  }

  /** Each size has its own dimensions. */
  lemma SizeForInjective(a: string, b: string)
    requires SizeFor(a).Some? && SizeFor(a) == SizeFor(b)
    ensures a == b
  {
  }

  /**
   * The values of the image prompt: the subject defaults to the message, the
   * others to their fixed phrases, each independently.
   */
  function PromptValues(req: ImageRequest, message: string): (r: seq<(string, Template.Value)>)
    ensures Template.PlainKeys(r) && Template.DistinctKeys(r) && |r| == 5
    ensures r[0].0 == "subject" && r[1].0 == "style" && r[2].0 == "lighting"
    ensures r[3].0 == "mood" && r[4].0 == "resolution"
    ensures Truthy(req.subject) ==> r[0].1 == Template.Text(req.subject.value)
    ensures !Truthy(req.subject) ==> r[0].1 == Template.Text(message)
    ensures Truthy(req.style) ==> r[1].1 == Template.Text(req.style.value)
    ensures !Truthy(req.style) ==> r[1].1 == Template.Text(DefaultStyle)
    ensures Truthy(req.lighting) ==> r[2].1 == Template.Text(req.lighting.value)
    ensures !Truthy(req.lighting) ==> r[2].1 == Template.Text(DefaultLighting)
    ensures Truthy(req.mood) ==> r[3].1 == Template.Text(req.mood.value)
    ensures !Truthy(req.mood) ==> r[3].1 == Template.Text(DefaultMood)
    ensures Truthy(req.resolution) ==> r[4].1 == Template.Text(req.resolution.value)
    ensures !Truthy(req.resolution) ==> r[4].1 == Template.Text(DefaultResolution)
    ensures forall i :: 1 <= i < 5 ==> r[i].1.Text? && r[i].1.s != ""
    ensures message != "" ==> r[0].1.s != ""
  {
    [ ("subject", Template.Text(Or(req.subject, message))),
      ("style", Template.Text(Or(req.style, DefaultStyle))),
      ("lighting", Template.Text(Or(req.lighting, DefaultLighting))),
      ("mood", Template.Text(Or(req.mood, DefaultMood))),
      ("resolution", Template.Text(Or(req.resolution, DefaultResolution))) ]
  }

  /** `v1-content-${id}-${Date.now()}-${hex of the random bytes}`. */
  function FolderName(id: string, nowMs: nat, random: Bytes): (r: string)
    ensures StartsWith(r, "v1-content-" + id + "-")
    ensures EndsWith(r, "-" + Hex(random))
  {
    "v1-content-" + id + "-" + NatToDecimal(nowMs) + "-" + Hex(random)
  }

  /** The storage key of a file in a folder. */
  function KeyIn(folder: string, name: string): string {
    folder + "/" + name
  }

  /**
   * With eight random bytes the folder ends in sixteen lower-case hexadecimal
   * digits, so it never ends in "/".
   */
  lemma FolderNameShape(id: string, nowMs: nat, random: Bytes)
    requires |random| == 8
    ensures var f := FolderName(id, nowMs, random);
      |f| >= 16 && (forall i :: |f| - 16 <= i < |f| ==> IsHexDigit(f[i])) && !EndsWith(f, "/")
  {
    var f := FolderName(id, nowMs, random);
    var h := Hex(random);
    assert f == ("v1-content-" + id + "-" + NatToDecimal(nowMs) + "-") + h;
    forall i | |f| - 16 <= i < |f| ensures IsHexDigit(f[i]) {
      assert f[i] == h[i - (|f| - 16)];
    }
    assert f[|f| - 1] == h[15];
  }

  /**
   * Two requests for the same id get different folders when their clocks or their
   * random bytes differ.
   */
  lemma FolderNameDistinct(id: string, ms1: nat, r1: Bytes, ms2: nat, r2: Bytes)
    requires |r1| == 8 && |r2| == 8
    requires FolderName(id, ms1, r1) == FolderName(id, ms2, r2)
    ensures ms1 == ms2 && r1 == r2
  {
    var f := FolderName(id, ms1, r1);
    var p := "v1-content-" + id + "-";
    var d1, d2 := NatToDecimal(ms1), NatToDecimal(ms2);
    var h1, h2 := Hex(r1), Hex(r2);
    assert f == p + d1 + "-" + h1;
    assert f == p + d2 + "-" + h2;
    assert h1 == f[|f| - 16..] == h2;
    HexRoundTrip(r1);
    HexRoundTrip(r2);
    assert |d1| == |d2|;
    assert d1 == f[|p|..|p| + |d1|] == d2;
    DecimalRoundTrip(ms1);
    DecimalRoundTrip(ms2);
  }

  function Failed(details: string): Response {
    Response(500, ErrorDetails(FailedToGenerate, details))
  }

  /** The model the image service is asked for. */
  function ImageModel(env: Env): string {
    EnvOr(env, ImageModelVar, DefaultImageModel)
  }

  /** The folder of one request. */
  function RequestFolder(id: string, io: ImageIo): string {
    FolderName(id, io.nowMs, io.random)
  }

  /** The upload of the downloaded image as `<folder>/original.png`. */
  function OriginalPut(id: string, env: Env, io: ImageIo, original: Bytes): PutRequest {
    PutCommand(EnvVar(env, BucketVar), KeyIn(RequestFolder(id, io), OriginalName), original, PngType, None)
  }

  /** The upload of the thumbnail as `<folder>/thumbnail.png`. */
  function ThumbnailPut(id: string, env: Env, io: ImageIo, thumb: Bytes): PutRequest {
    PutCommand(EnvVar(env, BucketVar), KeyIn(RequestFolder(id, io), ThumbnailName), thumb, PngType, None)
  }

  /**
   * The work after the gates: generate, download, upload the original, render the
   * thumbnail of the downloaded image, upload it, in this order. The first failure
   * ends the request with a 500 carrying its message; the calls made until then are
   * the effects. It answers 200 exactly when all five steps return.
   */
  function Produce(id: string, prompt: string, size: string, env: Env, io: ImageIo): (h: Handled)
    ensures h.response.status in {200, 500}
    ensures 1 <= |h.effects| <= 4
    ensures h.effects[0] == GenerateImage(prompt, size, Quality, ImageModel(env))
    // the generation fails
    ensures var gen := io.generate(prompt, size, Quality, ImageModel(env));
      gen.Threw? ==> h == Handled(Failed(gen.message), h.effects[..1])
    // the download of the generated URL fails
    ensures var gen := io.generate(prompt, size, Quality, ImageModel(env));
      gen.Returned? ==>
        |h.effects| >= 2 && h.effects[1] == Download(gen.value)
        && (io.download(gen.value).Threw? ==>
              h == Handled(Failed(io.download(gen.value).message), h.effects[..2]))
    // the upload of the original fails
    ensures var gen := io.generate(prompt, size, Quality, ImageModel(env));
      gen.Returned? && io.download(gen.value).Returned? ==>
        var put1 := OriginalPut(id, env, io, io.download(gen.value).value);
        |h.effects| >= 3 && h.effects[2] == PutObject(put1)
        && (UploadToS3(io.s3, env, put1).Threw? ==>
              h == Handled(Failed(UploadToS3(io.s3, env, put1).message), h.effects[..3]))
    // the thumbnail of the downloaded bytes fails, or its upload does
    ensures var gen := io.generate(prompt, size, Quality, ImageModel(env));
      gen.Returned? && io.download(gen.value).Returned?
      && UploadToS3(io.s3, env, OriginalPut(id, env, io, io.download(gen.value).value)).Returned? ==>
        var thumb := io.thumbnail(io.download(gen.value).value);
        (thumb.Threw? ==> h == Handled(Failed(thumb.message), h.effects[..3]))
        && (thumb.Returned? ==>
              var put2 := ThumbnailPut(id, env, io, thumb.value);
              |h.effects| == 4 && h.effects[3] == PutObject(put2)
              && (UploadToS3(io.s3, env, put2).Threw? ==>
                    h == Handled(Failed(UploadToS3(io.s3, env, put2).message), h.effects[..4])))
    // success exactly when every step returned
    ensures var gen := io.generate(prompt, size, Quality, ImageModel(env));
      h.response.status == 200 <==>
        gen.Returned? && io.download(gen.value).Returned?
        && UploadToS3(io.s3, env, OriginalPut(id, env, io, io.download(gen.value).value)).Returned?
        && io.thumbnail(io.download(gen.value).value).Returned?
        && UploadToS3(io.s3, env, ThumbnailPut(id, env, io, io.thumbnail(io.download(gen.value).value).value)).Returned?
    ensures h.response.status == 200 ==>
      var folder := RequestFolder(id, io);
      var bucket := EnvVar(env, BucketVar);
      var region := EnvVar(env, RegionVar);
      |h.effects| == 4
      && h.effects[2].put.key == KeyIn(folder, OriginalName)
      && h.effects[3].put.key == KeyIn(folder, ThumbnailName)
      && h.effects[2].put.acl == DefaultAcl && h.effects[3].put.acl == DefaultAcl
      && h.response.body == Image(ObjectUrl(bucket, region, KeyIn(folder, OriginalName)),
                                  ObjectUrl(bucket, region, KeyIn(folder, ThumbnailName)),
                                  folder)
  {
    var e0 := [GenerateImage(prompt, size, Quality, ImageModel(env))];
    match io.generate(prompt, size, Quality, ImageModel(env))
    case Threw(m) => Handled(Failed(m), e0)
    case Returned(url) =>
      var e1 := e0 + [Download(url)];
      match io.download(url)
      case Threw(m) => Handled(Failed(m), e1)
      case Returned(original) =>
        var put1 := OriginalPut(id, env, io, original);
        var e2 := e1 + [PutObject(put1)];
        match UploadToS3(io.s3, env, put1)
        case Threw(m) => Handled(Failed(m), e2)
        case Returned(originalUrl) =>
          match io.thumbnail(original)
          case Threw(m) => Handled(Failed(m), e2)
          case Returned(thumb) =>
            var put2 := ThumbnailPut(id, env, io, thumb);
            var e3 := e2 + [PutObject(put2)];
            match UploadToS3(io.s3, env, put2)
            case Threw(m) => Handled(Failed(m), e3)
            case Returned(thumbnailUrl) => Handled(Response(200, Image(originalUrl, thumbnailUrl, RequestFolder(id, io))), e3)
  }

  /**
   * The handler. An unknown id is a 404 before anything else; a missing message a
   * 400; a missing create-image.md a 500; then the image key is checked before the
   * size, so without a key even a bad size is a 500; a bad size is a 400 before any
   * call.
   */
  function Handle(id: string, req: ImageRequest, env: Env, ipExists: string -> bool,
                  templates: Template.TemplateStore, io: ImageIo): (h: Handled)
    ensures !ipExists(id) ==> h == Handled(NotFound(id), [])
    ensures ipExists(id) && !Truthy(req.message) ==> h == Handled(Response(400, Error(MissingMessage)), [])
    ensures ipExists(id) && Truthy(req.message) && templates(id, TemplateName).None? ==>
      h == Handled(Failed("Template " + TemplateName + " not found for IP " + id), [])
    ensures ipExists(id) && Truthy(req.message) && templates(id, TemplateName).Some? && !EnvSet(env, ImageKeyVar) ==>
      h == Handled(Response(500, Error(MissingImageKey)), [])
    ensures ipExists(id) && Truthy(req.message) && templates(id, TemplateName).Some? && EnvSet(env, ImageKeyVar) ==>
      var size := if req.size.Some? then req.size.value else DefaultSize;
      var prompt := Template.Substituted(templates(id, TemplateName).value, PromptValues(req, req.message.value));
      (SizeFor(size).None? ==> h == Handled(Response(400, Error(InvalidSize)), []))
      && (SizeFor(size).Some? ==> h == Produce(id, prompt, SizeFor(size).value, env, io))
    ensures h.effects != [] ==> h.effects[0].GenerateImage? && h.effects[0].size in {"1024x1024", "1024x1792", "1792x1024"}
  {
    if !ipExists(id) then Handled(NotFound(id), [])
    else
      var size := if req.size.Some? then req.size.value else DefaultSize;
      if !Truthy(req.message) then Handled(Response(400, Error(MissingMessage)), [])
      else
        var values := PromptValues(req, req.message.value);
        match Template.RenderedTemplate(templates, id, TemplateName, values)
        case Err(e) => Handled(Failed(e), [])
        case Ok(prompt) =>
          if !EnvSet(env, ImageKeyVar) then Handled(Response(500, Error(MissingImageKey)), [])
          else
            match SizeFor(size)
            case None => Handled(Response(400, Error(InvalidSize)), [])
            case Some(openaiSize) => Produce(id, prompt, openaiSize, env, io)
  }

  /** An absent size is a square image. */
  lemma AbsentSizeIsSquare(id: string, req: ImageRequest, env: Env, ipExists: string -> bool,
                           templates: Template.TemplateStore, io: ImageIo)
    requires req.size.None?
    requires Handle(id, req, env, ipExists, templates, io).effects != []
    ensures Handle(id, req, env, ipExists, templates, io).effects[0].size == "1024x1024"
  {
  }
}
