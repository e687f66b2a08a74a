/**
 * The media-host helpers: the checks and endpoint choice made before an
 * unsigned upload, and the delivery-URL rewrite that inserts image
 * transformations. The upload request itself is not modelled: its outcome
 * is a parameter.
 */
module CloudinaryService {
  import opened Common

  const UPLOAD_SEGMENT := "/upload/"
  const NO_CLOUD := "Cloudinary cloud name not configured"
  const NO_PRESET := "Upload preset not configured"
  const UPLOAD_FAILED := "Upload failed"

  /** The five upload entry points. */
  datatype UploadKind = ProfileImage | ChatImage | GroupIcon | Audio | File

  /** The build-time configuration: the cloud name and one preset per upload kind, each possibly unset. */
  datatype Config = Config(cloudName: Option<string>, profileImage: Option<string>, images: Option<string>,
                           groupIcon: Option<string>, audio: Option<string>, file: Option<string>)

  /** What is posted: the endpoint, the preset and the folder. */
  datatype UploadRequest = UploadRequest(endpoint: string, preset: string, folder: string)

  function Preset(config: Config, kind: UploadKind): Option<string>
  {
    match kind
    case ProfileImage => config.profileImage
    case ChatImage => config.images
    case GroupIcon => config.groupIcon
    case Audio => config.audio
    case File => config.file
  }

  function Folder(kind: UploadKind): (r: string)
    ensures |r| > 7 && r[..7] == "zychat/"
  {
    match kind
    case ProfileImage => "zychat/profile"
    case ChatImage => "zychat/chat-images"
    case GroupIcon => "zychat/group-icons"
    case Audio => "zychat/audio"
    case File => "zychat/files"
  }

  /** The resource type of the endpoint: audio goes to the video endpoint, general files are raw. */
  function ResourceType(kind: UploadKind): (r: string)
    ensures r in {"image", "video", "raw"}
    ensures r == "video" <==> kind == Audio
    ensures r == "raw" <==> kind == File
  {
    match kind
    case Audio => "video"
    case File => "raw"
    case _ => "image"
  }

  /** The checks uploadToCloudinary makes before any request, and the request it would send. */
  function PrepareUpload(config: Config, kind: UploadKind): (r: Result<UploadRequest>)
    ensures !Truthy(config.cloudName) ==> r == Err(NO_CLOUD)
    ensures Truthy(config.cloudName) && !Truthy(Preset(config, kind)) ==> r == Err(NO_PRESET)
    ensures r.Ok? <==> Truthy(config.cloudName) && Truthy(Preset(config, kind))
    ensures r.Ok? ==> r.value.preset == Preset(config, kind).value && r.value.folder == Folder(kind)
  {
    if !Truthy(config.cloudName) then Err(NO_CLOUD)
    else if !Truthy(Preset(config, kind)) then Err(NO_PRESET)
    else Ok(UploadRequest("https://api.cloudinary.com/v1_1/" + config.cloudName.value + "/" + ResourceType(kind) + "/upload",
                          Preset(config, kind).value, Folder(kind)))
  }

  /**
   * An upload: a configuration error is raised before anything is sent;
   * otherwise the response decides, a failure without a message reading
   * "Upload failed", a success giving the secure URL.
   */
  function Upload(config: Config, kind: UploadKind, response: Result<string>): (r: Result<string>)
    ensures PrepareUpload(config, kind).Err? ==> r == Err(PrepareUpload(config, kind).message)
    ensures PrepareUpload(config, kind).Ok? ==> r.Ok? == response.Ok?
    ensures PrepareUpload(config, kind).Ok? && response.Ok? ==> r == response
    ensures r.Err? ==> |r.message| > 0
  {
    match PrepareUpload(config, kind)
    case Err(m) => Err(m)
    case Ok(_) =>
      match response
      case Ok(url) => Ok(url)
      case Err(m) => Err(if |m| > 0 then m else UPLOAD_FAILED)
  }

  /** The options of getOptimizedImageUrl; an absent quality or format defaults to "auto". */
  datatype ImageOptions = ImageOptions(width: Option<nat>, height: Option<nat>,
                                       quality: Option<string>, format: Option<string>)

  /** A number option is truthy when present and not zero. */
  predicate Given(n: Option<nat>)
  {
    n.Some? && n.value != 0
  }

  /** The transformation list, in its fixed order. */
  function Transformations(options: ImageOptions): (r: seq<string>)
    ensures |r| == 3 + (if Given(options.width) then 1 else 0) + (if Given(options.height) then 1 else 0)
    ensures r[|r| - 3..] == ["q_" + (if options.quality.Some? then options.quality.value else "auto"),
                             "f_" + (if options.format.Some? then options.format.value else "auto"),
                             "c_fill"]
    ensures Given(options.width) ==> r[0] == "w_" + NatToString(options.width.value)
    ensures Given(options.height) ==> r[|r| - 4] == "h_" + NatToString(options.height.value)
  {
    (if Given(options.width) then ["w_" + NatToString(options.width.value)] else [])
    + (if Given(options.height) then ["h_" + NatToString(options.height.value)] else [])
    + ["q_" + (if options.quality.Some? then options.quality.value else "auto"),
       "f_" + (if options.format.Some? then options.format.value else "auto"),
       "c_fill"]
  }

  /** The URL is rewritten only when it is non-empty, mentions the host and has exactly one upload segment. */
  predicate Rewritable(url: string)
  {
    |url| > 0 && Contains(url, "cloudinary") && |Split(url, UPLOAD_SEGMENT)| == 2
  }

  /** getOptimizedImageUrl. */
  function GetOptimizedImageUrl(url: string, options: ImageOptions): (r: string)
    ensures !Rewritable(url) ==> r == url
    ensures Rewritable(url) ==>
      var prefix, suffix := Split(url, UPLOAD_SEGMENT)[0], Split(url, UPLOAD_SEGMENT)[1];
      && url == prefix + UPLOAD_SEGMENT + suffix
      && r == prefix + UPLOAD_SEGMENT + Join(Transformations(options), ",") + "/" + suffix
  {
    if |url| == 0 || !Contains(url, "cloudinary") then url
    else
      var parts := Split(url, UPLOAD_SEGMENT);
      if |parts| != 2 then url
      else
        SplitInTwo(url, UPLOAD_SEGMENT);
        parts[0] + UPLOAD_SEGMENT + Join(Transformations(options), ",") + "/" + parts[1]
  }

  /** Taking the inserted transformation segment back out of a rewritten URL gives the original. */
  lemma RewriteInsertsOneSegment(url: string, options: ImageOptions)
    requires Rewritable(url)
    ensures var r := GetOptimizedImageUrl(url, options);
            var k := |Split(url, UPLOAD_SEGMENT)[0]| + |UPLOAD_SEGMENT|;
            var t := Join(Transformations(options), ",");
            k + |t| + 1 <= |r| && r[k..k + |t| + 1] == t + "/" && r[..k] + r[k + |t| + 1..] == url
  {
    var r := GetOptimizedImageUrl(url, options);
    var prefix, suffix := Split(url, UPLOAD_SEGMENT)[0], Split(url, UPLOAD_SEGMENT)[1];
    var t := Join(Transformations(options), ",");
    var k := |prefix| + |UPLOAD_SEGMENT|;
    assert r == (prefix + UPLOAD_SEGMENT) + (t + "/") + suffix;
    assert r[..k] == prefix + UPLOAD_SEGMENT;
    assert r[k + |t| + 1..] == suffix;
  }
}
