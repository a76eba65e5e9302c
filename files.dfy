/**
 * The file service's pure part: the checks `uploadFile` makes before any
 * request, the mapping of the upload response, MIME categorisation, the
 * allow-list and the unit chosen to display a size.
 *
 * The document allow-list is not defined by the configuration, so it is the
 * explicit parameter `documentTypes` throughout.
 */
module Files {
  import opened Wrappers
  import opened Types
  import opened Strings
  import ApiConfig

  /** The body the upload endpoint answers with. */
  datatype FileUploadResponse = FileUploadResponse(
    id: string,
    url: string,
    filename: string,
    originalFilename: string,
    contentType: string,
    size: int,
    status: string)

  /** Image, audio, video and document types, in that order. */
  function AllowedTypes(documentTypes: seq<string>): seq<string>
  {
    ApiConfig.AllowedImageTypes + ApiConfig.AllowedAudioTypes + ApiConfig.AllowedVideoTypes + documentTypes
  }

  /** `isAllowedType`: exact membership in the union of the four lists. */
  predicate IsAllowedType(mimeType: string, documentTypes: seq<string>)
  {
    mimeType in AllowedTypes(documentTypes)
  }

  /** `getFileType`: the first of the image, audio and video lists holding the type, else `file`. */
  function GetFileType(mimeType: string): (k: ContentType)
    ensures k != Text
    ensures k == Image <==> mimeType in ApiConfig.AllowedImageTypes
    ensures k == Audio <==> mimeType in ApiConfig.AllowedAudioTypes
    ensures k == Video <==> mimeType in ApiConfig.AllowedVideoTypes
    ensures k == File <==> mimeType !in ApiConfig.AllowedImageTypes + ApiConfig.AllowedAudioTypes + ApiConfig.AllowedVideoTypes
  {
    if mimeType in ApiConfig.AllowedImageTypes then Image
    else if mimeType in ApiConfig.AllowedAudioTypes then Audio
    else if mimeType in ApiConfig.AllowedVideoTypes then Video
    else File
  }

  /** The message of the size rejection; the limit is printed in MiB. */
  function SizeLimitText(): string
  {
    "File size exceeds maximum allowed (" + NatToString(ApiConfig.MaxFileSize / 1024 / 1024) + "MB)"
  }

  /** The message of the type rejection. */
  function TypeErrorText(mimeType: string): string
  {
    "File type '" + mimeType + "' is not supported"
  }

  /** The two guards `uploadFile` evaluates before the request: size first, then type. */
  function ValidateUpload(size: int, mimeType: string, documentTypes: seq<string>): (r: Option<string>)
    ensures r.None? <==> size <= ApiConfig.MaxFileSize && IsAllowedType(mimeType, documentTypes)
    ensures size > ApiConfig.MaxFileSize ==> r == Some(SizeLimitText())
    ensures size <= ApiConfig.MaxFileSize && !IsAllowedType(mimeType, documentTypes) ==> r == Some(TypeErrorText(mimeType))
  {
    if size > ApiConfig.MaxFileSize then Some(SizeLimitText())
    else if !IsAllowedType(mimeType, documentTypes) then Some(TypeErrorText(mimeType))
    else None
  }

  /** The size rejection reports the configured 100 MiB. */
  lemma SizeLimitTextValue()
    ensures SizeLimitText() == "File size exceeds maximum allowed (100MB)"
  {
    assert ApiConfig.MaxFileSize / 1024 / 1024 == 100;
    assert NatToString(100) == NatToString(10) + ['0'];
    assert NatToString(10) == NatToString(1) + ['0'];
  }

  /** A file of exactly the maximum size passes the size guard. */
  lemma MaximumSizeAccepted(mimeType: string, documentTypes: seq<string>)
    requires IsAllowedType(mimeType, documentTypes)
    ensures ValidateUpload(ApiConfig.MaxFileSize, mimeType, documentTypes) == None
  {
  }

  /** The record the client keeps for a completed upload. */
  function FromResponse(data: FileUploadResponse): (f: UploadedFile)
    ensures f.status == Ready && f.progress == 100
    ensures f.filename == data.originalFilename
    ensures f.id == data.id && f.url == data.url && f.contentType == data.contentType && f.size == data.size
  {
    UploadedFile(data.id, data.url, data.originalFilename, data.contentType, data.size, None, None, Ready, 100, None)
  }

  /**
   * `uploadFile`, with the request's settlement given as `response`: a
   * rejected guard fails before any request is made; otherwise a fulfilled
   * request maps to a ready record and a rejected one passes its message on.
   */
  function UploadFile(size: int, mimeType: string, documentTypes: seq<string>,
                      response: Result<FileUploadResponse>): (r: Result<UploadedFile>)
    ensures ValidateUpload(size, mimeType, documentTypes).Some? ==>
              r == Err(ValidateUpload(size, mimeType, documentTypes).value)
    ensures r.Ok? <==> ValidateUpload(size, mimeType, documentTypes).None? && response.Ok?
    ensures r.Ok? ==> r.value.status == Ready && r.value.progress == 100
                      && r.value.id == response.value.id && r.value.url == response.value.url
                      && r.value.filename == response.value.originalFilename
    ensures ValidateUpload(size, mimeType, documentTypes).None? && response.Err? ==> r == Err(response.message)
  {
    match ValidateUpload(size, mimeType, documentTypes)
    case Some(e) => Err(e)
    case None =>
      match response
      case Ok(data) => Ok(FromResponse(data))
      case Err(m) => Err(m)
  }

  /** `getAcceptedTypes`: the allowed types joined with commas. */
  function AcceptedTypes(documentTypes: seq<string>): string
  {
    Join(AllowedTypes(documentTypes), ",")
  }

  /**
   * With comma-free document types, the items of the accepted-types string are
   * exactly the allowed types, so a type is allowed iff it is one of the items.
   */
  lemma AcceptedTypesItems(documentTypes: seq<string>)
    requires forall k :: 0 <= k < |documentTypes| ==> ',' !in documentTypes[k]
    ensures Split(AcceptedTypes(documentTypes), ',') == AllowedTypes(documentTypes)
    ensures forall t :: IsAllowedType(t, documentTypes) <==> t in Split(AcceptedTypes(documentTypes), ',')
  {
    var all := AllowedTypes(documentTypes);
    var fixed := ApiConfig.AllowedImageTypes + ApiConfig.AllowedAudioTypes + ApiConfig.AllowedVideoTypes;
    assert forall k :: 0 <= k < |fixed| ==> ',' !in fixed[k];
    forall k | 0 <= k < |all| ensures ',' !in all[k] {
      if k >= |fixed| {
        assert all[k] == documentTypes[k - |fixed|];
      } else {
        assert all[k] == fixed[k];
      }
    }
    SplitJoin(all, ',');
  }

  /** The unit `formatFileSize` prints: bytes below 1 KiB, KiB below 1 MiB, MiB beyond. */
  function FileSizeUnit(bytes: int): (unit: string)
    ensures unit == " B" <==> bytes < 1024
    ensures unit == " KB" <==> 1024 <= bytes < 1024 * 1024
    ensures unit == " MB" <==> bytes >= 1024 * 1024
  {
    if bytes < 1024 then " B" else if bytes < 1024 * 1024 then " KB" else " MB"
  }

  /** The text `formatFileSize` prints below 1 KiB: the exact count and the unit. */
  function ByteCountText(bytes: nat): string
    requires bytes < 1024
  {
    NatToString(bytes) + FileSizeUnit(bytes)
  }

  /** The byte count printed below 1 KiB reads back as the exact size. */
  lemma {:induction false} ByteCountTextExact(bytes: nat)
    requires bytes < 1024
    ensures var t := ByteCountText(bytes);
            |t| >= 3 && t[|t| - 2..] == " B" && AllDigits(t[..|t| - 2]) && ParseNat(t[..|t| - 2]) == bytes
  {
    var t := ByteCountText(bytes);
    assert t[..|t| - 2] == NatToString(bytes);
    ParseNatToString(bytes);
  }
}
