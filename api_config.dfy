/** Upload limits and MIME allow-lists of the client configuration. */
module ApiConfig {

  /** 100 MiB. */
  const MaxFileSize: int := 100 * 1024 * 1024

  const AllowedImageTypes: seq<string> := ["image/jpeg", "image/png", "image/gif", "image/webp"]
  const AllowedAudioTypes: seq<string> := ["audio/mpeg", "audio/wav", "audio/ogg", "audio/webm"]
  const AllowedVideoTypes: seq<string> := ["video/mp4", "video/webm", "video/quicktime"]
}
