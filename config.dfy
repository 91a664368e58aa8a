/** The settings the modelled code reads; the others configure services outside the model. */
module Config {
  /** `MAX_UPLOAD_SIZE`: 10 MiB. */
  const MaxUploadSize: nat := 10485760
  /** `ALLOWED_EXTENSIONS`. */
  const AllowedExtensions: seq<string> := [".pdf", ".doc", ".docx"]
}
