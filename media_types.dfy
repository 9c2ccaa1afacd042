/** The MIME types the document analyzer accepts. */
module MediaTypes {

  const SupportedTypes: seq<string> := [
    "application/pdf",
    "image/jpeg",
    "image/png",
    "image/tiff",
    "image/bmp",
    "image/heif",
    "image/heic"
  ]

  /** Exact, case-sensitive membership in the allow-list. */
  predicate IsSupported(mimeType: string)
  {
    mimeType in SupportedTypes
  }

  /** A type is accepted exactly when it is one of the seven listed strings. */
  lemma SupportedExactly(mimeType: string)
    ensures IsSupported(mimeType) <==>
      mimeType == "application/pdf" || mimeType == "image/jpeg" ||
      mimeType == "image/png" || mimeType == "image/tiff" ||
      mimeType == "image/bmp" || mimeType == "image/heif" ||
      mimeType == "image/heic"
  {
  }

  /** The match on the MIME type as the parser reports it is literal: no
      generic binary type, no case folding, no parameters, no aliases. */
  lemma NoLooseMatches()
    ensures !IsSupported("application/octet-stream")
    ensures !IsSupported("APPLICATION/PDF")
    ensures !IsSupported("application/pdf; charset=binary")
    ensures !IsSupported("image/jpg")
    ensures !IsSupported("")
  {
  }
}
