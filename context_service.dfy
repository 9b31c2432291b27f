/**
  The content-type rule of `add_file` in services/ContextService.py: before an
  upload is posted, a content type outside a fixed list is replaced by
  `text/plain`; the file's name and bytes are posted as they are.
*/
module ContextService {

  type Byte = b: int | 0 <= b < 256

  /** The content types `add_file` posts unchanged. */
  const SupportedContentTypes: seq<string> := ["application/pdf", "text/csv", "application/json", "text/plain"]

  /** The content type used for every other upload. */
  const FallbackContentType: string := "text/plain"

  /** The lines that reassign `file_type` when it is not in `supported_files`. */
  function NormalizeContentType(contentType: string): (r: string)
    ensures r in SupportedContentTypes
    ensures contentType in SupportedContentTypes ==> r == contentType
    ensures contentType !in SupportedContentTypes ==> r == FallbackContentType
  {
    if contentType !in SupportedContentTypes then FallbackContentType else contentType
  }

  /** Normalising a normalised type changes nothing. */
  lemma NormalizeIsIdempotent(contentType: string)
    ensures NormalizeContentType(NormalizeContentType(contentType)) == NormalizeContentType(contentType)
  {
  }

  /** A Streamlit upload: its name, its bytes (`getvalue()`) and its browser-reported type. */
  datatype Upload = Upload(name: string, content: seq<Byte>, contentType: string)

  /** The `(file.name, file.getvalue(), file_type)` tuple posted under the form field `file`. */
  datatype FilePart = FilePart(fileName: string, content: seq<Byte>, contentType: string)

  /** The file part `add_file` posts: only the type can differ from the upload's. */
  function UploadPart(file: Upload): (part: FilePart)
    ensures part.fileName == file.name && part.content == file.content
    ensures part.contentType in SupportedContentTypes
    ensures part.contentType == file.contentType <==> file.contentType in SupportedContentTypes
  {
    FilePart(file.name, file.content, NormalizeContentType(file.contentType))
  }
}
