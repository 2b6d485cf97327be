/** References to attached files, shared by the manifest and the transcript. */
module Attachments {
  import opened Prelude

  /** `metadata` lists a dictionary's items in order. */
  datatype AttachmentRef = AttachmentRef(
    attachmentId: string,
    name: string,
    mimeType: string,
    sizeBytes: int,
    contentKind: string,
    source: string,
    textPreview: string,
    textChars: Option<int>,
    expiresAt: string,
    metadata: seq<(string, string)>
  )
}
