/**
 * The image ingestion the admin screens share: a picked file is compressed
 * first (always, or only above 51200 bytes, depending on the screen), read
 * as a data URL (RFC 2397), and the form keeps the base64 text after the
 * comma for upload.
 */
module Images {
  import opened Wrappers
  import opened Json
  import opened Text

  /** Files larger than this many bytes (50 KB) are compressed before reading. */
  const CompressionThreshold: nat := 51200

  /** A picked file: its size in bytes and the data URL `FileReader.readAsDataURL` gives for it. */
  datatype ImageFile = ImageFile(size: nat, dataUrl: string)

  /** Whether the screen runs `compressImage` on this file. */
  predicate Compresses(file: ImageFile, thresholded: bool) {
    !thresholded || file.size > CompressionThreshold
  }

  /**
   * The file the screen goes on to read. `compressed` is what `compressImage`
   * returns for it, `None` standing for `null` (the compression library
   * failed). On a thresholded screen a file within the threshold is read as
   * picked, so only a compressed file can end the ingestion.
   */
  function Processed(file: ImageFile, compressed: Option<ImageFile>, thresholded: bool): (r: Option<ImageFile>)
    ensures thresholded && file.size <= CompressionThreshold ==> r == Some(file)
    ensures r.None? ==> Compresses(file, thresholded) && compressed.None?
  {
    if Compresses(file, thresholded) then compressed else Some(file)
  }

  /** `dataUrl.split(",")[1]`: `undefined` when the text holds no comma. */
  function Payload(dataUrl: string): (v: Value)
    ensures v == Undefined <==> ',' !in dataUrl
    ensures v.Str? ==> ',' !in v.s
  {
    match Piece(dataUrl, ',', 1)
    case Some(p) => Str(p)
    case None => Undefined
  }

  /**
   * For a data URL `data:[<mediatype>][;base64],<data>` (section 3 of
   * RFC 2397) whose header and base64 data hold no comma, the payload is
   * exactly the data.
   */
  lemma PayloadOfDataUrl(header: string, data: string)
    requires ',' !in header && ',' !in data
    ensures Payload(header + "," + data) == Str(data)
  {
    SecondPiece(header, data, ',');
    assert header + "," + data == header + [','] + data;
  }

  /** `slot?.split(",")[1] || ""`: the payload of an optional stored data URL, `""` when there is none. */
  function OptionalPayload(slot: Option<string>): (r: string)
    ensures slot.None? ==> r == ""
    ensures slot.Some? && Payload(slot.value).Str? ==> r == Payload(slot.value).s
    ensures slot.Some? && ',' !in slot.value ==> r == ""
  {
    match slot
    case None => ""
    case Some(u) => ToText(Or(Payload(u), Str("")))
  }

  /**
   * `{ ...form, user_id, photo: form.photo.split(",")[1] }`: the form plus
   * the user id, with the photo's data URL cut down to its base64 data. It
   * exists only when the photo is a string; `null.split` throws before
   * anything is sent.
   */
  function UploadBody(userId: string, form: Obj): (b: Option<Obj>)
    ensures b.Some? <==> Get(form, "photo").Str?
    ensures b.Some? ==> Get(b.value, "user_id") == Str(userId)
    ensures b.Some? ==> Get(b.value, "photo") == Payload(Get(form, "photo").s)
    ensures b.Some? ==> forall k :: k != "user_id" && k != "photo" ==> Get(b.value, k) == Get(form, k)
  {
    match Get(form, "photo")
    case Str(url) => Some(form["user_id" := Str(userId)]["photo" := Payload(url)])
    case _ => None
  }
}
