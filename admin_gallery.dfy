/**
 * The gallery management screen: uploaded photos with a name and a
 * description, each of which can be activated or deactivated. The list of
 * photos is held in a state variable named `clients`.
 */
module AdminGallery {
  import opened Wrappers
  import opened Json
  import opened Images
  import opened Storage
  import opened ResourceLists

  const EmptyPhotoForm: Obj := map["name" := Str(""), "active" := Bool(true), "description" := Str(""), "photo" := Str("")]

  const FetchPath := "/moox_events/api/gallery/get-photos"
  const AddPath := "/moox_events/api/gallery/add-photo"
  const StatusPath := "/moox_events/api/gallery/change-photo-status"
  const NoPhoto := "Please upload a photo."
  const AddFailed := "Failed to add photo. "

  /** The add-photo body: a new photo is always sent as active. */
  function AddBody(userId: Value, form: Obj): (b: Obj)
    ensures Get(b, "active") == Bool(true) && Get(b, "user_id") == userId
    ensures Get(b, "photo") == Get(form, "photo") && Get(b, "name") == Get(form, "name")
    ensures Get(b, "description") == Get(form, "description")
  {
    map["name" := Get(form, "name"), "active" := Bool(true), "description" := Get(form, "description"),
        "user_id" := userId, "photo" := Get(form, "photo")]
  }

  /** What the add call answers: `response.data.message` and `response.data.client`. */
  datatype AddAck = AddAck(message: Value, client: Obj)

  class GalleryManagement {
    var clients: seq<Obj>
    var formData: Obj
    var showPopup: bool
    var message: Value
    var messageVisible: bool
    var previewImage: Value
    var loading: bool
    var error: string

    constructor ()
      ensures clients == [] && formData == EmptyPhotoForm && !showPopup && message == Str("")
      ensures !messageVisible && previewImage == Null && loading && error == ""
    {
      clients, formData, showPopup, message := [], EmptyPhotoForm, false, Str("");
      messageVisible, previewImage, loading, error := false, Null, true, "";
    }

    /** The mount-time fetch of the photos. */
    method FetchPhotos(storage: LocalStorage, reply: Reply<seq<Obj>>) returns (sent: Request)
      modifies this
      ensures sent == Post(FetchPath, map["user_id" := OfStored(storage.GetItem("userid"))])
      ensures !loading
      ensures reply.Ok? ==> clients == reply.data && message == old(message)
      ensures reply.Failed? ==>
        clients == old(clients) && message == Str("Failed to fetch Gallery. " + Detail(reply.error))
      ensures formData == old(formData) && showPopup == old(showPopup) && messageVisible == old(messageVisible)
      ensures previewImage == old(previewImage) && error == old(error)
    {
      sent := Post(FetchPath, map["user_id" := OfStored(storage.GetItem("userid"))]);
      match reply {
        case Ok(list) => clients := list;
        case Failed(e) => message := Str("Failed to fetch Gallery. " + Detail(e));
      }
      loading := false;
    }

    /** `handleChange`: the input named `name` writes its value into the form. */
    method HandleChange(name: string, value: string)
      modifies this
      ensures formData == old(formData)[name := Str(value)]
      ensures clients == old(clients) && showPopup == old(showPopup) && message == old(message)
      ensures previewImage == old(previewImage) && error == old(error)
      ensures messageVisible == old(messageVisible) && loading == old(loading)
    {
      formData := formData[name := Str(value)];
    }

    /**
     * `handlePhotoChange`: a file over 51200 bytes is compressed first; the
     * resulting image is previewed and its base64 data becomes the photo.
     */
    method HandlePhotoChange(file: Option<ImageFile>, compressed: Option<ImageFile>)
      modifies this
      ensures file.Some? && Processed(file.value, compressed, true).Some? ==>
        var f := Processed(file.value, compressed, true).value;
        previewImage == Str(f.dataUrl) && formData == old(formData)["photo" := Payload(f.dataUrl)]
      ensures file.None? || Processed(file.value, compressed, true).None? ==>
        previewImage == old(previewImage) && formData == old(formData)
      ensures file.Some? && file.value.size > CompressionThreshold && compressed.None? ==>
        error == "Failed to compress image. Please try again."
      ensures !(file.Some? && file.value.size > CompressionThreshold && compressed.None?) ==> error == old(error)
      ensures clients == old(clients) && showPopup == old(showPopup) && message == old(message)
      ensures messageVisible == old(messageVisible) && loading == old(loading)
    {
      if file.Some? {
        if file.value.size > CompressionThreshold && compressed.None? {
          error := "Failed to compress image. Please try again.";
        }
        var processed := Processed(file.value, compressed, true);
        if processed.Some? {
          previewImage := Str(processed.value.dataUrl);
          formData := formData["photo" := Payload(processed.value.dataUrl)];
        }
      }
    }

    /** The add-photo submit: nothing is sent without a photo; on success it is appended and the popup closes. */
    method HandleAddPhoto(storage: LocalStorage, reply: Reply<AddAck>) returns (sent: Option<Request>)
      modifies this
      ensures sent.None? <==> !Truthy(Get(old(formData), "photo"))
      ensures sent.None? ==>
        message == Str(NoPhoto) && messageVisible && clients == old(clients) &&
        formData == old(formData) && showPopup == old(showPopup) && error == old(error)
      ensures sent.Some? ==> sent.value == Post(AddPath, AddBody(OfStored(storage.GetItem("userid")), old(formData)))
      ensures sent.Some? && reply.Ok? ==>
        message == reply.data.message && clients == old(clients) + [reply.data.client] &&
        formData == EmptyPhotoForm && previewImage == Null && !showPopup && error == "" && messageVisible
      ensures sent.Some? && reply.Failed? ==>
        message == Str(AddFailed + Detail(reply.error)) && messageVisible &&
        clients == old(clients) && formData == old(formData) && showPopup == old(showPopup) && error == old(error)
      ensures !(sent.Some? && reply.Ok?) ==> previewImage == old(previewImage)
      ensures loading == old(loading)
    {
      if !Truthy(Get(formData, "photo")) {
        message := Str(NoPhoto);
        messageVisible := true;
        return None;
      }
      sent := Some(Post(AddPath, AddBody(OfStored(storage.GetItem("userid")), formData)));
      AfterAdd(reply);
    }

    /** The add call's answer: the new photo is appended and the popup closed, or the failure is shown. */
    method AfterAdd(reply: Reply<AddAck>)
      modifies this
      ensures reply.Ok? ==>
        message == reply.data.message && clients == old(clients) + [reply.data.client] &&
        formData == EmptyPhotoForm && previewImage == Null && !showPopup && error == ""
      ensures reply.Failed? ==>
        message == Str(AddFailed + Detail(reply.error)) && clients == old(clients) &&
        formData == old(formData) && showPopup == old(showPopup) && error == old(error) &&
        previewImage == old(previewImage)
      ensures messageVisible && loading == old(loading)
    {
      match reply {
        case Ok(ack) =>
          message := ack.message;
          clients := clients + [ack.client];
          showPopup := false;
          formData := EmptyPhotoForm;
          previewImage := Null;
          error := "";
        case Failed(e) =>
          message := Str(AddFailed + Detail(e));
      }
      messageVisible := true;
    }

    /** `toggleStatus`: on success the photos whose `_id` matches get `active: !currentStatus`. */
    method ToggleStatus(storage: LocalStorage, photoId: Value, currentStatus: Value, reply: Reply<Value>)
      returns (sent: Request)
      modifies this
      ensures sent == Post(StatusPath, map["event_id" := photoId,
        "user_id" := OfStored(storage.GetItem("userid")), "status" := Not(currentStatus)])
      ensures reply.Ok? ==>
        message == reply.data && clients == SetWhere(old(clients), "_id", photoId, "active", Not(currentStatus))
      ensures reply.Failed? ==>
        message == Str("Failed to update status. " + Detail(reply.error)) && clients == old(clients)
      ensures messageVisible
      ensures formData == old(formData) && showPopup == old(showPopup) && previewImage == old(previewImage)
      ensures loading == old(loading) && error == old(error)
    {
      sent := Post(StatusPath, map["event_id" := photoId,
        "user_id" := OfStored(storage.GetItem("userid")), "status" := Not(currentStatus)]);
      match reply {
        case Ok(m) =>
          message := m;
          clients := SetWhere(clients, "_id", photoId, "active", Not(currentStatus));
        case Failed(e) =>
          message := Str("Failed to update status. " + Detail(e));
      }
      messageVisible := true;
    }

    /** Opening ("Add New Photo") or closing the popup; either clears the error. */
    method SetPopup(open: bool)
      modifies this
      ensures showPopup == open && error == ""
      ensures clients == old(clients) && formData == old(formData) && message == old(message)
      ensures previewImage == old(previewImage) && messageVisible == old(messageVisible) && loading == old(loading)
    {
      showPopup, error := open, "";
    }
  }
}
