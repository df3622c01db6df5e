/**
 * The client management screen: a list of client logos, an "add client"
 * popup, and an activate/deactivate button per client.
 */
module AdminClients {
  import opened Wrappers
  import opened Json
  import opened Images
  import opened Storage
  import opened ResourceLists

  const EmptyClientForm: Obj := map["name" := Str(""), "active" := Bool(true), "logo" := Str("")]

  const FetchPath := "/moox_events/api/client/get-client"
  const AddPath := "/moox_events/api/client/add-client"
  const StatusPath := "/moox_events/api/client/change-client-status"
  const FetchFailure := "Failed to fetch clients. "

  /**
   * The fetch-failure text as written: the concatenation binds before `||`,
   * so the fallback to `error.message` is never taken and a missing server
   * message is printed as `undefined`.
   */
  function FetchFailureTextAsWritten(e: HttpError): (t: string)
    ensures t == FetchFailure + ToText(ServerMessage(e))
  {
    ToText(Or(Str(FetchFailure + ToText(ServerMessage(e))), Str(e.message)))
  }

  /** A failure without a server message shows "undefined" instead of the error's own message. */
  lemma FetchFailureTextAsWrittenShowsUndefined(e: HttpError)
    requires ServerMessage(e) == Undefined
    ensures FetchFailureTextAsWritten(e) == FetchFailure + "undefined"
    ensures e.message != "undefined" ==> FetchFailureTextAsWritten(e) != FetchFailureText(e)
  {
    assert FetchFailureText(e) == FetchFailure + e.message;
    if e.message != "undefined" {
      assert FetchFailureText(e)[|FetchFailure|..] == e.message;
      assert FetchFailureTextAsWritten(e)[|FetchFailure|..] == "undefined";
    }
  }

  /**
   * The fetch-failure text as the other screens build it: the server's
   * message when there is one, otherwise the client-side error text.
   */
  function FetchFailureText(e: HttpError): (t: string)
    ensures !Truthy(ServerMessage(e)) ==> t == FetchFailure + e.message
    ensures ServerMessage(e).Str? && ServerMessage(e).s != "" ==> t == FetchFailure + ServerMessage(e).s
  {
    FetchFailure + Detail(e)
  }

  /** What the add call answers: `response.data.message` and `response.data.client`. */
  datatype AddAck = AddAck(message: Value, client: Obj)

  class ClientManagement {
    var clients: seq<Obj>
    var formData: Obj
    var showPopup: bool
    var message: Value
    var loading: bool
    var messageVisible: bool
    var previewImage: Value
    var error: string

    constructor ()
      ensures clients == [] && formData == EmptyClientForm && !showPopup && message == Str("")
      ensures loading && !messageVisible && previewImage == Null && error == ""
    {
      clients, formData, showPopup, message := [], EmptyClientForm, false, Str("");
      loading, messageVisible, previewImage, error := true, false, Null, "";
    }

    /** The mount-time fetch; a failure is reported with the corrected text. */
    method FetchClients(storage: LocalStorage, reply: Reply<seq<Obj>>) returns (sent: Request)
      modifies this
      ensures sent == Post(FetchPath, map["user_id" := OfStored(storage.GetItem("userid"))])
      ensures !loading
      ensures reply.Ok? ==> clients == reply.data && message == old(message)
      ensures reply.Failed? ==> clients == old(clients) && message == Str(FetchFailureText(reply.error))
      ensures formData == old(formData) && showPopup == old(showPopup) && messageVisible == old(messageVisible)
      ensures previewImage == old(previewImage) && error == old(error)
    {
      sent := Post(FetchPath, map["user_id" := OfStored(storage.GetItem("userid"))]);
      match reply {
        case Ok(list) => clients := list;
        case Failed(e) => message := Str(FetchFailureText(e));
      }
      loading := false;
    }

    /** `handleChange`: the input named `name` writes its value into the form. */
    method HandleChange(name: string, value: string)
      modifies this
      ensures formData == old(formData)[name := Str(value)]
      ensures clients == old(clients) && showPopup == old(showPopup) && message == old(message)
      ensures previewImage == old(previewImage) && error == old(error)
      ensures messageVisible == old(messageVisible) && loading == old(loading)
    {
      formData := formData[name := Str(value)];
    }

    /**
     * `handlePhotoChange`: a file over 51200 bytes is compressed first; the
     * resulting image is previewed and its base64 data becomes the logo.
     */
    method HandlePhotoChange(file: Option<ImageFile>, compressed: Option<ImageFile>)
      modifies this
      ensures file.Some? && Processed(file.value, compressed, true).Some? ==>
        var f := Processed(file.value, compressed, true).value;
        previewImage == Str(f.dataUrl) && formData == old(formData)["logo" := Payload(f.dataUrl)]
      ensures file.None? || Processed(file.value, compressed, true).None? ==>
        previewImage == old(previewImage) && formData == old(formData)
      ensures file.Some? && file.value.size > CompressionThreshold && compressed.None? ==>
        error == "Failed to compress image. Please try again."
      ensures !(file.Some? && file.value.size > CompressionThreshold && compressed.None?) ==> error == old(error)
      ensures clients == old(clients) && showPopup == old(showPopup) && message == old(message)
      ensures messageVisible == old(messageVisible) && loading == old(loading)
    {
      if file.Some? {
        if file.value.size > CompressionThreshold && compressed.None? {
          error := "Failed to compress image. Please try again.";
        }
        var processed := Processed(file.value, compressed, true);
        if processed.Some? {
          previewImage := Str(processed.value.dataUrl);
          formData := formData["logo" := Payload(processed.value.dataUrl)];
        }
      }
    }

    /**
     * `handleAddClient`: nothing is sent without a logo; a new client is
     * always sent as active; on success it is appended and the popup closes.
     */
    method HandleAddClient(storage: LocalStorage, reply: Reply<AddAck>) returns (sent: Option<Request>)
      modifies this
      ensures sent.None? <==> !Truthy(Get(old(formData), "logo"))
      ensures sent.None? ==>
        message == Str("Please upload a photo.") && messageVisible && clients == old(clients) &&
        formData == old(formData) && showPopup == old(showPopup) && error == old(error)
      ensures sent.Some? ==> sent.value == Post(AddPath, map[
        "name" := Get(old(formData), "name"), "active" := Bool(true),
        "user_id" := OfStored(storage.GetItem("userid")), "photo" := Get(old(formData), "logo")])
      ensures sent.Some? && reply.Ok? ==>
        message == reply.data.message && clients == old(clients) + [reply.data.client] &&
        formData == EmptyClientForm && previewImage == Null && !showPopup && error == "" && messageVisible
      ensures sent.Some? && reply.Failed? ==>
        message == Str("Failed to add client. " + Detail(reply.error)) && messageVisible &&
        clients == old(clients) && formData == old(formData) && showPopup == old(showPopup) && error == old(error)
      ensures !(sent.Some? && reply.Ok?) ==> previewImage == old(previewImage)
      ensures loading == old(loading)
    {
      if !Truthy(Get(formData, "logo")) {
        message := Str("Please upload a photo.");
        messageVisible := true;
        return None;
      }
      sent := Some(Post(AddPath, map[
        "name" := Get(formData, "name"), "active" := Bool(true),
        "user_id" := OfStored(storage.GetItem("userid")), "photo" := Get(formData, "logo")]));
      AfterAdd(reply);
    }

    /** The answer to the add request: append the client and close the popup, or show the failure. */
    method AfterAdd(reply: Reply<AddAck>)
      modifies this
      ensures reply.Ok? ==>
        message == reply.data.message && clients == old(clients) + [reply.data.client] &&
        formData == EmptyClientForm && previewImage == Null && !showPopup && error == ""
      ensures reply.Failed? ==>
        message == Str("Failed to add client. " + Detail(reply.error)) && clients == old(clients) &&
        formData == old(formData) && previewImage == old(previewImage) &&
        showPopup == old(showPopup) && error == old(error)
      ensures messageVisible && loading == old(loading)
    {
      match reply {
        case Ok(ack) =>
          message := ack.message;
          clients := clients + [ack.client];
          formData := EmptyClientForm;
          previewImage := Null;
          showPopup := false;
          error := "";
        case Failed(e) =>
          message := Str("Failed to add client. " + Detail(e));
      }
      messageVisible := true;
    }

    /** `toggleStatus`: on success the clients whose `_id` matches get `active: !currentStatus`. */
    method ToggleStatus(storage: LocalStorage, clientId: Value, currentStatus: Value, reply: Reply<Value>)
      returns (sent: Request)
      modifies this
      ensures sent == Post(StatusPath, map["event_id" := clientId,
        "user_id" := OfStored(storage.GetItem("userid")), "status" := Not(currentStatus)])
      ensures reply.Ok? ==>
        message == reply.data && clients == SetWhere(old(clients), "_id", clientId, "active", Not(currentStatus))
      ensures reply.Failed? ==>
        message == Str("Failed to update client status. " + Detail(reply.error)) && clients == old(clients)
      ensures messageVisible
      ensures formData == old(formData) && showPopup == old(showPopup) && previewImage == old(previewImage)
      ensures loading == old(loading) && error == old(error)
    {
      sent := Post(StatusPath, map["event_id" := clientId,
        "user_id" := OfStored(storage.GetItem("userid")), "status" := Not(currentStatus)]);
      match reply {
        case Ok(m) =>
          message := m;
          clients := SetWhere(clients, "_id", clientId, "active", Not(currentStatus));
        case Failed(e) =>
          message := Str("Failed to update client status. " + Detail(e));
      }
      messageVisible := true;
    }

    /** The "Add New Client" button. */
    method OpenPopup()
      modifies this
      ensures showPopup
      ensures clients == old(clients) && formData == old(formData) && message == old(message)
      ensures previewImage == old(previewImage) && error == old(error)
      ensures messageVisible == old(messageVisible) && loading == old(loading)
    {
      showPopup := true;
    }

    /** The popup's cancel button: closes it and clears the error; the typed form is kept. */
    method ClosePopup()
      modifies this
      ensures !showPopup && error == ""
      ensures clients == old(clients) && formData == old(formData) && message == old(message)
      ensures previewImage == old(previewImage) && messageVisible == old(messageVisible) && loading == old(loading)
    {
      showPopup, error := false, "";
    }
  }
}
