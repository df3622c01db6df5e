/**
 * The service management screen: one form both adds a service and edits
 * the one picked with "Edit", and each card can be activated, deactivated
 * or deleted. A service record carries `id`, `title`, `status` (which holds
 * the description text) and `active`.
 */
module AdminServices {
  import opened Wrappers
  import opened Json
  import opened Images
  import opened Storage
  import opened ResourceLists

  const EmptyServiceForm: Obj := map["title" := Str(""), "description" := Str(""), "image" := Str("")]

  const FetchPath := "/moox_events/api/service/get-service"
  const UpdatePath := "/moox_events/api/service/update-service"
  const AddPath := "/moox_events/api/service/add-service"
  const StatusPath := "/moox_events/api/service/change-service-status"
  const DeletePath := "/moox_events/api/service/delete-service"

  /** The endpoint `handleSubmit` posts to: an update while a service is being edited. */
  function SubmitPath(currentServiceId: Value): (p: string)
    ensures Truthy(currentServiceId) <==> p == UpdatePath
    ensures !Truthy(currentServiceId) <==> p == AddPath
  {
    if Truthy(currentServiceId) then UpdatePath else AddPath
  }

  /** The submit body; `id` is present exactly when a service is being edited. */
  function SubmitBody(userId: Value, form: Obj, currentServiceId: Value): (b: Obj)
    ensures "id" in b <==> Truthy(currentServiceId)
    ensures "id" in b ==> b["id"] == currentServiceId
    ensures Get(b, "user_id") == userId && Get(b, "photo") == Get(form, "image")
    ensures Get(b, "name") == Get(form, "name") && Get(b, "description") == Get(form, "description")
  {
    var payload := map["user_id" := userId, "name" := Get(form, "name"),
      "description" := Get(form, "description"), "photo" := Get(form, "image")];
    if Truthy(currentServiceId) then payload["id" := currentServiceId] else payload
  }

  /**
   * The list after a successful submit: the edited service is replaced by
   * the server's copy, or a new one is appended.
   */
  function AfterSubmit(services: seq<Obj>, currentServiceId: Value, saved: Obj): (r: seq<Obj>)
    ensures Truthy(currentServiceId) ==> |r| == |services|
    ensures Truthy(currentServiceId) ==> forall i :: 0 <= i < |services| ==>
      r[i] == (if Matches(services[i], "id", currentServiceId) then saved else services[i])
    ensures !Truthy(currentServiceId) ==> r == services + [saved]
  {
    if Truthy(currentServiceId) then ReplaceWhere(services, "id", currentServiceId, saved)
    else services + [saved]
  }

  /**
   * `handleStatusChange` as written: it stores the new flag under `status`,
   * the key that holds the service's description, and leaves `active`,
   * which the badge and the button read, as it was.
   */
  function StatusToggleAsWritten(services: seq<Obj>, serviceId: Value, currentStatus: Value): (r: seq<Obj>)
    ensures |r| == |services|
    ensures forall i :: 0 <= i < |services| && Matches(services[i], "id", serviceId) ==>
      r[i] == services[i]["status" := Not(currentStatus)]
    ensures forall i :: 0 <= i < |services| && !Matches(services[i], "id", serviceId) ==> r[i] == services[i]
  {
    SetWhere(services, "id", serviceId, "status", Not(currentStatus))
  }

  /** An active service whose description is a text loses that text and stays active. */
  lemma StatusToggleAsWrittenLosesDescription()
    ensures var service := map["id" := Str("s1"), "title" := Str("Catering"),
                                "status" := Str("Catering: full menu"), "active" := Bool(true)];
            var r := StatusToggleAsWritten([service], Str("s1"), Bool(true));
            r[0]["status"] == Bool(false) && r[0]["active"] == Bool(true)
  {
    var service := map["id" := Str("s1"), "title" := Str("Catering"),
                       "status" := Str("Catering: full menu"), "active" := Bool(true)];
    assert Matches(service, "id", Str("s1"));
  }

  /**
   * The toggle as intended: the matching services get `active: !currentStatus`
   * and keep every other field, including the description under `status`.
   */
  function StatusToggle(services: seq<Obj>, serviceId: Value, currentStatus: Value): (r: seq<Obj>)
    ensures |r| == |services|
    ensures forall i :: 0 <= i < |services| && !Matches(services[i], "id", serviceId) ==> r[i] == services[i]
    ensures forall i :: 0 <= i < |services| && Matches(services[i], "id", serviceId) ==>
      Matches(r[i], "id", serviceId) && Get(r[i], "active") == Not(currentStatus) &&
      (Truthy(Get(r[i], "active")) <==> !Truthy(currentStatus))
    ensures forall i, k :: 0 <= i < |services| && k != "active" ==> Get(r[i], k) == Get(services[i], k)
  {
    SetWhere(services, "id", serviceId, "active", Not(currentStatus))
  }

  /**
   * Deactivating and then activating again (or the reverse) gives back the
   * list, as long as the services with that id carried the flag being flipped.
   */
  lemma StatusToggleTwice(services: seq<Obj>, serviceId: Value, flag: bool)
    requires forall i :: 0 <= i < |services| && Matches(services[i], "id", serviceId) ==>
      "active" in services[i] && services[i]["active"] == Bool(flag)
    ensures StatusToggle(StatusToggle(services, serviceId, Bool(flag)), serviceId, Bool(!flag)) == services
  {
    SetWhereRestore(services, "id", serviceId, "active", Bool(!flag), Bool(flag));
  }

  /** What the submit call answers: `response.data.message` and `response.data.service`. */
  datatype SubmitAck = SubmitAck(message: Value, service: Obj)

  class ServiceManagement {
    var formData: Obj
    var image: Option<ImageFile>
    var message: Value
    var messageVisible: bool
    var services: seq<Obj>
    var isFormVisible: bool
    var currentServiceId: Value
    var previewImage: Value
    var loading: bool
    var error: string

    constructor ()
      ensures formData == EmptyServiceForm && image.None? && message == Str("") && !messageVisible
      ensures services == [] && !isFormVisible && currentServiceId == Null && previewImage == Null
      ensures loading && error == ""
    {
      formData, image, message, messageVisible := EmptyServiceForm, None, Str(""), false;
      services, isFormVisible, currentServiceId, previewImage := [], false, Null, Null;
      loading, error := true, "";
    }

    /** The mount-time fetch: the stored user id is sent as it is, `null` when absent. */
    method FetchServices(storage: LocalStorage, reply: Reply<seq<Obj>>) returns (sent: Request)
      modifies this
      ensures sent == Post(FetchPath, map["user_id" := OfStored(storage.GetItem("userid"))])
      ensures !loading
      ensures reply.Ok? ==> services == reply.data && message == old(message)
      ensures reply.Failed? ==>
        services == old(services) && message == Str("Failed to load services. " + Detail(reply.error))
      ensures formData == old(formData) && currentServiceId == old(currentServiceId)
      ensures messageVisible == old(messageVisible) && isFormVisible == old(isFormVisible)
      ensures image == old(image) && previewImage == old(previewImage) && error == old(error)
    {
      sent := Post(FetchPath, map["user_id" := OfStored(storage.GetItem("userid"))]);
      match reply {
        case Ok(list) => services := list;
        case Failed(e) => message := Str("Failed to load services. " + Detail(e));
      }
      loading := false;
    }

    /** `handleChange`: the input named `name` writes its value into the form. */
    method HandleChange(name: string, value: string)
      modifies this
      ensures formData == old(formData)[name := Str(value)]
      ensures services == old(services) && currentServiceId == old(currentServiceId) && message == old(message)
      ensures image == old(image) && previewImage == old(previewImage) && error == old(error)
      ensures isFormVisible == old(isFormVisible) && messageVisible == old(messageVisible) && loading == old(loading)
    {
      formData := formData[name := Str(value)];
    }

    /**
     * `handleFileChange`: a file over 51200 bytes is compressed first; the
     * file that results is previewed and its base64 data goes into the form.
     */
    method HandleFileChange(file: Option<ImageFile>, compressed: Option<ImageFile>)
      modifies this
      ensures file.Some? && Processed(file.value, compressed, true).Some? ==>
        var f := Processed(file.value, compressed, true).value;
        previewImage == Str(f.dataUrl) && image == Some(f) &&
        formData == old(formData)["image" := Payload(f.dataUrl)]
      ensures file.None? || Processed(file.value, compressed, true).None? ==>
        previewImage == old(previewImage) && image == old(image) && formData == old(formData)
      ensures file.Some? && file.value.size > CompressionThreshold && compressed.None? ==>
        error == "Failed to compress image. Please try again."
      ensures !(file.Some? && file.value.size > CompressionThreshold && compressed.None?) ==> error == old(error)
      ensures services == old(services) && currentServiceId == old(currentServiceId) && message == old(message)
      ensures isFormVisible == old(isFormVisible) && messageVisible == old(messageVisible) && loading == old(loading)
    {
      if file.Some? {
        if file.value.size > CompressionThreshold && compressed.None? {
          error := "Failed to compress image. Please try again.";
        }
        var processed := Processed(file.value, compressed, true);
        if processed.Some? {
          previewImage := Str(processed.value.dataUrl);
          image := processed;
          formData := formData["image" := Payload(processed.value.dataUrl)];
        }
      }
    }

    /**
     * `handleSubmit`: nothing is sent without an image in the form. On
     * success the list takes the saved service, the form is reset, and the
     * page reloads; on failure everything but the message is kept.
     */
    method HandleSubmit(storage: LocalStorage, reply: Reply<SubmitAck>) returns (sent: Option<Request>, effect: Effect)
      modifies this
      ensures sent.None? <==> !Truthy(Get(old(formData), "image"))
      ensures sent.None? ==>
        message == Str(if Truthy(old(currentServiceId)) then "Please upload a image again." else "Please upload a image.") &&
        messageVisible && effect == Stay && services == old(services) && formData == old(formData) &&
        currentServiceId == old(currentServiceId) && isFormVisible == old(isFormVisible)
      ensures sent.Some? ==> sent.value == Post(SubmitPath(old(currentServiceId)),
        SubmitBody(OfStored(storage.GetItem("userid")), old(formData), old(currentServiceId)))
      ensures sent.Some? && reply.Ok? ==>
        message == reply.data.message &&
        services == AfterSubmit(old(services), old(currentServiceId), reply.data.service) &&
        currentServiceId == Null && formData == EmptyServiceForm && previewImage == Null && image.None? &&
        !isFormVisible && messageVisible && effect == Reload
      ensures sent.Some? && reply.Failed? ==>
        message == Str("Failed to add/update service. " + Detail(reply.error)) && messageVisible &&
        effect == Stay && services == old(services) && formData == old(formData) &&
        currentServiceId == old(currentServiceId) && isFormVisible == old(isFormVisible)
      ensures !(sent.Some? && reply.Ok?) ==> previewImage == old(previewImage) && image == old(image)
      ensures loading == old(loading) && error == old(error)
    {
      effect := Stay;
      if !Truthy(Get(formData, "image")) {
        message := Str(if Truthy(currentServiceId) then "Please upload a image again." else "Please upload a image.");
        messageVisible := true;
        return None, effect;
      }
      var userId := OfStored(storage.GetItem("userid"));
      sent := Some(Post(SubmitPath(currentServiceId), SubmitBody(userId, formData, currentServiceId)));
      effect := AfterReply(reply);
    }

    /** The answer to the submit: store the saved service, reset and reload, or show the failure. */
    method AfterReply(reply: Reply<SubmitAck>) returns (effect: Effect)
      modifies this
      ensures reply.Ok? ==>
        message == reply.data.message &&
        services == AfterSubmit(old(services), old(currentServiceId), reply.data.service) &&
        currentServiceId == Null && formData == EmptyServiceForm && previewImage == Null && image.None? &&
        !isFormVisible && effect == Reload
      ensures reply.Failed? ==>
        message == Str("Failed to add/update service. " + Detail(reply.error)) && effect == Stay &&
        services == old(services) && formData == old(formData) && currentServiceId == old(currentServiceId) &&
        isFormVisible == old(isFormVisible) && previewImage == old(previewImage) && image == old(image)
      ensures messageVisible && loading == old(loading) && error == old(error)
    {
      match reply {
        case Ok(ack) =>
          message := ack.message;
          services := AfterSubmit(services, currentServiceId, ack.service);
          ResetAfterSave();
          effect := Reload;
        case Failed(e) =>
          message := Str("Failed to add/update service. " + Detail(e));
          messageVisible := true;
          effect := Stay;
      }
    }

    /** The resets that follow a successful submit. */
    method ResetAfterSave()
      modifies this
      ensures currentServiceId == Null && formData == EmptyServiceForm && previewImage == Null && image.None?
      ensures !isFormVisible && messageVisible
      ensures services == old(services) && message == old(message) && loading == old(loading) && error == old(error)
    {
      currentServiceId := Null;
      formData := EmptyServiceForm;
      previewImage := Null;
      image := None;
      isFormVisible := false;
      messageVisible := true;
    }

    /** `handleEdit`: loads the service into the form and opens it in edit mode. */
    method HandleEdit(service: Obj)
      modifies this
      ensures formData == map["name" := Get(service, "title"), "description" := Get(service, "status"),
                              "image" := Get(service, "image")]
      ensures currentServiceId == Get(service, "id") && previewImage == Get(service, "image") && isFormVisible
      ensures services == old(services) && message == old(message) && image == old(image)
      ensures messageVisible == old(messageVisible) && loading == old(loading) && error == old(error)
    {
      formData := map["name" := Get(service, "title"), "description" := Get(service, "status"),
                      "image" := Get(service, "image")];
      currentServiceId := Get(service, "id");
      previewImage := Get(service, "image");
      isFormVisible := true;
    }

    /**
     * `handleStatusChange`: the negated flag is sent; on success the list
     * is updated by the corrected toggle and the page reloads.
     */
    method HandleStatusChange(storage: LocalStorage, serviceId: Value, currentStatus: Value, reply: Reply<Value>)
      returns (sent: Request, effect: Effect)
      modifies this
      ensures sent == Post(StatusPath, map["event_id" := serviceId,
        "user_id" := OfStored(storage.GetItem("userid")), "status" := Not(currentStatus)])
      ensures reply.Ok? ==>
        message == reply.data && services == StatusToggle(old(services), serviceId, currentStatus) &&
        messageVisible && effect == Reload
      ensures reply.Failed? ==>
        message == Str("Failed to update status. " + Detail(reply.error)) && services == old(services) &&
        messageVisible && effect == Stay
      ensures formData == old(formData) && currentServiceId == old(currentServiceId) && image == old(image)
      ensures previewImage == old(previewImage) && isFormVisible == old(isFormVisible)
      ensures loading == old(loading) && error == old(error)
    {
      sent := Post(StatusPath, map["event_id" := serviceId,
        "user_id" := OfStored(storage.GetItem("userid")), "status" := Not(currentStatus)]);
      match reply {
        case Ok(m) =>
          message := m;
          services := StatusToggle(services, serviceId, currentStatus);
          effect := Reload;
        case Failed(e) =>
          message := Str("Failed to update status. " + Detail(e));
          effect := Stay;
      }
      messageVisible := true;
    }

    /** `handleDelete`: on success every service with that id leaves the list. */
    method HandleDelete(storage: LocalStorage, serviceId: Value, reply: Reply<Value>) returns (sent: Request)
      modifies this
      ensures sent == Post(DeletePath, map["event_id" := serviceId, "user_id" := OfStored(storage.GetItem("userid"))])
      ensures reply.Ok? ==> message == reply.data && services == RemoveWhere(old(services), "id", serviceId)
      ensures reply.Failed? ==>
        message == Str("Failed to delete service. " + Detail(reply.error)) && services == old(services)
      ensures formData == old(formData) && currentServiceId == old(currentServiceId) && image == old(image)
      ensures previewImage == old(previewImage) && isFormVisible == old(isFormVisible)
      ensures messageVisible == old(messageVisible) && loading == old(loading) && error == old(error)
    {
      sent := Post(DeletePath, map["event_id" := serviceId, "user_id" := OfStored(storage.GetItem("userid"))]);
      match reply {
        case Ok(m) =>
          message := m;
          services := RemoveWhere(services, "id", serviceId);
        case Failed(e) =>
          message := Str("Failed to delete service. " + Detail(e));
      }
    }

    /** The "Add New Service" button: opening the form leaves edit mode and empties it. */
    method ToggleForm()
      modifies this
      ensures isFormVisible == !old(isFormVisible)
      ensures !old(isFormVisible) ==>
        currentServiceId == Null && formData == EmptyServiceForm && image.None? && previewImage == Null
      ensures old(isFormVisible) ==>
        currentServiceId == old(currentServiceId) && formData == old(formData) &&
        image == old(image) && previewImage == old(previewImage)
      ensures services == old(services) && message == old(message) && messageVisible == old(messageVisible)
      ensures loading == old(loading) && error == old(error)
    {
      if !isFormVisible {
        currentServiceId := Null;
        formData := EmptyServiceForm;
        image := None;
        previewImage := Null;
      }
      isFormVisible := !isFormVisible;
    }
  }
}
