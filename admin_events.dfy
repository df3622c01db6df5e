/**
 * The event management screen: the signed-in user's events, a form to add
 * one (its type is picked from the active services), and an
 * activate/deactivate button per event. Changes are followed by a fresh
 * fetch of the list rather than a local update.
 */
module AdminEvents {
  import opened Wrappers
  import opened Json
  import opened Images
  import opened Storage

  const EmptyEventForm: Obj := map["title" := Str(""), "description" := Str(""), "event_date" := Str(""),
                                   "event_type" := Str(""), "photo" := Null]

  const NotAuthenticated := "User not authenticated."
  const FetchPath := "/moox_events/api/event/get-events"
  const ServicesPath := "/moox_events/api/service/get-active-services"
  const AddPath := "/moox_events/api/event/add-event"
  const StatusPath := "/moox_events/api/event/change-event-status"

  class EventManagement {
    var events: seq<Obj>
    var services: seq<Obj>
    var newEvent: Obj
    var isFormVisible: bool
    var notification: string
    var previewImage: Value
    var loading: bool

    constructor ()
      ensures events == [] && services == [] && newEvent == EmptyEventForm && !isFormVisible
      ensures notification == "" && previewImage == Null && loading
    {
      events, services, newEvent, isFormVisible := [], [], EmptyEventForm, false;
      notification, previewImage, loading := "", Null, true;
    }

    /** `fetchEvents`: needs a stored user id; the loading flag ends false once a request was made. */
    method FetchEvents(storage: LocalStorage, reply: Reply<seq<Obj>>) returns (sent: Option<Request>)
      modifies this
      ensures sent.None? <==> !Holds(storage.items, "userid")
      ensures sent.None? ==> notification == NotAuthenticated && events == old(events) && loading == old(loading)
      ensures sent.Some? ==> sent.value == Post(FetchPath, map["user_id" := Str(storage.items["userid"])]) && !loading
      ensures sent.Some? && reply.Ok? ==> events == reply.data && notification == old(notification)
      ensures sent.Some? && reply.Failed? ==> events == old(events) && notification == "Failed to load events."
      ensures services == old(services) && newEvent == old(newEvent) && isFormVisible == old(isFormVisible)
      ensures previewImage == old(previewImage)
    {
      var userId := storage.GetItem("userid");
      if userId.None? || userId.value == "" {
        notification := NotAuthenticated;
        return None;
      }
      sent := Some(Post(FetchPath, map["user_id" := Str(userId.value)]));
      match reply {
        case Ok(list) => events := list;
        case Failed(_) => notification := "Failed to load events.";
      }
      loading := false;
    }

    /** `fetchServices`: the active services that the event-type select offers. */
    method FetchServices(reply: Reply<seq<Obj>>) returns (sent: Request)
      modifies this
      ensures sent == GetRequest(ServicesPath)
      ensures reply.Ok? ==> services == reply.data && notification == old(notification)
      ensures reply.Failed? ==> services == old(services) && notification == "Failed to load services."
      ensures events == old(events) && newEvent == old(newEvent) && isFormVisible == old(isFormVisible)
      ensures previewImage == old(previewImage) && loading == old(loading)
    {
      sent := GetRequest(ServicesPath);
      match reply {
        case Ok(list) => services := list;
        case Failed(_) => notification := "Failed to load services.";
      }
    }

    /** A form input: field `name` takes the typed value. */
    method EditField(name: string, value: string)
      modifies this
      ensures newEvent == old(newEvent)[name := Str(value)]
      ensures events == old(events) && services == old(services) && isFormVisible == old(isFormVisible)
      ensures notification == old(notification) && previewImage == old(previewImage) && loading == old(loading)
    {
      newEvent := newEvent[name := Str(value)];
    }

    /** The photo input: the file is read as a data URL, with no compression. */
    method SelectPhoto(file: ImageFile)
      modifies this
      ensures newEvent == old(newEvent)["photo" := Str(file.dataUrl)] && previewImage == Str(file.dataUrl)
      ensures events == old(events) && services == old(services) && isFormVisible == old(isFormVisible)
      ensures notification == old(notification) && loading == old(loading)
    {
      newEvent := newEvent["photo" := Str(file.dataUrl)];
      previewImage := Str(file.dataUrl);
    }

    /**
     * `handleAddEvent`: there is no field check; without a user id, or with
     * no photo chosen, nothing is sent. On success the form closes and
     * empties and `refetch` says the list is fetched again.
     */
    method HandleAddEvent(storage: LocalStorage, reply: Reply<Value>) returns (sent: Option<Request>, refetch: bool)
      modifies this
      ensures !Holds(storage.items, "userid") ==> sent.None? && notification == NotAuthenticated
      ensures Holds(storage.items, "userid") && !Get(old(newEvent), "photo").Str? ==>
        sent.None? && notification == "Failed to add event."
      ensures sent.Some? <==> Holds(storage.items, "userid") && Get(old(newEvent), "photo").Str?
      ensures sent.Some? ==> sent.value == Post(AddPath, UploadBody(storage.items["userid"], old(newEvent)).value)
      ensures refetch <==> sent.Some? && reply.Ok?
      ensures refetch ==>
        !isFormVisible && newEvent == EmptyEventForm && previewImage == Null &&
        notification == "Event added successfully!"
      ensures sent.Some? && reply.Failed? ==> notification == "Failed to add event."
      ensures !refetch ==>
        isFormVisible == old(isFormVisible) && newEvent == old(newEvent) && previewImage == old(previewImage)
      ensures events == old(events) && services == old(services) && loading == old(loading)
    {
      refetch := false;
      var userId := storage.GetItem("userid");
      if userId.None? || userId.value == "" {
        notification := NotAuthenticated;
        return None, refetch;
      }
      var body := UploadBody(userId.value, newEvent);
      if body.None? {
        notification := "Failed to add event.";
        return None, refetch;
      }
      sent := Some(Post(AddPath, body.value));
      match reply {
        case Ok(_) =>
          refetch := true;
          isFormVisible := false;
          newEvent := EmptyEventForm;
          previewImage := Null;
          notification := "Event added successfully!";
        case Failed(_) =>
          notification := "Failed to add event.";
      }
    }

    /** `handleToggleStatus(id, status)`: sends `!status`; on success the list is fetched again. */
    method HandleToggleStatus(storage: LocalStorage, id: Value, status: Value, reply: Reply<Value>)
      returns (sent: Option<Request>, refetch: bool)
      modifies this
      ensures sent.None? <==> !Holds(storage.items, "userid")
      ensures sent.None? ==> notification == NotAuthenticated
      ensures sent.Some? ==> sent.value == Post(StatusPath, map[
        "event_id" := id, "status" := Not(status), "user_id" := Str(storage.items["userid"])])
      ensures refetch <==> sent.Some? && reply.Ok?
      ensures refetch ==>
        notification == (if Truthy(status) then "Event deactivated successfully!" else "Event activated successfully!")
      ensures sent.Some? && reply.Failed? ==> notification == "Failed to update event status."
      ensures events == old(events) && services == old(services) && newEvent == old(newEvent)
      ensures isFormVisible == old(isFormVisible) && previewImage == old(previewImage) && loading == old(loading)
    {
      refetch := false;
      var userId := storage.GetItem("userid");
      if userId.None? || userId.value == "" {
        notification := NotAuthenticated;
        return None, refetch;
      }
      sent := Some(Post(StatusPath, map["event_id" := id, "status" := Not(status), "user_id" := Str(userId.value)]));
      match reply {
        case Ok(_) =>
          refetch := true;
          notification := if Truthy(status) then "Event deactivated successfully!" else "Event activated successfully!";
        case Failed(_) =>
          notification := "Failed to update event status.";
      }
    }

    /** The "Add New Event" / "Hide Form" button. */
    method ToggleForm()
      modifies this
      ensures isFormVisible == !old(isFormVisible)
      ensures events == old(events) && services == old(services) && newEvent == old(newEvent)
      ensures notification == old(notification) && previewImage == old(previewImage) && loading == old(loading)
    {
      isFormVisible := !isFormVisible;
    }
  }
}
