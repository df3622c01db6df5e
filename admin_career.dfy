/**
 * The career management screen: open positions, a form to add one, an
 * activate/deactivate toggle per position, and a popup listing the
 * applications received for a position. Every message goes through
 * `showNotification`.
 */
module AdminCareer {
  import opened Wrappers
  import opened Json
  import opened Storage
  import opened ResourceLists

  const EmptyPositionForm: Obj :=
    map["position_name" := Str(""), "description" := Str(""), "location" := Str(""), "requirements" := Str("")]

  const NotAuthenticated := "User not authenticated."
  const FetchPath := "/moox_events/api/career/all"
  const TogglePath := "/moox_events/api/career/toggle"
  const ApplicationsPath := "/moox_events/api/career/applications"
  const AddPath := "/moox_events/api/career/add-position"

  /** `!position_name || !description || !requirements` is false; the location may be empty. */
  predicate PositionComplete(form: Obj) {
    Truthy(Get(form, "position_name")) && Truthy(Get(form, "description")) && Truthy(Get(form, "requirements"))
  }

  /**
   * The popup title's position name: that of the first position whose `_id`
   * is the selected one, `undefined` when none is.
   */
  function PopupPositionName(positions: seq<Obj>, selected: Value): (name: Value)
    ensures (forall j :: 0 <= j < |positions| ==> !Matches(positions[j], "_id", selected)) ==> name == Undefined
    ensures forall k :: FirstMatch(positions, "_id", selected, k) ==> name == Get(positions[k], "position_name")
  {
    FieldOfFound(positions, "_id", selected, "position_name", Undefined)
  }

  class CareerManagement {
    var positions: seq<Obj>
    var applications: seq<Obj>
    var selectedPosition: Value
    var newPosition: Obj
    var isFormVisible: bool
    var message: string
    var messageVisible: bool
    var loading: bool

    constructor ()
      ensures positions == [] && applications == [] && selectedPosition == Null
      ensures newPosition == EmptyPositionForm && !isFormVisible && message == "" && !messageVisible && loading
    {
      positions, applications, selectedPosition := [], [], Null;
      newPosition, isFormVisible, message, messageVisible, loading := EmptyPositionForm, false, "", false, true;
    }

    /** `showNotification(msg)`: shows the message; it is hidden again two seconds later. */
    method ShowNotification(msg: string)
      modifies this
      ensures message == msg && messageVisible
      ensures positions == old(positions) && applications == old(applications)
      ensures selectedPosition == old(selectedPosition) && newPosition == old(newPosition)
      ensures isFormVisible == old(isFormVisible) && loading == old(loading)
    {
      message, messageVisible := msg, true;
    }

    /** `fetchPositions`: needs a stored user id; the loading flag ends false once a request was made. */
    method FetchPositions(storage: LocalStorage, reply: Reply<seq<Obj>>) returns (sent: Option<Request>)
      modifies this
      ensures sent.None? <==> !Holds(storage.items, "userid")
      ensures sent.None? ==>
        message == NotAuthenticated && messageVisible && positions == old(positions) && loading == old(loading)
      ensures sent.Some? ==> sent.value == Post(FetchPath, map["user_id" := Str(storage.items["userid"])]) && !loading
      ensures sent.Some? && reply.Ok? ==>
        positions == reply.data && message == old(message) && messageVisible == old(messageVisible)
      ensures sent.Some? && reply.Failed? ==>
        positions == old(positions) && message == "Failed to fetch positions." && messageVisible
      ensures applications == old(applications) && selectedPosition == old(selectedPosition)
      ensures newPosition == old(newPosition) && isFormVisible == old(isFormVisible)
    {
      var userId := storage.GetItem("userid");
      if userId.None? || userId.value == "" {
        ShowNotification(NotAuthenticated);
        return None;
      }
      sent := Some(Post(FetchPath, map["user_id" := Str(userId.value)]));
      match reply {
        case Ok(list) => positions := list;
        case Failed(_) => ShowNotification("Failed to fetch positions.");
      }
      loading := false;
    }

    /** `togglePositionStatus(id)`: the server flips the flag; on success the list is fetched again. */
    method TogglePositionStatus(storage: LocalStorage, id: Value, reply: Reply<Value>)
      returns (sent: Option<Request>, refetch: bool)
      modifies this
      ensures sent.None? <==> !Holds(storage.items, "userid")
      ensures sent.Some? ==> sent.value == Post(TogglePath, map["user_id" := Str(storage.items["userid"]), "id" := id])
      ensures refetch <==> sent.Some? && reply.Ok?
      ensures messageVisible
      ensures message == (if sent.None? then NotAuthenticated
                          else if refetch then "Position status updated successfully."
                          else "Failed to update position status.")
      ensures positions == old(positions) && applications == old(applications)
      ensures selectedPosition == old(selectedPosition) && newPosition == old(newPosition)
      ensures isFormVisible == old(isFormVisible) && loading == old(loading)
    {
      refetch := false;
      var userId := storage.GetItem("userid");
      if userId.None? || userId.value == "" {
        ShowNotification(NotAuthenticated);
        return None, refetch;
      }
      sent := Some(Post(TogglePath, map["user_id" := Str(userId.value), "id" := id]));
      if reply.Ok? {
        refetch := true;
        ShowNotification("Position status updated successfully.");
      } else {
        ShowNotification("Failed to update position status.");
      }
    }

    /** `fetchApplications(positionId)`: on success the applications popup opens for that position. */
    method FetchApplications(storage: LocalStorage, positionId: Value, reply: Reply<seq<Obj>>)
      returns (sent: Option<Request>)
      modifies this
      ensures sent.None? <==> !Holds(storage.items, "userid")
      ensures sent.None? ==> message == NotAuthenticated && messageVisible
      ensures sent.Some? ==> sent.value == Post(ApplicationsPath, map[
        "user_id" := Str(storage.items["userid"]), "position_id" := positionId])
      ensures sent.Some? && reply.Ok? ==>
        applications == reply.data && selectedPosition == positionId &&
        message == old(message) && messageVisible == old(messageVisible)
      ensures sent.Some? && reply.Failed? ==> message == "Failed to fetch applications." && messageVisible
      ensures !(sent.Some? && reply.Ok?) ==>
        applications == old(applications) && selectedPosition == old(selectedPosition)
      ensures positions == old(positions) && newPosition == old(newPosition)
      ensures isFormVisible == old(isFormVisible) && loading == old(loading)
    {
      var userId := storage.GetItem("userid");
      if userId.None? || userId.value == "" {
        ShowNotification(NotAuthenticated);
        return None;
      }
      sent := Some(Post(ApplicationsPath, map["user_id" := Str(userId.value), "position_id" := positionId]));
      match reply {
        case Ok(list) =>
          applications := list;
          selectedPosition := positionId;
        case Failed(_) =>
          ShowNotification("Failed to fetch applications.");
      }
    }

    /** The popup's close button and its backdrop. */
    method ClosePopup()
      modifies this
      ensures selectedPosition == Null
      ensures positions == old(positions) && applications == old(applications) && newPosition == old(newPosition)
      ensures isFormVisible == old(isFormVisible) && message == old(message)
      ensures messageVisible == old(messageVisible) && loading == old(loading)
    {
      selectedPosition := Null;
    }

    /** A form input: field `name` takes the typed value. */
    method EditField(name: string, value: string)
      modifies this
      ensures newPosition == old(newPosition)[name := Str(value)]
      ensures positions == old(positions) && applications == old(applications)
      ensures selectedPosition == old(selectedPosition) && isFormVisible == old(isFormVisible)
      ensures message == old(message) && messageVisible == old(messageVisible) && loading == old(loading)
    {
      newPosition := newPosition[name := Str(value)];
    }

    /**
     * `handleAddPosition`: the user id is checked before the fields; on
     * success the form empties and closes and the list is fetched again.
     */
    method HandleAddPosition(storage: LocalStorage, reply: Reply<Value>) returns (sent: Option<Request>, refetch: bool)
      modifies this
      ensures sent.Some? <==> Holds(storage.items, "userid") && PositionComplete(old(newPosition))
      ensures !Holds(storage.items, "userid") ==> message == NotAuthenticated
      ensures Holds(storage.items, "userid") && !PositionComplete(old(newPosition)) ==>
        message == "Please fill in all fields."
      ensures sent.Some? ==> sent.value == Post(AddPath, old(newPosition)["user_id" := Str(storage.items["userid"])])
      ensures refetch <==> sent.Some? && reply.Ok?
      ensures refetch ==> newPosition == EmptyPositionForm && !isFormVisible && message == "Position added successfully."
      ensures sent.Some? && reply.Failed? ==> message == "Failed to add position."
      ensures !refetch ==> newPosition == old(newPosition) && isFormVisible == old(isFormVisible)
      ensures messageVisible
      ensures positions == old(positions) && applications == old(applications)
      ensures selectedPosition == old(selectedPosition) && loading == old(loading)
    {
      refetch := false;
      var userId := storage.GetItem("userid");
      if userId.None? || userId.value == "" {
        ShowNotification(NotAuthenticated);
        return None, refetch;
      }
      if !PositionComplete(newPosition) {
        ShowNotification("Please fill in all fields.");
        return None, refetch;
      }
      sent := Some(Post(AddPath, newPosition["user_id" := Str(userId.value)]));
      if reply.Ok? {
        refetch := true;
        newPosition := EmptyPositionForm;
        isFormVisible := false;
        ShowNotification("Position added successfully.");
      } else {
        ShowNotification("Failed to add position.");
      }
    }

    /** Opening ("Add New Position") or cancelling the form. */
    method SetFormVisible(visible: bool)
      modifies this
      ensures isFormVisible == visible
      ensures positions == old(positions) && applications == old(applications) && newPosition == old(newPosition)
      ensures selectedPosition == old(selectedPosition) && message == old(message)
      ensures messageVisible == old(messageVisible) && loading == old(loading)
    {
      isFormVisible := visible;
    }
  }
}
