/**
 * The team management screen: team members with a photo, a position and
 * social links, an "add member" form and an activate/deactivate button per
 * member. Changes are followed by a fresh fetch of the list.
 */
module AdminTeam {
  import opened Wrappers
  import opened Json
  import opened Images
  import opened Storage

  const EmptyMemberForm: Obj := map["user_id" := Str(""), "name" := Str(""), "description" := Str(""),
    "position" := Str(""), "facebook_link" := Str(""), "instagram_link" := Str(""), "photo" := Null]

  const FetchPath := "/moox_events/api/team/get-all-member"
  const ActivePath := "/moox_events/api/team/get-active-members"
  const AddPath := "/moox_events/api/team/add-member"
  const StatusPath := "/moox_events/api/team/change-member-status"

  /** The notice after a status change names the status that was sent. */
  function StatusNotice(status: Value): (t: string)
    ensures Truthy(status) <==> t == "Member activated successfully"
    ensures !Truthy(status) <==> t == "Member deactivated successfully"
  {
    "Member " + (if Truthy(status) then "activated" else "deactivated") + " successfully"
  }

  class TeamManagement {
    var members: seq<Obj>
    var newMember: Obj
    var activeMembers: seq<Obj>
    var loading: bool
    var notification: string
    var isFormVisible: bool
    var previewImage: Value
    var error: string

    constructor ()
      ensures members == [] && newMember == EmptyMemberForm && activeMembers == [] && loading
      ensures notification == "" && !isFormVisible && previewImage == Null && error == ""
    {
      members, newMember, activeMembers, loading := [], EmptyMemberForm, [], true;
      notification, isFormVisible, previewImage, error := "", false, Null, "";
    }

    /** `fetchMembers`: every member of the user, active or not. */
    method FetchMembers(storage: LocalStorage, reply: Reply<seq<Obj>>) returns (sent: Request)
      modifies this
      ensures sent == Post(FetchPath, map["user_id" := OfStored(storage.GetItem("userid"))])
      ensures !loading
      ensures reply.Ok? ==> members == reply.data && notification == old(notification)
      ensures reply.Failed? ==> members == old(members) && notification == "Failed to load team members"
      ensures newMember == old(newMember) && activeMembers == old(activeMembers)
      ensures isFormVisible == old(isFormVisible) && previewImage == old(previewImage) && error == old(error)
    {
      sent := Post(FetchPath, map["user_id" := OfStored(storage.GetItem("userid"))]);
      match reply {
        case Ok(list) => members := list;
        case Failed(_) => notification := "Failed to load team members";
      }
      loading := false;
    }

    /** `fetchActiveMembers`: posted without a body; a failure changes nothing. */
    method FetchActiveMembers(reply: Reply<seq<Obj>>) returns (sent: Request)
      modifies this
      ensures sent == Post(ActivePath, map[])
      ensures reply.Ok? ==> activeMembers == reply.data
      ensures reply.Failed? ==> activeMembers == old(activeMembers)
      ensures members == old(members) && newMember == old(newMember) && loading == old(loading)
      ensures notification == old(notification) && isFormVisible == old(isFormVisible)
      ensures previewImage == old(previewImage) && error == old(error)
    {
      sent := Post(ActivePath, map[]);
      if reply.Ok? {
        activeMembers := reply.data;
      }
    }

    /** `handleInputChange`: the input named `name` writes its value into the form. */
    method HandleInputChange(name: string, value: string)
      modifies this
      ensures newMember == old(newMember)[name := Str(value)]
      ensures members == old(members) && activeMembers == old(activeMembers) && loading == old(loading)
      ensures notification == old(notification) && isFormVisible == old(isFormVisible)
      ensures previewImage == old(previewImage) && error == old(error)
    {
      newMember := newMember[name := Str(value)];
    }

    /**
     * `handlePhotoChange`: every photo goes through compression, whatever
     * its size; when compression gives `null` nothing is stored.
     */
    method HandlePhotoChange(file: Option<ImageFile>, compressed: Option<ImageFile>)
      modifies this
      ensures file.Some? && compressed.Some? ==>
        previewImage == Str(compressed.value.dataUrl) &&
        newMember == old(newMember)["photo" := Payload(compressed.value.dataUrl)]
      ensures file.None? || compressed.None? ==> previewImage == old(previewImage) && newMember == old(newMember)
      ensures file.Some? && compressed.None? ==> error == "Failed to compress image. Please try again."
      ensures !(file.Some? && compressed.None?) ==> error == old(error)
      ensures members == old(members) && activeMembers == old(activeMembers) && loading == old(loading)
      ensures notification == old(notification) && isFormVisible == old(isFormVisible)
    {
      if file.Some? {
        var processed := Processed(file.value, compressed, false);
        if processed.None? {
          error := "Failed to compress image. Please try again.";
        } else {
          previewImage := Str(processed.value.dataUrl);
          newMember := newMember["photo" := Payload(processed.value.dataUrl)];
        }
      }
    }

    /**
     * `handleAddMember`: the form is sent as it is, with the stored user id
     * over its own `user_id`; on success the form closes and empties and
     * `refetch` says the list is fetched again.
     */
    method HandleAddMember(storage: LocalStorage, reply: Reply<Value>) returns (sent: Request, refetch: bool)
      modifies this
      ensures sent == Post(AddPath, old(newMember)["user_id" := OfStored(storage.GetItem("userid"))])
      ensures refetch <==> reply.Ok?
      ensures reply.Ok? ==>
        notification == "Member added successfully" && !isFormVisible &&
        newMember == EmptyMemberForm && previewImage == Null
      ensures reply.Failed? ==>
        notification == "Failed to add member" && isFormVisible == old(isFormVisible) &&
        newMember == old(newMember) && previewImage == old(previewImage)
      ensures members == old(members) && activeMembers == old(activeMembers)
      ensures loading == old(loading) && error == old(error)
    {
      sent := Post(AddPath, newMember["user_id" := OfStored(storage.GetItem("userid"))]);
      refetch := reply.Ok?;
      if reply.Ok? {
        notification := "Member added successfully";
        isFormVisible := false;
        newMember := EmptyMemberForm;
        previewImage := Null;
      } else {
        notification := "Failed to add member";
      }
    }

    /** `handleToggleStatus(event_id, status)`: `status` is sent as given, not negated. */
    method HandleToggleStatus(storage: LocalStorage, eventId: Value, status: Value, reply: Reply<Value>)
      returns (sent: Request, refetch: bool)
      modifies this
      ensures sent == Post(StatusPath, map["event_id" := eventId, "status" := status,
                                           "user_id" := OfStored(storage.GetItem("userid"))])
      ensures refetch <==> reply.Ok?
      ensures reply.Ok? ==> notification == StatusNotice(status)
      ensures reply.Failed? ==> notification == "Failed to update member status"
      ensures members == old(members) && newMember == old(newMember) && activeMembers == old(activeMembers)
      ensures loading == old(loading) && isFormVisible == old(isFormVisible)
      ensures previewImage == old(previewImage) && error == old(error)
    {
      sent := Post(StatusPath, map["event_id" := eventId, "status" := status,
                                   "user_id" := OfStored(storage.GetItem("userid"))]);
      refetch := reply.Ok?;
      notification := if reply.Ok? then StatusNotice(status) else "Failed to update member status";
    }

    /**
     * The member card's button, which calls the handler with `member.id`
     * and `!member.active`: the status sent is the opposite of the member's
     * current one, and the notice says "activated" exactly when the member
     * was inactive.
     */
    method ToggleMember(storage: LocalStorage, member: Obj, reply: Reply<Value>) returns (sent: Request, refetch: bool)
      modifies this
      ensures sent.Post? && Get(sent.body, "event_id") == Get(member, "id")
      ensures Truthy(Get(sent.body, "status")) <==> !Truthy(Get(member, "active"))
      ensures reply.Ok? ==>
        (notification == "Member activated successfully" <==> !Truthy(Get(member, "active")))
      ensures refetch <==> reply.Ok?
      ensures members == old(members) && newMember == old(newMember) && activeMembers == old(activeMembers)
      ensures loading == old(loading) && isFormVisible == old(isFormVisible)
      ensures previewImage == old(previewImage) && error == old(error)
    {
      sent, refetch := HandleToggleStatus(storage, Get(member, "id"), Not(Get(member, "active")), reply);
    }

    /** Opening ("Add New Member") or cancelling the form. */
    method SetFormVisible(visible: bool)
      modifies this
      ensures isFormVisible == visible
      ensures members == old(members) && newMember == old(newMember) && activeMembers == old(activeMembers)
      ensures loading == old(loading) && notification == old(notification)
      ensures previewImage == old(previewImage) && error == old(error)
    {
      isFormVisible := visible;
    }
  }
}
