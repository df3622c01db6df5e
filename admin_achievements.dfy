/**
 * The achievements management screen: dated milestones with a photo, an
 * "add achievement" form and an activate/deactivate button per entry.
 * Messages are shown with `alert`, returned here as `alert`; failures are
 * only logged to the console.
 */
module AdminAchievements {
  import opened Wrappers
  import opened Json
  import opened Images
  import opened Storage

  const EmptyAchievementForm: Obj :=
    map["title" := Str(""), "description" := Str(""), "achievement_date" := Str(""), "photo" := Null]

  const NotAuthenticated := "User not authenticated."
  const FetchPath := "/moox_events/api/achievements/get-achievements"
  const AddPath := "/moox_events/api/achievements/add-achievements"
  const StatusPath := "/moox_events/api/achievements/change-achievements-status"

  class AchievementsManagement {
    var achievements: seq<Obj>
    var newAchievement: Obj
    var isFormVisible: bool
    var previewImage: Value
    var loading: bool
    var error: string

    constructor ()
      ensures achievements == [] && newAchievement == EmptyAchievementForm && !isFormVisible
      ensures previewImage == Null && loading && error == ""
    {
      achievements, newAchievement, isFormVisible := [], EmptyAchievementForm, false;
      previewImage, loading, error := Null, true, "";
    }

    /** `fetchAchievements`: without a user id it only alerts and leaves `loading` as it was. */
    method FetchAchievements(storage: LocalStorage, reply: Reply<seq<Obj>>)
      returns (sent: Option<Request>, alert: Option<string>)
      modifies this
      ensures sent.None? <==> !Holds(storage.items, "userid")
      ensures alert == (if sent.None? then Some(NotAuthenticated) else None)
      ensures sent.None? ==> achievements == old(achievements) && loading == old(loading)
      ensures sent.Some? ==> sent.value == Post(FetchPath, map["user_id" := Str(storage.items["userid"])]) && !loading
      ensures sent.Some? ==> achievements == (if reply.Ok? then reply.data else old(achievements))
      ensures newAchievement == old(newAchievement) && isFormVisible == old(isFormVisible)
      ensures previewImage == old(previewImage) && error == old(error)
    {
      var userId := storage.GetItem("userid");
      if userId.None? || userId.value == "" {
        return None, Some(NotAuthenticated);
      }
      sent, alert := Some(Post(FetchPath, map["user_id" := Str(userId.value)])), None;
      if reply.Ok? {
        achievements := reply.data;
      }
      loading := false;
    }

    /** A form input: field `name` takes the typed value. */
    method EditField(name: string, value: string)
      modifies this
      ensures newAchievement == old(newAchievement)[name := Str(value)]
      ensures achievements == old(achievements) && isFormVisible == old(isFormVisible)
      ensures previewImage == old(previewImage) && loading == old(loading) && error == old(error)
    {
      newAchievement := newAchievement[name := Str(value)];
    }

    /**
     * `handlePhotoChange`: every photo goes through compression; the whole
     * data URL is kept in the form and is cut down only when sent.
     */
    method HandlePhotoChange(file: Option<ImageFile>, compressed: Option<ImageFile>)
      modifies this
      ensures file.Some? && compressed.Some? ==>
        previewImage == Str(compressed.value.dataUrl) &&
        newAchievement == old(newAchievement)["photo" := Str(compressed.value.dataUrl)]
      ensures file.None? || compressed.None? ==>
        previewImage == old(previewImage) && newAchievement == old(newAchievement)
      ensures file.Some? && compressed.None? ==> error == "Failed to compress image. Please try again."
      ensures !(file.Some? && compressed.None?) ==> error == old(error)
      ensures achievements == old(achievements) && isFormVisible == old(isFormVisible) && loading == old(loading)
    {
      if file.Some? {
        var processed := Processed(file.value, compressed, false);
        if processed.None? {
          error := "Failed to compress image. Please try again.";
        } else {
          previewImage := Str(processed.value.dataUrl);
          newAchievement := newAchievement["photo" := Str(processed.value.dataUrl)];
        }
      }
    }

    /**
     * `handleAddAchievement`: without a user id it alerts; without a photo
     * the `split` throws and nothing is sent or shown. On success the form
     * empties and closes and `refetch` says the list is fetched again.
     */
    method HandleAddAchievement(storage: LocalStorage, reply: Reply<Value>)
      returns (sent: Option<Request>, alert: Option<string>, refetch: bool)
      modifies this
      ensures !Holds(storage.items, "userid") ==> sent.None? && alert == Some(NotAuthenticated)
      ensures sent.Some? <==> Holds(storage.items, "userid") && Get(old(newAchievement), "photo").Str?
      ensures sent.Some? ==> sent.value == Post(AddPath, UploadBody(storage.items["userid"], old(newAchievement)).value)
      ensures refetch <==> sent.Some? && reply.Ok?
      ensures Holds(storage.items, "userid") ==> alert == (if refetch then Some("Achievement added successfully!") else None)
      ensures refetch ==> newAchievement == EmptyAchievementForm && previewImage == Null && !isFormVisible
      ensures !refetch ==>
        newAchievement == old(newAchievement) && previewImage == old(previewImage) && isFormVisible == old(isFormVisible)
      ensures achievements == old(achievements) && loading == old(loading) && error == old(error)
    {
      refetch, alert := false, None;
      var userId := storage.GetItem("userid");
      if userId.None? || userId.value == "" {
        return None, Some(NotAuthenticated), refetch;
      }
      var body := UploadBody(userId.value, newAchievement);
      if body.None? {
        return None, alert, refetch;
      }
      sent := Some(Post(AddPath, body.value));
      if reply.Ok? {
        refetch, alert := true, Some("Achievement added successfully!");
        newAchievement := EmptyAchievementForm;
        previewImage := Null;
        isFormVisible := false;
      }
    }

    /** `handleToggleStatus(id, status)`: sends `!status`; on success the list is fetched again. */
    method HandleToggleStatus(storage: LocalStorage, id: Value, status: Value, reply: Reply<Value>)
      returns (sent: Option<Request>, alert: Option<string>, refetch: bool)
      ensures sent.None? <==> !Holds(storage.items, "userid")
      ensures alert == (if sent.None? then Some(NotAuthenticated) else None)
      ensures sent.Some? ==> sent.value == Post(StatusPath, map[
        "event_id" := id, "status" := Not(status), "user_id" := Str(storage.items["userid"])])
      ensures refetch <==> sent.Some? && reply.Ok?
    {
      var userId := storage.GetItem("userid");
      if userId.None? || userId.value == "" {
        return None, Some(NotAuthenticated), false;
      }
      sent := Some(Post(StatusPath, map["event_id" := id, "status" := Not(status), "user_id" := Str(userId.value)]));
      alert, refetch := None, reply.Ok?;
    }

    /** The "Add New Achievement" / "Hide Form" button: opening it empties the form. */
    method ToggleForm()
      modifies this
      ensures isFormVisible == !old(isFormVisible)
      ensures !old(isFormVisible) ==> newAchievement == EmptyAchievementForm && previewImage == Null
      ensures old(isFormVisible) ==> newAchievement == old(newAchievement) && previewImage == old(previewImage)
      ensures achievements == old(achievements) && loading == old(loading) && error == old(error)
    {
      if !isFormVisible {
        newAchievement := EmptyAchievementForm;
        previewImage := Null;
      }
      isFormVisible := !isFormVisible;
    }
  }
}
