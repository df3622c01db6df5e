/**
 * The blog management screen: it lists the signed-in user's blogs, adds a
 * blog with up to six photos (a profile photo and photo1..photo5), and flips
 * a blog's `active` flag.
 */
module AdminBlogs {
  import opened Wrappers
  import opened Json
  import opened Images
  import opened Storage
  import opened ResourceLists

  datatype PhotoSlot = ProfilePhoto | Photo1 | Photo2 | Photo3 | Photo4 | Photo5

  /** The request field each photo slot is sent under. */
  function SlotField(slot: PhotoSlot): string {
    match slot
    case ProfilePhoto => "profile_photo"
    case Photo1 => "photo1"
    case Photo2 => "photo2"
    case Photo3 => "photo3"
    case Photo4 => "photo4"
    case Photo5 => "photo5"
  }

  /** The `newBlog` form; a photo slot that is absent from `photos` holds `null`, otherwise a data URL. */
  datatype BlogForm = BlogForm(
    title: string, description: string, readTime: string, date: string,
    author: string, tags: string, categoryName: string,
    photos: map<PhotoSlot, string>)

  const EmptyBlogForm := BlogForm("", "", "", "", "", "", "", map[])

  function Slot(f: BlogForm, slot: PhotoSlot): Option<string> {
    if slot in f.photos then Some(f.photos[slot]) else None
  }

  /** `!newBlog.title || !newBlog.description || !newBlog.photo1` is false. */
  predicate ReadyToAdd(f: BlogForm) {
    f.title != "" && f.description != "" && Photo1 in f.photos && f.photos[Photo1] != ""
  }

  /** The add-blog request body. */
  function AddBody(userId: string, f: BlogForm): (body: Obj)
    ensures "user_id" in body && body["user_id"] == Str(userId)
    ensures "title" in body && body["title"] == Str(f.title)
    ensures "description" in body && body["description"] == Str(f.description)
    ensures "category" in body && body["category"] == Str(f.categoryName)
  {
    map[
      "user_id" := Str(userId), "title" := Str(f.title), "description" := Str(f.description),
      "readTime" := Str(f.readTime), "date" := Str(f.date), "author" := Str(f.author),
      "tags" := Str(f.tags), "category" := Str(f.categoryName),
      "profile_photo" := Str(OptionalPayload(Slot(f, ProfilePhoto))),
      "photo1" := Str(OptionalPayload(Slot(f, Photo1))),
      "photo2" := Str(OptionalPayload(Slot(f, Photo2))),
      "photo3" := Str(OptionalPayload(Slot(f, Photo3))),
      "photo4" := Str(OptionalPayload(Slot(f, Photo4))),
      "photo5" := Str(OptionalPayload(Slot(f, Photo5)))]
  }

  /**
   * Each photo sent is the base64 data of the data URL its slot holds, and
   * `""` for an empty slot.
   */
  lemma AddBodyPhotos(userId: string, f: BlogForm, slot: PhotoSlot, header: string, data: string)
    requires ',' !in header && ',' !in data
    ensures Slot(f, slot).None? ==> AddBody(userId, f)[SlotField(slot)] == Str("")
    ensures Slot(f, slot) == Some(header + "," + data) ==> AddBody(userId, f)[SlotField(slot)] == Str(data)
  {
    PayloadOfDataUrl(header, data);
    var body := AddBody(userId, f);
    assert body[SlotField(slot)] == Str(OptionalPayload(Slot(f, slot))) by {
      match slot
      case ProfilePhoto =>
      case Photo1 =>
      case Photo2 =>
      case Photo3 =>
      case Photo4 =>
      case Photo5 =>
    }
  }

  /** What the add-blog call answers: `response.data.message` and `response.data.blog`. */
  datatype AddAck = AddAck(message: Value, blog: Obj)

  const NotAuthenticated := "User not authenticated."
  const FetchPath := "/moox_events/api/blogs/get-blogs"
  const AddPath := "/moox_events/api/blogs/add-blog"
  const StatusPath := "/moox_events/api/blogs/change-blog-status"

  class BlogManagement {
    var blogs: seq<Obj>
    var notification: string
    var loading: bool
    var messageVisible: bool
    var error: string
    var isModalOpen: bool
    var newBlog: BlogForm

    constructor ()
      ensures blogs == [] && notification == "" && loading && !messageVisible
      ensures error == "" && !isModalOpen && newBlog == EmptyBlogForm
    {
      blogs, notification, loading, messageVisible := [], "", true, false;
      error, isModalOpen, newBlog := "", false, EmptyBlogForm;
    }

    /** The "Add New Blog" button: opens the form and clears the error. */
    method OpenModal()
      modifies this
      ensures isModalOpen && error == ""
      ensures blogs == old(blogs) && newBlog == old(newBlog) && notification == old(notification)
      ensures loading == old(loading) && messageVisible == old(messageVisible)
    {
      isModalOpen, error := true, "";
    }

    /** The close button of the form: closes it and clears the error; the typed form is kept. */
    method CloseModal()
      modifies this
      ensures !isModalOpen && error == ""
      ensures blogs == old(blogs) && newBlog == old(newBlog) && notification == old(notification)
      ensures loading == old(loading) && messageVisible == old(messageVisible)
    {
      isModalOpen, error := false, "";
    }

    /**
     * `fetchBlogs`: without a stored user id no request is made and the
     * loading flag stays as it was; otherwise the flag ends false whether
     * the call succeeds or fails.
     */
    method FetchBlogs(storage: LocalStorage, reply: Reply<seq<Obj>>) returns (sent: Option<Request>)
      modifies this
      ensures sent.None? <==> !Holds(storage.items, "userid")
      ensures sent.None? ==>
        notification == NotAuthenticated && messageVisible && loading == old(loading) && blogs == old(blogs)
      ensures sent.Some? ==>
        sent.value == Post(FetchPath, map["user_id" := Str(storage.items["userid"])]) && !loading
      ensures sent.Some? && reply.Ok? ==>
        blogs == reply.data && notification == old(notification) && messageVisible == old(messageVisible)
      ensures sent.Some? && reply.Failed? ==>
        blogs == old(blogs) && messageVisible &&
        notification == "Failed to load blogs. " + Detail(reply.error)
      ensures error == old(error) && isModalOpen == old(isModalOpen) && newBlog == old(newBlog)
    {
      var userId := storage.GetItem("userid");
      if userId.None? || userId.value == "" {
        notification := NotAuthenticated;
        messageVisible := true;
        return None;
      }
      sent := Some(Post(FetchPath, map["user_id" := Str(userId.value)]));
      match reply {
        case Ok(list) =>
          blogs := list;
          loading := false;
        case Failed(e) =>
          notification := "Failed to load blogs. " + Detail(e);
          messageVisible := true;
          loading := false;
      }
    }

    /**
     * `handleAddBlog`: the form is checked first, then the user id; either
     * check failing sends nothing. On success the server's blog is appended,
     * the form is emptied and the page reloads; on failure the list and the
     * form are kept.
     */
    method HandleAddBlog(storage: LocalStorage, reply: Reply<AddAck>) returns (sent: Option<Request>, effect: Effect)
      modifies this
      ensures sent.None? <==> !ReadyToAdd(old(newBlog)) || !Holds(storage.items, "userid")
      ensures !ReadyToAdd(old(newBlog)) ==>
        notification == "Please fill in all required fields and upload at least one photo."
      ensures ReadyToAdd(old(newBlog)) && !Holds(storage.items, "userid") ==> notification == NotAuthenticated
      ensures sent.None? ==>
        messageVisible && blogs == old(blogs) && newBlog == old(newBlog) && effect == Stay &&
        isModalOpen == old(isModalOpen) && error == old(error)
      ensures sent.Some? ==> sent.value == Post(AddPath, AddBody(storage.items["userid"], old(newBlog)))
      ensures sent.Some? && reply.Ok? ==>
        blogs == old(blogs) + [reply.data.blog] &&
        notification == ToText(Or(reply.data.message, Str("Blog added successfully!"))) &&
        !isModalOpen && newBlog == EmptyBlogForm && error == "" && messageVisible && effect == Reload
      ensures sent.Some? && reply.Failed? ==>
        blogs == old(blogs) && newBlog == old(newBlog) && isModalOpen == old(isModalOpen) &&
        error == old(error) && messageVisible && effect == Stay &&
        notification == "Failed to add blog. " + Detail(reply.error)
      ensures loading == old(loading)
    {
      effect := Stay;
      if !ReadyToAdd(newBlog) {
        notification := "Please fill in all required fields and upload at least one photo.";
        messageVisible := true;
        return None, effect;
      }
      var userId := storage.GetItem("userid");
      if userId.None? || userId.value == "" {
        notification := NotAuthenticated;
        messageVisible := true;
        return None, effect;
      }
      sent := Some(Post(AddPath, AddBody(userId.value, newBlog)));
      effect := AfterAdd(reply);
    }

    /** The answer to the add request: append and reload, or show the failure. */
    method AfterAdd(reply: Reply<AddAck>) returns (effect: Effect)
      modifies this
      ensures reply.Ok? ==>
        blogs == old(blogs) + [reply.data.blog] &&
        notification == ToText(Or(reply.data.message, Str("Blog added successfully!"))) &&
        !isModalOpen && newBlog == EmptyBlogForm && error == "" && effect == Reload
      ensures reply.Failed? ==>
        blogs == old(blogs) && newBlog == old(newBlog) && isModalOpen == old(isModalOpen) &&
        error == old(error) && effect == Stay &&
        notification == "Failed to add blog. " + Detail(reply.error)
      ensures messageVisible && loading == old(loading)
    {
      match reply {
        case Ok(ack) =>
          blogs := blogs + [ack.blog];
          notification := ToText(Or(ack.message, Str("Blog added successfully!")));
          isModalOpen := false;
          newBlog := EmptyBlogForm;
          error := "";
          effect := Reload;
        case Failed(e) =>
          notification := "Failed to add blog. " + Detail(e);
          effect := Stay;
      }
      messageVisible := true;
    }

    /**
     * `handleToggleStatus(id, status)`: sends the negated status; on success
     * only the blogs whose `_id` is `id` get `active: !status`.
     */
    method HandleToggleStatus(storage: LocalStorage, id: Value, status: Value, reply: Reply<Value>)
      returns (sent: Option<Request>)
      modifies this
      ensures sent.None? <==> !Holds(storage.items, "userid")
      ensures sent.None? ==> notification == NotAuthenticated && messageVisible && blogs == old(blogs)
      ensures sent.Some? ==>
        sent.value == Post(StatusPath, map[
          "blog_id" := id, "user_id" := Str(storage.items["userid"]), "status" := Not(status)])
      ensures sent.Some? && reply.Ok? ==>
        blogs == SetWhere(old(blogs), "_id", id, "active", Not(status)) && messageVisible &&
        notification == ToText(Or(reply.data, Str(
          if Truthy(status) then "Blog deactivated successfully!" else "Blog activated successfully!")))
      ensures sent.Some? && reply.Failed? ==>
        blogs == old(blogs) && messageVisible &&
        notification == "Failed to update blog status. " + Detail(reply.error)
      ensures loading == old(loading) && error == old(error)
      ensures isModalOpen == old(isModalOpen) && newBlog == old(newBlog)
    {
      var userId := storage.GetItem("userid");
      if userId.None? || userId.value == "" {
        notification := NotAuthenticated;
        messageVisible := true;
        return None;
      }
      sent := Some(Post(StatusPath, map["blog_id" := id, "user_id" := Str(userId.value), "status" := Not(status)]));
      match reply {
        case Ok(message) =>
          blogs := SetWhere(blogs, "_id", id, "active", Not(status));
          notification := ToText(Or(message, Str(
            if Truthy(status) then "Blog deactivated successfully!" else "Blog activated successfully!")));
          messageVisible := true;
        case Failed(e) =>
          notification := "Failed to update blog status. " + Detail(e);
          messageVisible := true;
      }
    }

    /**
     * `handleImageUpload(e, field)`: a file over 51200 bytes is compressed
     * first; when compression gives `null` the slot is not written.
     * `compressed` is what compression returns for this file.
     */
    method HandleImageUpload(file: Option<ImageFile>, slot: PhotoSlot, compressed: Option<ImageFile>)
      returns (compressing: bool)
      modifies this
      ensures compressing <==> file.Some? && file.value.size > CompressionThreshold
      ensures file.Some? && Processed(file.value, compressed, true).Some? ==>
        newBlog == old(newBlog).(photos := old(newBlog).photos[slot := Processed(file.value, compressed, true).value.dataUrl])
      ensures file.None? || Processed(file.value, compressed, true).None? ==> newBlog == old(newBlog)
      ensures compressing && compressed.None? ==> error == "Failed to compress image. Please try again."
      ensures !(compressing && compressed.None?) ==> error == old(error)
      ensures blogs == old(blogs) && notification == old(notification) && loading == old(loading)
      ensures messageVisible == old(messageVisible) && isModalOpen == old(isModalOpen)
    {
      compressing := false;
      if file.Some? {
        compressing := file.value.size > CompressionThreshold;
        if compressing && compressed.None? {
          error := "Failed to compress image. Please try again.";
        }
        var processed := Processed(file.value, compressed, true);
        if processed.Some? {
          newBlog := newBlog.(photos := newBlog.photos[slot := processed.value.dataUrl]);
        }
      }
    }
  }
}
