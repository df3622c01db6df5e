/**
 * The public events page's blog list. Unlike the blog component it asks
 * for the signed-in user's blogs, tolerates a reply without `blogs`, and
 * filters categories by exact equality.
 */
module EventHome {
  import opened Wrappers
  import opened Json
  import opened Storage
  import opened BlogListing

  const BlogsPath := "/moox_events/api/blogs/get-all-blogs"

  class EventsPage {
    var blogs: seq<Obj>
    var categories: seq<Value>
    var selectedCategory: string
    var isDropdownOpen: bool

    constructor ()
      ensures blogs == [] && categories == [Str(AllCategories)]
      ensures selectedCategory == AllCategories && !isDropdownOpen
    {
      blogs, categories := [], [Str(AllCategories)];
      selectedCategory, isDropdownOpen := AllCategories, false;
    }

    /** The cards shown: the exact category filter. */
    function Shown(): (r: seq<Obj>)
      reads this
      ensures multiset(r) <= multiset(blogs)
      ensures selectedCategory == AllCategories ==> r == blogs
    {
      FilterExact(blogs, selectedCategory)
    }

    /**
     * `fetchBlogsAndCategories`: without a stored user id nothing is sent.
     * `reply.data` is the reply's `blogs`, `None` when it is missing, which
     * counts as no blogs. A failure only logs.
     */
    method FetchBlogsAndCategories(storage: LocalStorage, reply: Reply<Option<seq<Obj>>>) returns (sent: Option<Request>)
      ensures sent.None? <==> !Holds(storage.items, "userid")
      ensures sent.Some? ==> sent.value == Post(BlogsPath, map["user_id" := Str(storage.items["userid"])])
      ensures sent.Some? && reply.Ok? ==>
        blogs == ActiveBlogs(reply.data.GetOr([])) && categories == Categories(ActiveBlogs(reply.data.GetOr([])))
      ensures sent.Some? && reply.Ok? && reply.data.None? ==> blogs == [] && categories == [Str(AllCategories)]
      ensures sent.None? || reply.Failed? ==> blogs == old(blogs) && categories == old(categories)
      ensures selectedCategory == old(selectedCategory) && isDropdownOpen == old(isDropdownOpen)
      modifies this
    {
      var userId := storage.GetItem("userid");
      if userId.None? || userId.value == "" {
        return None;
      }
      sent := Some(Post(BlogsPath, map["user_id" := Str(userId.value)]));
      if reply.Ok? {
        if reply.data.None? {
          NothingListed();
        }
        var active := ActiveBlogs(reply.data.GetOr([]));
        blogs, categories := active, Categories(active);
      }
    }

    method ToggleDropdown()
      modifies this
      ensures isDropdownOpen == !old(isDropdownOpen) && selectedCategory == old(selectedCategory)
      ensures blogs == old(blogs) && categories == old(categories)
    {
      isDropdownOpen := !isDropdownOpen;
    }

    method SelectCategory(category: string)
      modifies this
      ensures selectedCategory == category && !isDropdownOpen
      ensures blogs == old(blogs) && categories == old(categories)
    {
      selectedCategory, isDropdownOpen := category, false;
    }
  }
}
