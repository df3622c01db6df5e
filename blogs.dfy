/**
 * The public blog list: active blogs as cards with a short excerpt and
 * their tags, a category menu, and a popup showing the blog's embedded
 * images.
 */
module Blogs {
  import opened Wrappers
  import opened Json
  import opened Text
  import opened BlogListing

  const BlogsPath := "/moox_events/api/blogs/get-all-blogs"
  const ExcerptWords := 10

  /**
   * The card text: the first ten space-separated words of the description
   * followed by "...". It is the description itself, plus "...", when that
   * has at most ten words, and otherwise a proper prefix of it ending just
   * before a space.
   */
  function Excerpt(description: string): (r: string)
    ensures |Split(description, ' ')| <= ExcerptWords ==> r == description + "..."
    ensures |Split(description, ' ')| > ExcerptWords ==>
      exists n :: 0 <= n < |description| && description[n] == ' ' && r == description[..n] + "..."
  {
    var words := Split(description, ' ');
    JoinSplit(description, ' ');
    if |words| <= ExcerptWords then Join(words, ' ') + "..."
    else
      JoinPrefix(words, ExcerptWords, ' ');
      var head := Join(words[..ExcerptWords], ' ');
      assert description == head + [' '] + Join(words[ExcerptWords..], ' ');
      assert description[|head|] == ' ' && description[..|head|] == head;
      head + "..."
  }

  /** The words before the closing "..." are exactly the description's first ten (all of them when there are fewer). */
  lemma ExcerptKeepsFirstWords(description: string)
    ensures var r := Excerpt(description); var words := Split(description, ' ');
      |r| >= 3 && r[|r| - 3..] == "..." &&
      Split(r[..|r| - 3], ' ') == if |words| <= ExcerptWords then words else words[..ExcerptWords]
  {
    var r, words := Excerpt(description), Split(description, ' ');
    if |words| <= ExcerptWords {
      assert r[..|r| - 3] == description;
    } else {
      var head := Join(words[..ExcerptWords], ' ');
      assert r == head + "...";
      assert r[..|r| - 3] == head;
      SplitJoin(words[..ExcerptWords], ' ');
    }
  }

  /**
   * `blog.tags?.split(",").map(tag => tag.trim())`: nothing when the tags
   * are absent, otherwise each comma-separated piece trimmed.
   */
  function Tags(tags: Value): (r: seq<string>)
    ensures !tags.Str? ==> r == []
    ensures tags.Str? ==> r == TrimAll(Split(tags.s, ','))
    ensures forall i :: 0 <= i < |r| ==> Trim(r[i]) == r[i] && ',' !in r[i]
  {
    match tags
    case Str(s) =>
      var pieces := Split(s, ',');
      forall i | 0 <= i < |pieces|
        ensures Trim(Trim(pieces[i])) == Trim(pieces[i]) && ',' !in Trim(pieces[i])
      {
        TrimIdempotent(pieces[i]);
        TrimNoNewChars(pieces[i], ',');
      }
      TrimAll(pieces)
    case _ => []
  }

  /** A photo value the popup shows: a string starting "data:image" and longer than 100 characters. */
  predicate IsEmbeddedImage(photo: Value) {
    photo.Str? && |photo.s| > 100 && photo.s[..10] == "data:image"
  }

  /** The key of the `k`-th photo, counting from zero: `photo1` to `photo5`. */
  function PhotoKey(k: nat): string
    requires k < 5
  {
    "photo" + [('1' as int + k) as char]
  }

  /** `photo1` to `photo5`, in order. */
  function PhotoValues(blog: Obj): (r: seq<Value>)
    ensures |r| == 5
    ensures forall k :: 0 <= k < 5 ==> r[k] == Get(blog, PhotoKey(k))
  {
    assert PhotoKey(0) == "photo1" && PhotoKey(1) == "photo2" && PhotoKey(2) == "photo3";
    assert PhotoKey(3) == "photo4" && PhotoKey(4) == "photo5";
    [Get(blog, "photo1"), Get(blog, "photo2"), Get(blog, "photo3"), Get(blog, "photo4"), Get(blog, "photo5")]
  }

  /** The embedded images among `photos`, in order. */
  function KeepImages(photos: seq<Value>): (r: seq<string>)
    ensures |r| <= |photos|
    ensures forall i :: 0 <= i < |r| ==> IsEmbeddedImage(Str(r[i]))
    ensures forall i :: 0 <= i < |photos| && IsEmbeddedImage(photos[i]) ==> photos[i].s in r
    ensures (forall i :: 0 <= i < |photos| ==> IsEmbeddedImage(photos[i])) ==> |r| == |photos|
  {
    if photos == [] then []
    else
      var rest := KeepImages(photos[1..]);
      assert forall i :: 1 <= i < |photos| ==> photos[i] == photos[1..][i - 1];
      if IsEmbeddedImage(photos[0]) then [photos[0].s] + rest else rest
  }

  /** The popup's images; the slider is used iff there is more than one. */
  function PopupImages(blog: Obj): (r: seq<string>)
    ensures |r| <= 5
    ensures forall i :: 0 <= i < |r| ==> IsEmbeddedImage(Str(r[i]))
    ensures forall k :: 0 <= k < 5 && IsEmbeddedImage(PhotoValues(blog)[k]) ==> PhotoValues(blog)[k].s in r
  {
    KeepImages(PhotoValues(blog))
  }

  /** The popup takes the five photos one by one, in key order; `KeepImagesOne` says what each gives. */
  lemma PopupImagesInOrder(blog: Obj)
    ensures PopupImages(blog) ==
      KeepImages([Get(blog, PhotoKey(0))]) + KeepImages([Get(blog, PhotoKey(1))]) + KeepImages([Get(blog, PhotoKey(2))]) +
      KeepImages([Get(blog, PhotoKey(3))]) + KeepImages([Get(blog, PhotoKey(4))])
  {
    var p := PhotoValues(blog);
    assert p == [p[0]] + [p[1]] + [p[2]] + [p[3]] + [p[4]];
    KeepImagesAppend([p[0]] + [p[1]] + [p[2]] + [p[3]], [p[4]]);
    KeepImagesAppend([p[0]] + [p[1]] + [p[2]], [p[3]]);
    KeepImagesAppend([p[0]] + [p[1]], [p[2]]);
    KeepImagesAppend([p[0]], [p[1]]);
  }

  /** The slider (dots, arrows, autoplay) is used iff at least two of the five photos are embedded images. */
  predicate ShowSlider(blog: Obj): (b: bool)
    ensures b <==>
      exists k1, k2 :: 0 <= k1 < k2 < 5 && IsEmbeddedImage(Get(blog, PhotoKey(k1))) && IsEmbeddedImage(Get(blog, PhotoKey(k2)))
  {
    var p := PhotoValues(blog);
    KeepImagesTwo(p);
    assert forall k :: 0 <= k < 5 ==> p[k] == Get(blog, PhotoKey(k));
    |PopupImages(blog)| > 1
  }

  /** Some image is kept iff some photo is an embedded image. */
  lemma {:induction false} KeepImagesSome(photos: seq<Value>)
    ensures |KeepImages(photos)| > 0 <==> exists i :: 0 <= i < |photos| && IsEmbeddedImage(photos[i])
  {
    if photos != [] {
      var v, rest := photos[0], photos[1..];
      assert photos == [v] + rest;
      KeepImagesCons(v, rest);
      KeepImagesSome(rest);
      assert forall i :: 1 <= i < |photos| ==> photos[i] == rest[i - 1];
      if !IsEmbeddedImage(v) && exists i :: 0 <= i < |photos| && IsEmbeddedImage(photos[i]) {
        var i :| 0 <= i < |photos| && IsEmbeddedImage(photos[i]);
        assert IsEmbeddedImage(rest[i - 1]);
      }
    }
  }

  /** Two of `photos` are embedded images. */
  predicate TwoImages(photos: seq<Value>) {
    exists i, j :: 0 <= i < j < |photos| && IsEmbeddedImage(photos[i]) && IsEmbeddedImage(photos[j])
  }

  /** Two images are kept iff two photos are embedded images. */
  lemma KeepImagesTwo(photos: seq<Value>)
    ensures |KeepImages(photos)| > 1 <==> TwoImages(photos)
  {
    if TwoImages(photos) {
      TwoImagesKept(photos);
    }
    if |KeepImages(photos)| > 1 {
      KeptImagesTwo(photos);
    }
  }

  lemma {:induction false} TwoImagesKept(photos: seq<Value>)
    requires TwoImages(photos)
    ensures |KeepImages(photos)| > 1
  {
    var v, rest := photos[0], photos[1..];
    assert photos == [v] + rest;
    KeepImagesCons(v, rest);
    var i, j :| 0 <= i < j < |photos| && IsEmbeddedImage(photos[i]) && IsEmbeddedImage(photos[j]);
    assert rest[j - 1] == photos[j];
    if i == 0 {
      KeepImagesSome(rest);
    } else {
      assert rest[i - 1] == photos[i];
      assert TwoImages(rest);
      TwoImagesKept(rest);
    }
  }

  lemma {:induction false} KeptImagesTwo(photos: seq<Value>)
    requires |KeepImages(photos)| > 1
    ensures TwoImages(photos)
  {
    var v, rest := photos[0], photos[1..];
    assert photos == [v] + rest;
    KeepImagesCons(v, rest);
    if IsEmbeddedImage(v) {
      KeepImagesSome(rest);
      var j :| 0 <= j < |rest| && IsEmbeddedImage(rest[j]);
      assert photos[j + 1] == rest[j];
    } else {
      KeptImagesTwo(rest);
      var i, j :| 0 <= i < j < |rest| && IsEmbeddedImage(rest[i]) && IsEmbeddedImage(rest[j]);
      assert photos[i + 1] == rest[i] && photos[j + 1] == rest[j];
    }
  }

  class BlogList {
    var blogs: seq<Obj>
    var selectedBlog: Option<Obj>
    var isPopupVisible: bool
    var isLoading: bool
    var selectedCategory: string
    var isDropdownOpen: bool
    var categories: seq<Value>

    constructor ()
      ensures blogs == [] && selectedBlog.None? && !isPopupVisible && isLoading
      ensures selectedCategory == AllCategories && !isDropdownOpen && categories == [Str(AllCategories)]
    {
      blogs, selectedBlog, isPopupVisible, isLoading := [], None, false, true;
      selectedCategory, isDropdownOpen, categories := AllCategories, false, [Str(AllCategories)];
    }

    /** The cards shown: the category filter, ignoring case. */
    function Shown(): (r: seq<Obj>)
      reads this
      ensures multiset(r) <= multiset(blogs)
      ensures selectedCategory == AllCategories ==> r == blogs
    {
      FilterIgnoringCase(blogs, selectedCategory)
    }

    /**
     * `fetchBlogs`: the active blogs and their category menu; `notify` says
     * whether the parent's `onDataLoaded` is called. Loading ends either way.
     */
    method FetchBlogs(reply: Reply<seq<Obj>>, hasCallback: bool) returns (sent: Request, notify: bool)
      modifies this
      ensures sent == Post(BlogsPath, map[]) && !isLoading
      ensures reply.Ok? ==> blogs == ActiveBlogs(reply.data) && categories == Categories(ActiveBlogs(reply.data))
      ensures notify <==> reply.Ok? && hasCallback
      ensures reply.Failed? ==> blogs == old(blogs) && categories == old(categories)
      ensures selectedBlog == old(selectedBlog) && isPopupVisible == old(isPopupVisible)
      ensures selectedCategory == old(selectedCategory) && isDropdownOpen == old(isDropdownOpen)
    {
      sent := Post(BlogsPath, map[]);
      notify := reply.Ok? && hasCallback;
      if reply.Ok? {
        Load(reply.data);
      }
      isLoading := false;
    }

    /** `setBlogs(activeBlogs)` and `setCategories(...)` on a successful fetch. */
    method Load(data: seq<Obj>)
      modifies this
      ensures blogs == ActiveBlogs(data) && categories == Categories(ActiveBlogs(data))
      ensures isLoading == old(isLoading)
      ensures selectedBlog == old(selectedBlog) && isPopupVisible == old(isPopupVisible)
      ensures selectedCategory == old(selectedCategory) && isDropdownOpen == old(isDropdownOpen)
    {
      var active := ActiveBlogs(data);
      blogs, categories := active, Categories(active);
    }

    method HandleViewPost(blog: Obj)
      modifies this
      ensures selectedBlog == Some(blog) && isPopupVisible
      ensures blogs == old(blogs) && categories == old(categories) && isLoading == old(isLoading)
      ensures selectedCategory == old(selectedCategory) && isDropdownOpen == old(isDropdownOpen)
    {
      selectedBlog, isPopupVisible := Some(blog), true;
    }

    method HandleClosePopup()
      modifies this
      ensures selectedBlog.None? && !isPopupVisible
      ensures blogs == old(blogs) && categories == old(categories) && isLoading == old(isLoading)
      ensures selectedCategory == old(selectedCategory) && isDropdownOpen == old(isDropdownOpen)
    {
      selectedBlog, isPopupVisible := None, false;
    }

    method ToggleDropdown()
      modifies this
      ensures isDropdownOpen == !old(isDropdownOpen) && selectedCategory == old(selectedCategory)
      ensures blogs == old(blogs) && categories == old(categories) && isLoading == old(isLoading)
      ensures selectedBlog == old(selectedBlog) && isPopupVisible == old(isPopupVisible)
    {
      isDropdownOpen := !isDropdownOpen;
    }

    /** Choosing a category from the menu closes it. */
    method SelectCategory(category: string)
      modifies this
      ensures selectedCategory == category && !isDropdownOpen
      ensures blogs == old(blogs) && categories == old(categories) && isLoading == old(isLoading)
      ensures selectedBlog == old(selectedBlog) && isPopupVisible == old(isPopupVisible)
    {
      selectedCategory, isDropdownOpen := category, false;
    }
  }

  /** Images are taken photo by photo, in order: one photo gives its text iff it is an embedded image. */
  lemma {:induction false} KeepImagesAppend(a: seq<Value>, b: seq<Value>)
    ensures KeepImages(a + b) == KeepImages(a) + KeepImages(b)
  {
    if a == [] {
      assert a + b == b;
    } else {
      var v, rest := a[0], a[1..];
      assert a == [v] + rest && a + b == [v] + (rest + b);
      KeepImagesCons(v, rest);
      KeepImagesCons(v, rest + b);
      KeepImagesAppend(rest, b);
    }
  }

  lemma KeepImagesCons(v: Value, s: seq<Value>)
    ensures KeepImages([v] + s) == (if IsEmbeddedImage(v) then [v.s] else []) + KeepImages(s)
  {
    var t := [v] + s;
    assert t[0] == v && t[1..] == s;
  }

  lemma KeepImagesOne(v: Value)
    ensures KeepImages([v]) == if IsEmbeddedImage(v) then [v.s] else []
  {
    assert [v][1..] == [];
  }
}
