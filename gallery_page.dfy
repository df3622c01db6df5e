/**
 * The public gallery page: every gallery entry as an image or a video,
 * grouped into categories named after the first word of its description.
 */
module GalleryPage {
  import opened Wrappers
  import opened Json
  import opened Text
  import opened Unique
  import opened Masonry

  const PhotosPath := "/moox_events/api/gallery/get-all-photos"
  const AllCategories := "All categories"

  /**
   * `formatCategoryName`: nothing for an absent or empty word; otherwise a
   * space before every capital letter, then trimmed, so that "WeddingParty"
   * reads "Wedding Party". Only white space is added or removed: the
   * word's other characters all stay, in order.
   */
  function FormatCategoryName(word: Option<string>): (r: string)
    ensures word.None? || word == Some("") ==> r == ""
    ensures word.Some? ==> Unspaced(r) == Unspaced(word.value)
    ensures r == "" || (!IsSpace(r[0]) && !IsSpace(r[|r| - 1]))
    ensures CapitalsSpaced(r)
  {
    match word
    case None => ""
    case Some(s) =>
      if s == "" then ""
      else
        var spaced := SpaceBeforeCapitals(s);
        TrimKeepsCapitalsSpaced(spaced);
        UnspacedSpaceBeforeCapitals(s);
        UnspacedTrim(spaced);
        Trim(spaced)
  }

  /** Every capital letter after the first character follows a space. */
  predicate CapitalsSpaced(s: string) {
    forall i :: 0 < i < |s| && IsUpper(s[i]) ==> s[i - 1] == ' '
  }

  lemma SliceKeepsCapitalsSpaced(s: string, a: nat, b: nat)
    requires a <= b <= |s| && CapitalsSpaced(s)
    ensures CapitalsSpaced(s[a..b])
  {
    var t := s[a..b];
    forall i | 0 < i < |t| && IsUpper(t[i])
      ensures t[i - 1] == ' '
    {
      assert t[i] == s[a + i] && t[i - 1] == s[a + i - 1];
    }
  }

  lemma TrimKeepsCapitalsSpaced(s: string)
    requires CapitalsSpaced(s)
    ensures CapitalsSpaced(Trim(s))
  {
    TrimSubstring(s);
    var a, b :| 0 <= a <= b <= |s| && Trim(s) == s[a..b];
    SliceKeepsCapitalsSpaced(s, a, b);
  }

  /** A word without capitals is only trimmed. */
  lemma FormatWithoutCapitals(s: string)
    requires forall i :: 0 <= i < |s| ==> !IsUpper(s[i])
    ensures FormatCategoryName(Some(s)) == Trim(s)
  {
    if s != "" {
      SpaceBeforeCapitalsNoCapitals(s);
    }
  }

  /** `description?.split(' ')[0]`: absent when the description is. */
  function FirstWord(description: Value): (r: Option<string>)
    ensures description.Str? <==> r.Some?
    ensures r.Some? ==> ' ' !in r.value && r == Piece(description.s, ' ', 0)
  {
    match description
    case Str(s) => Piece(s, ' ', 0)
    case _ => None
  }

  function CategoryOf(entry: Obj): string {
    FormatCategoryName(FirstWord(Get(entry, "description")))
  }

  /** Each entry's category, in order. */
  function CategoryNames(entries: seq<Obj>): (r: seq<string>)
    ensures |r| == |entries| && forall i :: 0 <= i < |r| ==> r[i] == CategoryOf(entries[i])
  {
    seq(|entries|, i requires 0 <= i < |entries| => CategoryOf(entries[i]))
  }

  /** The non-empty names, in order. */
  function NonEmpty(names: seq<string>): (r: seq<string>)
    ensures forall c :: c in r <==> c != "" && c in names
  {
    if names == [] then []
    else
      var rest := NonEmpty(names[1..]);
      assert names == [names[0]] + names[1..];
      if names[0] != "" then [names[0]] + rest else rest
  }

  /** The category buttons: "All categories", then each entry's category once, in order of appearance. */
  function Categories(entries: seq<Obj>): (r: seq<string>)
    ensures |r| >= 1 && r[0] == AllCategories
    ensures forall c :: c in r[1..] <==> c != "" && exists i :: 0 <= i < |entries| && CategoryOf(entries[i]) == c
    ensures forall i, j :: 1 <= i < j < |r| ==> r[i] != r[j]
    ensures forall i :: 1 <= i < |r| ==> r[i] in NonEmpty(CategoryNames(entries))
    ensures forall i, j :: 1 <= i < j < |r| ==>
      FirstIndex(NonEmpty(CategoryNames(entries)), r[i]) < FirstIndex(NonEmpty(CategoryNames(entries)), r[j])
  {
    var named := NonEmpty(CategoryNames(entries));
    var d := Distinct(named);
    assert forall c :: c in named <==> c != "" && exists i :: 0 <= i < |entries| && CategoryOf(entries[i]) == c by {
      var names := CategoryNames(entries);
      assert forall c :: c in names <==> exists i :: 0 <= i < |entries| && names[i] == c;
    }
    assert ([AllCategories] + d)[1..] == d;
    [AllCategories] + d
  }

  /** A tile: an image when the entry has a logo, a video otherwise. */
  datatype GalleryItem = GalleryItem(isImage: bool, src: Value, category: string)

  function ItemOf(entry: Obj): (item: GalleryItem)
    ensures item.isImage <==> Truthy(Get(entry, "logo"))
    ensures item.src == Get(entry, "logo") && item.category == CategoryOf(entry)
  {
    GalleryItem(Truthy(Get(entry, "logo")), Get(entry, "logo"), CategoryOf(entry))
  }

  function ItemsOf(entries: seq<Obj>): (r: seq<GalleryItem>)
    ensures |r| == |entries| && forall i :: 0 <= i < |r| ==> r[i] == ItemOf(entries[i])
  {
    if entries == [] then [] else [ItemOf(entries[0])] + ItemsOf(entries[1..])
  }

  /** The tiles of the chosen category, in order; all of them for "All categories". */
  function FilterItems(items: seq<GalleryItem>, active: string): (r: seq<GalleryItem>)
    ensures active == AllCategories ==> r == items
    ensures active != AllCategories ==>
      (forall t :: t in r ==> t.category == active) &&
      (forall t :: t in items && t.category == active ==> t in r)
    ensures multiset(r) <= multiset(items)
  {
    if active == AllCategories then items else KeepCategory(items, active)
  }

  function KeepCategory(items: seq<GalleryItem>, active: string): (r: seq<GalleryItem>)
    ensures forall t :: t in r ==> t.category == active
    ensures forall t :: t in items && t.category == active ==> t in r
    ensures multiset(r) <= multiset(items)
  {
    if items == [] then []
    else
      var rest := KeepCategory(items[1..], active);
      assert items == [items[0]] + items[1..];
      if items[0].category == active then [items[0]] + rest else rest
  }

  class GalleryView {
    var modalContent: Option<GalleryItem>
    var isModalOpen: bool
    var galleryItems: seq<GalleryItem>
    var categories: seq<string>
    var loading: bool
    var activeCategory: string

    constructor ()
      ensures modalContent.None? && !isModalOpen && galleryItems == [] && categories == [AllCategories]
      ensures loading && activeCategory == AllCategories
    {
      modalContent, isModalOpen, galleryItems := None, false, [];
      categories, loading, activeCategory := [AllCategories], true, AllCategories;
    }

    function Filtered(): (r: seq<GalleryItem>)
      reads this
      ensures multiset(r) <= multiset(galleryItems)
    {
      FilterItems(galleryItems, activeCategory)
    }

    /**
     * `fetchGalleryItems`. `reply.data` is the reply's `clients`, `None`
     * when missing, in which case nothing changes and the spinner stays.
     * `notify` says whether the parent's `onGalleryLoadComplete` is called.
     */
    method FetchGalleryItems(reply: Reply<Option<seq<Obj>>>, hasCallback: bool) returns (sent: Request, notify: bool)
      modifies this
      ensures sent == Post(PhotosPath, map[])
      ensures reply.Ok? && reply.data.Some? ==>
        categories == Categories(reply.data.value) && galleryItems == ItemsOf(reply.data.value) && !loading
      ensures notify <==> reply.Ok? && reply.data.Some? && hasCallback
      ensures reply.Ok? && reply.data.None? ==>
        categories == old(categories) && galleryItems == old(galleryItems) && loading == old(loading)
      ensures reply.Failed? ==> categories == old(categories) && galleryItems == old(galleryItems) && !loading
      ensures modalContent == old(modalContent) && isModalOpen == old(isModalOpen) && activeCategory == old(activeCategory)
    {
      sent, notify := Post(PhotosPath, map[]), false;
      match reply {
        case Ok(Some(entries)) =>
          categories, galleryItems, loading := Categories(entries), ItemsOf(entries), false;
          notify := hasCallback;
        case Ok(None) =>
        case Failed(_) =>
          loading := false;
      }
    }

    /** The masonry columns of the filtered tiles. */
    method Columns() returns (columns: seq<seq<GalleryItem>>)
      ensures |columns| == ColumnCount
      ensures forall c :: 0 <= c < ColumnCount ==> |columns[c]| == ColumnSize(|Filtered()|, c)
      ensures forall c, k :: 0 <= c < ColumnCount && 0 <= k < |columns[c]| ==>
        ColumnCount * k + c < |Filtered()| && columns[c][k] == Filtered()[ColumnCount * k + c]
    {
      columns := GetColumns(Filtered());
    }

    method SetActiveCategory(category: string)
      modifies this
      ensures activeCategory == category
      ensures modalContent == old(modalContent) && isModalOpen == old(isModalOpen)
      ensures galleryItems == old(galleryItems) && categories == old(categories) && loading == old(loading)
    {
      activeCategory := category;
    }

    method OpenModal(item: GalleryItem)
      modifies this
      ensures modalContent == Some(item) && isModalOpen
      ensures activeCategory == old(activeCategory)
      ensures galleryItems == old(galleryItems) && categories == old(categories) && loading == old(loading)
    {
      modalContent, isModalOpen := Some(item), true;
    }

    method CloseModal()
      modifies this
      ensures modalContent.None? && !isModalOpen
      ensures activeCategory == old(activeCategory)
      ensures galleryItems == old(galleryItems) && categories == old(categories) && loading == old(loading)
    {
      modalContent, isModalOpen := None, false;
    }
  }

  /** Names are kept one by one, in order: a name is kept iff it is not empty. */
  lemma {:induction false} NonEmptyAppend(a: seq<string>, b: seq<string>)
    ensures NonEmpty(a + b) == NonEmpty(a) + NonEmpty(b)
  {
    if a == [] {
      assert a + b == b;
    } else {
      var v, rest := a[0], a[1..];
      assert a == [v] + rest && a + b == [v] + (rest + b);
      NonEmptyCons(v, rest);
      NonEmptyCons(v, rest + b);
      NonEmptyAppend(rest, b);
    }
  }

  lemma NonEmptyCons(v: string, s: seq<string>)
    ensures NonEmpty([v] + s) == (if v != "" then [v] else []) + NonEmpty(s)
  {
    var t := [v] + s;
    assert t[0] == v && t[1..] == s;
  }

  lemma NonEmptyOne(v: string)
    ensures NonEmpty([v]) == if v != "" then [v] else []
  {
    assert [v][1..] == [];
  }

  /** The tile filter keeps each tile where it stood, once. */
  lemma {:induction false} KeepCategoryAppend(a: seq<GalleryItem>, b: seq<GalleryItem>, active: string)
    ensures KeepCategory(a + b, active) == KeepCategory(a, active) + KeepCategory(b, active)
  {
    if a == [] {
      assert a + b == b;
    } else {
      var v, rest := a[0], a[1..];
      assert a == [v] + rest && a + b == [v] + (rest + b);
      KeepCategoryCons(v, rest, active);
      KeepCategoryCons(v, rest + b, active);
      KeepCategoryAppend(rest, b, active);
    }
  }

  lemma KeepCategoryCons(v: GalleryItem, s: seq<GalleryItem>, active: string)
    ensures KeepCategory([v] + s, active) == (if v.category == active then [v] else []) + KeepCategory(s, active)
  {
    var t := [v] + s;
    assert t[0] == v && t[1..] == s;
  }

  lemma KeepCategoryOne(v: GalleryItem, active: string)
    ensures KeepCategory([v], active) == if v.category == active then [v] else []
  {
    assert [v][1..] == [];
  }

  /** The gallery filter keeps order and multiplicity. */
  lemma FilterItemsAppend(a: seq<GalleryItem>, b: seq<GalleryItem>, active: string)
    ensures FilterItems(a + b, active) == FilterItems(a, active) + FilterItems(b, active)
  {
    if active != AllCategories {
      KeepCategoryAppend(a, b, active);
    }
  }

  lemma FilterItemsOne(v: GalleryItem, active: string)
    ensures FilterItems([v], active) == if active == AllCategories || v.category == active then [v] else []
  {
    if active != AllCategories {
      KeepCategoryOne(v, active);
    }
  }
}
