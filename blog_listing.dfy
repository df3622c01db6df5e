/**
 * What the two public blog lists share: the active blogs, the category
 * menu built from them, and the category filters. The blog page compares
 * categories ignoring case; the events page compares them exactly.
 */
module BlogListing {
  import opened Json
  import opened Text
  import opened QueryBoard
  import opened Unique

  const AllCategories := "All"

  /** `filter(blog => blog.active)`. */
  function ActiveBlogs(blogs: seq<Obj>): (r: seq<Obj>)
    ensures forall i :: 0 <= i < |r| ==> Truthy(Get(r[i], "active"))
    ensures forall i :: 0 <= i < |blogs| && Truthy(Get(blogs[i], "active")) ==> blogs[i] in r
    ensures multiset(r) <= multiset(blogs)
  {
    FilterPartition(blogs);
    FilterByActive(blogs, true)
  }

  /** `map(blog => blog.category).filter(Boolean)`. */
  function PresentCategories(blogs: seq<Obj>): (r: seq<Value>)
    ensures forall i :: 0 <= i < |r| ==> Truthy(r[i])
    ensures forall v :: v in r <==> Truthy(v) && exists i :: 0 <= i < |blogs| && Get(blogs[i], "category") == v
  {
    if blogs == [] then []
    else
      var rest := PresentCategories(blogs[1..]);
      assert forall i :: 1 <= i < |blogs| ==> blogs[i] == blogs[1..][i - 1];
      var c := Get(blogs[0], "category");
      if Truthy(c) then [c] + rest else rest
  }

  /** The category menu: "All", then each present category once, in order of appearance. */
  function Categories(blogs: seq<Obj>): (r: seq<Value>)
    ensures |r| >= 1 && r[0] == Str(AllCategories)
    ensures forall v :: v in r[1..] <==> Truthy(v) && exists i :: 0 <= i < |blogs| && Get(blogs[i], "category") == v
    ensures forall i, j :: 1 <= i < j < |r| ==> r[i] != r[j]
    ensures forall i :: 1 <= i < |r| ==> r[i] in PresentCategories(blogs)
    ensures forall i, j :: 1 <= i < j < |r| ==>
      FirstIndex(PresentCategories(blogs), r[i]) < FirstIndex(PresentCategories(blogs), r[j])
  {
    var d := Distinct(PresentCategories(blogs));
    assert ([Str(AllCategories)] + d)[1..] == d;
    [Str(AllCategories)] + d
  }

  /** With no blogs the menu holds "All" alone. */
  lemma NothingListed()
    ensures ActiveBlogs([]) == [] && Categories([]) == [Str(AllCategories)]
  {
    assert multiset(ActiveBlogs([])) == multiset{};
  }

  /** `blog.category?.toLowerCase() === selected?.toLowerCase()`. */
  predicate SameCategoryIgnoringCase(category: Value, selected: string) {
    category.Str? && ToLower(category.s) == ToLower(selected)
  }

  /**
   * The comparison ignores the case of either side, and a blog without a
   * text category never matches.
   */
  lemma SameCategoryIgnoresCase(category: Value, selected: string)
    ensures !category.Str? ==> !SameCategoryIgnoringCase(category, selected)
    ensures category.Str? ==>
      (SameCategoryIgnoringCase(category, selected) <==> SameCategoryIgnoringCase(Str(ToLower(category.s)), selected)) &&
      (SameCategoryIgnoringCase(category, selected) <==> SameCategoryIgnoringCase(category, ToLower(selected)))
    ensures SameCategoryIgnoringCase(Str(selected), selected)
  {
    if category.Str? {
      ToLowerTwice(category.s);
      ToLowerTwice(selected);
    }
  }

  /** The blog page's filter: all blogs for "All", else a case-insensitive category match. */
  function FilterIgnoringCase(blogs: seq<Obj>, selected: string): (r: seq<Obj>)
    ensures selected == AllCategories ==> r == blogs
    ensures selected != AllCategories ==>
      (forall b :: b in r ==> SameCategoryIgnoringCase(Get(b, "category"), selected)) &&
      (forall b :: b in blogs && SameCategoryIgnoringCase(Get(b, "category"), selected) ==> b in r)
    ensures multiset(r) <= multiset(blogs)
  {
    if selected == AllCategories then blogs else KeepIgnoringCase(blogs, selected)
  }

  function KeepIgnoringCase(blogs: seq<Obj>, selected: string): (r: seq<Obj>)
    ensures forall b :: b in r ==> SameCategoryIgnoringCase(Get(b, "category"), selected)
    ensures forall b :: b in blogs && SameCategoryIgnoringCase(Get(b, "category"), selected) ==> b in r
    ensures multiset(r) <= multiset(blogs)
  {
    if blogs == [] then []
    else
      var rest := KeepIgnoringCase(blogs[1..], selected);
      assert blogs == [blogs[0]] + blogs[1..];
      if SameCategoryIgnoringCase(Get(blogs[0], "category"), selected) then [blogs[0]] + rest else rest
  }

  /** The events page's filter: all blogs for "All", else an exact category match. */
  function FilterExact(blogs: seq<Obj>, selected: string): (r: seq<Obj>)
    ensures selected == AllCategories ==> r == blogs
    ensures selected != AllCategories ==>
      (forall b :: b in r ==> Get(b, "category") == Str(selected)) &&
      (forall b :: b in blogs && Get(b, "category") == Str(selected) ==> b in r)
    ensures multiset(r) <= multiset(blogs)
  {
    if selected == AllCategories then blogs else KeepExact(blogs, selected)
  }

  function KeepExact(blogs: seq<Obj>, selected: string): (r: seq<Obj>)
    ensures forall b :: b in r ==> Get(b, "category") == Str(selected)
    ensures forall b :: b in blogs && Get(b, "category") == Str(selected) ==> b in r
    ensures multiset(r) <= multiset(blogs)
  {
    if blogs == [] then []
    else
      var rest := KeepExact(blogs[1..], selected);
      assert blogs == [blogs[0]] + blogs[1..];
      if Get(blogs[0], "category") == Str(selected) then [blogs[0]] + rest else rest
  }

  /**
   * The two filters differ only in case: the case-insensitive one keeps
   * everything the exact one keeps, in the same order.
   */
  lemma {:induction false} ExactWithinIgnoringCase(blogs: seq<Obj>, selected: string)
    ensures multiset(FilterExact(blogs, selected)) <= multiset(FilterIgnoringCase(blogs, selected))
  {
    if selected != AllCategories {
      KeepExactWithin(blogs, selected);
    }
  }

  lemma {:induction false} KeepExactWithin(blogs: seq<Obj>, selected: string)
    ensures multiset(KeepExact(blogs, selected)) <= multiset(KeepIgnoringCase(blogs, selected))
  {
    if blogs != [] {
      KeepExactWithin(blogs[1..], selected);
    }
  }

  /** When no category differs from the selection only in case, both filters keep the same blogs. */
  lemma {:induction false} FiltersAgreeWithoutCaseVariants(blogs: seq<Obj>, selected: string)
    requires forall i :: 0 <= i < |blogs| ==>
      (SameCategoryIgnoringCase(Get(blogs[i], "category"), selected) <==> Get(blogs[i], "category") == Str(selected))
    ensures FilterExact(blogs, selected) == FilterIgnoringCase(blogs, selected)
  {
    if selected != AllCategories && blogs != [] {
      assert forall i :: 1 <= i < |blogs| ==> blogs[i] == blogs[1..][i - 1];
      FiltersAgreeWithoutCaseVariants(blogs[1..], selected);
    }
  }

  /** Categories are read blog by blog, in order: one blog gives its category iff it is truthy. */
  lemma {:induction false} PresentCategoriesAppend(a: seq<Obj>, b: seq<Obj>)
    ensures PresentCategories(a + b) == PresentCategories(a) + PresentCategories(b)
  {
    if a == [] {
      assert a + b == b;
    } else {
      var v, rest := a[0], a[1..];
      assert a == [v] + rest && a + b == [v] + (rest + b);
      PresentCategoriesCons(v, rest);
      PresentCategoriesCons(v, rest + b);
      PresentCategoriesAppend(rest, b);
      var head := if Truthy(Get(v, "category")) then [Get(v, "category")] else [];
      AppendAssoc(head, PresentCategories(rest), PresentCategories(b));
    }
  }

  lemma PresentCategoriesCons(v: Obj, s: seq<Obj>)
    ensures PresentCategories([v] + s) == (if Truthy(Get(v, "category")) then [Get(v, "category")] else []) + PresentCategories(s)
  {
    var t := [v] + s;
    assert t[0] == v && t[1..] == s;
  }

  lemma PresentCategoriesOne(v: Obj)
    ensures PresentCategories([v]) == if Truthy(Get(v, "category")) then [Get(v, "category")] else []
  {
    assert [v][1..] == [];
  }

  /** The case-insensitive filter keeps each blog where it stood, once. */
  lemma {:induction false} KeepIgnoringCaseAppend(a: seq<Obj>, b: seq<Obj>, selected: string)
    ensures KeepIgnoringCase(a + b, selected) == KeepIgnoringCase(a, selected) + KeepIgnoringCase(b, selected)
  {
    if a == [] {
      assert a + b == b;
    } else {
      var v, rest := a[0], a[1..];
      assert a == [v] + rest && a + b == [v] + (rest + b);
      KeepIgnoringCaseCons(v, rest, selected);
      KeepIgnoringCaseCons(v, rest + b, selected);
      KeepIgnoringCaseAppend(rest, b, selected);
    }
  }

  lemma KeepIgnoringCaseCons(v: Obj, s: seq<Obj>, selected: string)
    ensures KeepIgnoringCase([v] + s, selected) == (if SameCategoryIgnoringCase(Get(v, "category"), selected) then [v] else []) + KeepIgnoringCase(s, selected)
  {
    var t := [v] + s;
    assert t[0] == v && t[1..] == s;
  }

  lemma KeepIgnoringCaseOne(v: Obj, selected: string)
    ensures KeepIgnoringCase([v], selected) == if SameCategoryIgnoringCase(Get(v, "category"), selected) then [v] else []
  {
    assert [v][1..] == [];
  }

  /** The exact filter keeps each blog where it stood, once. */
  lemma {:induction false} KeepExactAppend(a: seq<Obj>, b: seq<Obj>, selected: string)
    ensures KeepExact(a + b, selected) == KeepExact(a, selected) + KeepExact(b, selected)
  {
    if a == [] {
      assert a + b == b;
    } else {
      var v, rest := a[0], a[1..];
      assert a == [v] + rest && a + b == [v] + (rest + b);
      KeepExactCons(v, rest, selected);
      KeepExactCons(v, rest + b, selected);
      KeepExactAppend(rest, b, selected);
    }
  }

  lemma KeepExactCons(v: Obj, s: seq<Obj>, selected: string)
    ensures KeepExact([v] + s, selected) == (if Get(v, "category") == Str(selected) then [v] else []) + KeepExact(s, selected)
  {
    var t := [v] + s;
    assert t[0] == v && t[1..] == s;
  }

  lemma KeepExactOne(v: Obj, selected: string)
    ensures KeepExact([v], selected) == if Get(v, "category") == Str(selected) then [v] else []
  {
    assert [v][1..] == [];
  }

  /** The active blogs keep their order: the list splits over concatenation, and one blog stays iff it is active. */
  lemma ActiveBlogsAppend(a: seq<Obj>, b: seq<Obj>)
    ensures ActiveBlogs(a + b) == ActiveBlogs(a) + ActiveBlogs(b)
  {
    FilterByActiveAppend(a, b, true);
  }

  lemma ActiveBlogsOne(v: Obj)
    ensures ActiveBlogs([v]) == if Truthy(Get(v, "active")) then [v] else []
  {
    FilterByActiveOne(v, true);
  }

  /** The blog page's filter keeps order and multiplicity. */
  lemma FilterIgnoringCaseAppend(a: seq<Obj>, b: seq<Obj>, selected: string)
    ensures FilterIgnoringCase(a + b, selected) == FilterIgnoringCase(a, selected) + FilterIgnoringCase(b, selected)
  {
    if selected != AllCategories {
      KeepIgnoringCaseAppend(a, b, selected);
    }
  }

  lemma FilterIgnoringCaseOne(v: Obj, selected: string)
    ensures FilterIgnoringCase([v], selected) ==
      if selected == AllCategories || SameCategoryIgnoringCase(Get(v, "category"), selected) then [v] else []
  {
    if selected != AllCategories {
      KeepIgnoringCaseOne(v, selected);
    }
  }

  /** The events page's filter keeps order and multiplicity. */
  lemma FilterExactAppend(a: seq<Obj>, b: seq<Obj>, selected: string)
    ensures FilterExact(a + b, selected) == FilterExact(a, selected) + FilterExact(b, selected)
  {
    if selected != AllCategories {
      KeepExactAppend(a, b, selected);
    }
  }

  lemma FilterExactOne(v: Obj, selected: string)
    ensures FilterExact([v], selected) ==
      if selected == AllCategories || Get(v, "category") == Str(selected) then [v] else []
  {
    if selected != AllCategories {
      KeepExactOne(v, selected);
    }
  }
}
