/** The home-page gallery strip: the ten most recently added gallery entries. */
module GalleryHome {
  import opened Wrappers
  import opened Json
  import opened Masonry

  const PhotosPath := "/moox_events/api/gallery/get-all-photos"
  const ShownCount := 10

  /** `clients.slice(-10)`: the last ten entries in their own order, or all of them when there are fewer. */
  function LastTen(clients: seq<Obj>): (r: seq<Obj>)
    ensures |r| == if |clients| < ShownCount then |clients| else ShownCount
    ensures clients == clients[..|clients| - |r|] + r
    ensures forall i :: 0 <= i < |r| ==> r[i] == clients[|clients| - |r| + i]
  {
    var from := if |clients| < ShownCount then 0 else |clients| - ShownCount;
    assert clients == clients[..from] + clients[from..];
    clients[from..]
  }

  /** A tile: an image when the entry has a logo, a video otherwise. */
  datatype HomeItem = HomeItem(isImage: bool, src: Value, description: Value)

  function ItemOf(client: Obj): (item: HomeItem)
    ensures item.isImage <==> Truthy(Get(client, "logo"))
    ensures item.src == Get(client, "logo") && item.description == Get(client, "description")
  {
    HomeItem(Truthy(Get(client, "logo")), Get(client, "logo"), Get(client, "description"))
  }

  function ItemsOf(clients: seq<Obj>): (r: seq<HomeItem>)
    ensures |r| == |clients| && forall i :: 0 <= i < |r| ==> r[i] == ItemOf(clients[i])
  {
    seq(|clients|, i requires 0 <= i < |clients| => ItemOf(clients[i]))
  }

  class GalleryStrip {
    var modalContent: Option<HomeItem>
    var galleryItems: seq<HomeItem>
    var loading: bool

    constructor ()
      ensures modalContent.None? && galleryItems == [] && loading
    {
      modalContent, galleryItems, loading := None, [], true;
    }

    /**
     * `fetchGalleryItems`. `reply.data` is the reply's `clients`, `None`
     * when missing, in which case nothing changes and the spinner stays.
     * `notify` says whether the parent's `onGalleryLoadComplete` is called.
     */
    method FetchGalleryItems(reply: Reply<Option<seq<Obj>>>, hasCallback: bool) returns (sent: Request, notify: bool)
      modifies this
      ensures sent == Post(PhotosPath, map[])
      ensures reply.Ok? && reply.data.Some? ==> galleryItems == ItemsOf(LastTen(reply.data.value)) && !loading
      ensures notify <==> reply.Ok? && reply.data.Some? && hasCallback
      ensures reply.Ok? && reply.data.None? ==> galleryItems == old(galleryItems) && loading == old(loading)
      ensures reply.Failed? ==> galleryItems == old(galleryItems) && !loading
      ensures |galleryItems| <= ShownCount || galleryItems == old(galleryItems)
      ensures modalContent == old(modalContent)
    {
      sent, notify := Post(PhotosPath, map[]), false;
      match reply {
        case Ok(Some(clients)) =>
          galleryItems, loading := ItemsOf(LastTen(clients)), false;
          notify := hasCallback;
        case Ok(None) =>
        case Failed(_) =>
          loading := false;
      }
    }

    /** The masonry columns of the tiles. */
    method Columns() returns (columns: seq<seq<HomeItem>>)
      ensures |columns| == ColumnCount
      ensures forall c :: 0 <= c < ColumnCount ==> |columns[c]| == ColumnSize(|galleryItems|, c)
      ensures forall c, k :: 0 <= c < ColumnCount && 0 <= k < |columns[c]| ==>
        ColumnCount * k + c < |galleryItems| && columns[c][k] == galleryItems[ColumnCount * k + c]
    {
      columns := GetColumns(galleryItems);
    }

    method OpenModal(item: HomeItem)
      modifies this
      ensures modalContent == Some(item)
      ensures galleryItems == old(galleryItems) && loading == old(loading)
    {
      modalContent := Some(item);
    }

    method CloseModal()
      modifies this
      ensures modalContent.None?
      ensures galleryItems == old(galleryItems) && loading == old(loading)
    {
      modalContent := None;
    }
  }
}
