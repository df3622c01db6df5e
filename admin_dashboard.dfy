/**
 * The admin dashboard: a sidebar menu whose selected key chooses the
 * management screen, persisted in storage across reloads.
 */
module AdminDashboard {
  import opened Wrappers
  import opened Json
  import opened Storage

  /** What `renderComponent` returns. */
  datatype Screen =
    | ServicesScreen | ClientsScreen | GalleryScreen | CareerScreen | BlogsScreen
    | ContactUsScreen | TeamScreen | EnquiryScreen | AchievementsScreen
    /** The events screen, imported by the dashboard but never chosen. */
    | EventsScreen
    /** "Select an option from the sidebar." */
    | Placeholder

  const DefaultComponent := "ManageServices"

  /** The sidebar entries: label and key. */
  const MenuItems: seq<(string, string)> := [
    ("Manage Services", "ManageServices"),
    ("Manage Clients", "ManageClients"),
    ("Gallery Management", "GalleryManagement"),
    ("Career Management", "CareerManagement"),
    ("Manage Blogs", "ManageBlogs"),
    ("Contact Us", "ContactUs"),
    ("Team Management", "TeamManagement"),
    ("Enquiry Management", "EnquiryManagement"),
    ("Achievements Management", "AchievementsManagement")
  ]

  predicate IsMenuKey(key: string) {
    exists i :: 0 <= i < |MenuItems| && MenuItems[i].1 == key
  }

  /**
   * `renderComponent`: a key offered by the menu shows a management screen,
   * any other key the placeholder; the events screen is never shown.
   */
  function RenderComponent(key: string): (r: Screen)
    ensures r == Placeholder <==> !IsMenuKey(key)
    ensures r != EventsScreen
  {
    assert MenuItems[0].1 == "ManageServices" && MenuItems[1].1 == "ManageClients";
    assert MenuItems[2].1 == "GalleryManagement" && MenuItems[3].1 == "CareerManagement";
    assert MenuItems[4].1 == "ManageBlogs" && MenuItems[5].1 == "ContactUs";
    assert MenuItems[6].1 == "TeamManagement" && MenuItems[7].1 == "EnquiryManagement";
    assert MenuItems[8].1 == "AchievementsManagement";
    match key
    case "ManageServices" => ServicesScreen
    case "ManageClients" => ClientsScreen
    case "GalleryManagement" => GalleryScreen
    case "CareerManagement" => CareerScreen
    case "ManageBlogs" => BlogsScreen
    case "ContactUs" => ContactUsScreen
    case "TeamManagement" => TeamScreen
    case "EnquiryManagement" => EnquiryScreen
    case "AchievementsManagement" => AchievementsScreen
    case _ => Placeholder
  }

  /** Different menu entries open different screens. */
  lemma MenuScreensDistinct(i: nat, j: nat)
    requires i < j < |MenuItems|
    ensures RenderComponent(MenuItems[i].1) != RenderComponent(MenuItems[j].1)
  {
  }

  class Dashboard {
    var activeComponent: string
    var isSidebarOpen: bool

    /**
     * The stored component when one is stored and non-empty, otherwise
     * "ManageServices"; the persistence effect then writes it back.
     */
    constructor (storage: LocalStorage)
      modifies storage
      ensures Holds(old(storage.items), "activeComponent") ==> activeComponent == old(storage.items)["activeComponent"]
      ensures !Holds(old(storage.items), "activeComponent") ==> activeComponent == DefaultComponent
      ensures storage.items == old(storage.items)["activeComponent" := activeComponent]
      ensures isSidebarOpen
    {
      var stored := storage.GetItem("activeComponent");
      var initial := if stored.Some? && stored.value != "" then stored.value else DefaultComponent;
      activeComponent, isSidebarOpen := initial, true;
      storage.SetItem("activeComponent", initial);
    }

    /**
     * A menu click: the key becomes active and is persisted; on a narrow
     * window the sidebar closes.
     */
    method SelectComponent(storage: LocalStorage, key: string, narrow: bool)
      modifies this, storage
      ensures activeComponent == key
      ensures storage.items == old(storage.items)["activeComponent" := key]
      ensures isSidebarOpen == (old(isSidebarOpen) && !narrow)
    {
      activeComponent := key;
      if narrow {
        isSidebarOpen := false;
      }
      storage.SetItem("activeComponent", key);
    }

    /** The mobile menu button. */
    method ToggleSidebar()
      modifies this
      ensures isSidebarOpen == !old(isSidebarOpen) && activeComponent == old(activeComponent)
    {
      isSidebarOpen := !isSidebarOpen;
    }

    /**
     * `handleLogout`: storage is emptied except for `activeComponent`, which
     * keeps its value, or becomes the text "null" when it was absent; then
     * the browser goes to the login page.
     */
    method HandleLogout(storage: LocalStorage) returns (effect: Effect)
      modifies storage
      ensures storage.items.Keys == {"activeComponent"}
      ensures "activeComponent" in old(storage.items) ==>
        storage.items["activeComponent"] == old(storage.items)["activeComponent"]
      ensures "activeComponent" !in old(storage.items) ==> storage.items["activeComponent"] == "null"
      ensures effect == GoTo("/admin/login")
    {
      var kept := storage.GetItem("activeComponent");
      storage.Clear();
      storage.SetItem("activeComponent", ToText(OfStored(kept)));
      effect := GoTo("/admin/login");
    }
  }
}
