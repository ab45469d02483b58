/**
 * Client-side page routing: the closed set of pages, the navigation state
 * and the update `navigateTo` applies to it, the lookups behind the two
 * detail pages, and the choice of what the main area renders.
 */
module Navigation {
  import opened Js
  import opened Catalog

  datatype Page = Home | About | Services | ServiceDetail | Gallery | Products | ProductDetail | Booking | Contact

  /** The pages `navigateTo` treats as list pages: arriving there clears both detail keys. */
  predicate IsMainPage(p: Page) {
    p == Home || p == About || p == Services || p == Gallery || p == Products || p == Contact
  }

  datatype AppState = AppState(currentPage: Page, currentService: Option<string>, currentProduct: Option<string>)

  const InitialState := AppState(Home, None, None)

  /**
   * The updater `navigateTo(page, detailItem)` hands to `setAppState`: the
   * page always changes; the service key is set by the service detail page,
   * the product key by the product detail page, and both are cleared by a
   * main page. Booking is neither, so it keeps both keys.
   */
  function NextAppState(prev: AppState, page: Page, detailItem: Option<string>): (next: AppState)
    ensures next.currentPage == page
    ensures IsMainPage(page) ==> next.currentService.None? && next.currentProduct.None?
    ensures page == ServiceDetail ==> next.currentService == detailItem && next.currentProduct == prev.currentProduct
    ensures page == ProductDetail ==> next.currentProduct == detailItem && next.currentService == prev.currentService
    ensures page == Booking ==> next.currentService == prev.currentService && next.currentProduct == prev.currentProduct
  {
    var next := prev.(currentPage := page);
    var next := if page == ServiceDetail then next.(currentService := detailItem) else next;
    var next := if page == ProductDetail then next.(currentProduct := detailItem) else next;
    if IsMainPage(page) then next.(currentService := None, currentProduct := None) else next
  }

  /** One navigation request: the target page and the optional detail item. */
  datatype Intent = Intent(page: Page, detailItem: Option<string>)

  /** The navigation state after a series of requests. */
  function Replay(s: AppState, intents: seq<Intent>): AppState
    decreases |intents|
  {
    if intents == [] then s
    else Replay(NextAppState(s, intents[0].page, intents[0].detailItem), intents[1..])
  }

  /** Pages on which a detail key may still be set. */
  predicate KeepsKeys(p: Page) {
    p == ServiceDetail || p == ProductDetail || p == Booking
  }

  /**
   * What the code keeps invariant: a detail key is set only on a detail page
   * or on the booking page, which inherits both keys.
   */
  ghost predicate KeysPlaced(s: AppState) {
    (s.currentService.Some? ==> KeepsKeys(s.currentPage)) && (s.currentProduct.Some? ==> KeepsKeys(s.currentPage))
  }

  /** No sequence of navigations from a consistent state leaves a key on a list page. */
  lemma {:induction false} ReplayKeepsKeysPlaced(s: AppState, intents: seq<Intent>)
    requires KeysPlaced(s)
    ensures KeysPlaced(Replay(s, intents))
    decreases |intents|
  {
    if intents != [] {
      ReplayKeepsKeysPlaced(NextAppState(s, intents[0].page, intents[0].detailItem), intents[1..]);
    }
  }

  /** Whatever came before, a main page is reached with both keys cleared. */
  lemma {:induction false} ReplayEndingOnMainPage(s: AppState, intents: seq<Intent>)
    requires intents != [] && IsMainPage(intents[|intents| - 1].page)
    ensures Replay(s, intents) == AppState(intents[|intents| - 1].page, None, None)
    decreases |intents|
  {
    if |intents| > 1 {
      ReplayEndingOnMainPage(NextAppState(s, intents[0].page, intents[0].detailItem), intents[1..]);
    }
  }

  /**
   * The stricter rule "a key is set only on its own detail page" does not
   * hold: a service page followed by the booking page keeps the service key.
   */
  lemma BookingKeepsServiceKey(title: string)
    ensures Replay(InitialState, [Intent(ServiceDetail, Some(title)), Intent(Booking, None)])
            == AppState(Booking, Some(title), None)
  {
    var after := NextAppState(InitialState, ServiceDetail, Some(title));
    assert Replay(InitialState, [Intent(ServiceDetail, Some(title)), Intent(Booking, None)])
           == Replay(after, [Intent(Booking, None)]);
  }

  // ~~~ Detail pages ~~~

  /** The dedicated service pages. */
  datatype ServicePage =
    MusicProductionPage | ConcertProductionsPage | SoundReinforcementPage
    | StudioRecordingPage | EventPlanningPage | EquipmentRentalPage

  function DedicatedTitle(p: ServicePage): string {
    match p
    case MusicProductionPage => "Music Production"
    case ConcertProductionsPage => "Concert Productions"
    case SoundReinforcementPage => "Sound Reinforcement"
    case StudioRecordingPage => "Studio Recording"
    case EventPlanningPage => "Event Planning"
    case EquipmentRentalPage => "Equipment Rental"
  }

  datatype ServiceView = Dedicated(page: ServicePage) | ServiceNotFound(requested: Option<string>, backTo: Page)

  /**
   * `ServiceDetailPage`: the dedicated page exactly when the key is one of
   * the six titles, spelled exactly; for anything else, absent key
   * included, the not-found view with its way back to the services list.
   */
  function ServiceDetailView(serviceName: Option<string>): (v: ServiceView)
    ensures v.Dedicated? <==> serviceName.Some? && exists p :: DedicatedTitle(p) == serviceName.value
    ensures v.Dedicated? ==> serviceName == Some(DedicatedTitle(v.page))
    ensures v.ServiceNotFound? ==> v == ServiceNotFound(serviceName, Services)
  {
    match serviceName
    case None => ServiceNotFound(None, Services)
    case Some(name) =>
      var v :=
        if name == "Music Production" then Dedicated(MusicProductionPage)
        else if name == "Concert Productions" then Dedicated(ConcertProductionsPage)
        else if name == "Sound Reinforcement" then Dedicated(SoundReinforcementPage)
        else if name == "Studio Recording" then Dedicated(StudioRecordingPage)
        else if name == "Event Planning" then Dedicated(EventPlanningPage)
        else if name == "Equipment Rental" then Dedicated(EquipmentRentalPage)
        else ServiceNotFound(serviceName, Services);
      assert v.Dedicated? ==> DedicatedTitle(v.page) == name;
      v
  }

  /** Every fallback service leads to its own dedicated page. */
  lemma MockServicesHaveDedicatedPages()
    ensures forall i :: 0 <= i < |MockServices| ==> ServiceDetailView(Some(MockServices[i].title)).Dedicated?
  {
    forall i | 0 <= i < |MockServices|
      ensures ServiceDetailView(Some(MockServices[i].title)).Dedicated?
    {
      var p := [MusicProductionPage, ConcertProductionsPage, SoundReinforcementPage,
                StudioRecordingPage, EventPlanningPage, EquipmentRentalPage][i];
      assert DedicatedTitle(p) == MockServices[i].title;
    }
  }

  /** `p.name === productName`: a missing name or a missing key never matches. */
  predicate NameMatches(p: Product, key: Option<string>) {
    p.name.Some? && key.Some? && p.name.value == key.value
  }

  /** `products.find(...)` as a position: the first product whose name is the key. */
  function FindProduct(products: seq<Product>, key: Option<string>): (r: Option<nat>)
    ensures r.Some? ==> r.value < |products| && NameMatches(products[r.value], key)
    ensures r.Some? ==> forall j :: 0 <= j < r.value ==> !NameMatches(products[j], key)
    ensures r.None? <==> forall j :: 0 <= j < |products| ==> !NameMatches(products[j], key)
  {
    if products == [] then None
    else if NameMatches(products[0], key) then Some(0)
    else
      match FindProduct(products[1..], key)
      case None => None
      case Some(k) => Some(k + 1)
  }

  datatype ProductView = ProductFound(product: Product) | ProductNotFound(backTo: Page)

  /** `ProductDetailPage`: the first product with that name, or the not-found view leading back to the products list. */
  function ProductDetailView(products: seq<Product>, productName: Option<string>): (v: ProductView)
    ensures v.ProductFound? <==> exists j :: 0 <= j < |products| && NameMatches(products[j], productName)
    ensures v.ProductFound? ==> v.product in products && v.product.name == productName
    ensures v.ProductFound? ==>
              exists j :: 0 <= j < |products| && v.product == products[j] && NameMatches(products[j], productName)
                          && forall k :: 0 <= k < j ==> !NameMatches(products[k], productName)
    ensures v.ProductNotFound? ==> v.backTo == Products
  {
    match FindProduct(products, productName)
    case None => ProductNotFound(Products)
    case Some(k) => ProductFound(products[k])
  }

  // ~~~ The main area ~~~

  datatype View =
    | LoadingScreen
    | DemoMode(message: string)
    | HomeView
    | AboutView
    | ServicesView
    | ServiceDetailPageView(service: ServiceView)
    | GalleryView
    | ProductsView
    | ProductDetailPageView(product: ProductView)
    | BookingView
    | ContactView

  /** The page a content view belongs to. */
  function PageOf(v: View): Option<Page> {
    match v
    case LoadingScreen => None
    case DemoMode(_) => None
    case HomeView => Some(Home)
    case AboutView => Some(About)
    case ServicesView => Some(Services)
    case ServiceDetailPageView(_) => Some(ServiceDetail)
    case GalleryView => Some(Gallery)
    case ProductsView => Some(Products)
    case ProductDetailPageView(_) => Some(ProductDetail)
    case BookingView => Some(Booking)
    case ContactView => Some(Contact)
  }

  /**
   * `renderPage`: the spinner while loading, the demo-mode notice when
   * loading failed and left no services, and otherwise the view of the
   * current page, whichever of the nine it is.
   */
  function RenderPage(isLoading: bool, error: Option<string>, services: seq<Service>,
                      products: seq<Product>, s: AppState): (v: View)
    ensures isLoading <==> v == LoadingScreen
    ensures v.DemoMode? <==> !isLoading && Truthy(error) && services == []
    ensures !isLoading && (services != [] || !Truthy(error)) ==> PageOf(v) == Some(s.currentPage)
    ensures v.ServiceDetailPageView? ==> v.service == ServiceDetailView(s.currentService)
    ensures v.ProductDetailPageView? ==> v.product == ProductDetailView(products, s.currentProduct)
  {
    if isLoading then LoadingScreen
    else if Truthy(error) && |services| == 0 then DemoMode(error.value)
    else
      match s.currentPage
      case Home => HomeView
      case About => AboutView
      case Services => ServicesView
      case ServiceDetail => ServiceDetailPageView(ServiceDetailView(s.currentService))
      case Gallery => GalleryView
      case Products => ProductsView
      case ProductDetail => ProductDetailPageView(ProductDetailView(products, s.currentProduct))
      case Booking => BookingView
      case Contact => ContactView
  }
}
