/**
 * The top-level application state: navigation, the catalogue loaded once
 * at start-up with its fallbacks, and the support chat session. Each
 * method is one of the handlers or effects of the main component, with
 * the answers of the network and of the chat service passed in.
 */
module App {
  import opened Js
  import opened Catalog
  import opened Chat
  import opened Navigation

  // ~~~ Loading the catalogue ~~~

  /**
   * What `response.json()` yields for one collection: an array, something
   * without a positive `length` (null, an object, an empty array), or a
   * body that is not JSON at all, which makes `json()` throw.
   */
  datatype Body<R> = Items(items: seq<R>) | NoItems | Malformed

  /** One HTTP answer: whether its status is 2xx, and its body. */
  datatype Response<R> = Response(ok: bool, body: Body<R>)

  datatype CatalogResponses = CatalogResponses(
    services: Response<RawService>,
    products: Response<RawProduct>,
    testimonials: Response<RawTestimonial>)

  const LoadFailed := "Failed to load data from server. Using demo data."

  /** A collection is taken from the server only when the answer is ok and holds a non-empty array. */
  predicate Adopted<R>(r: Response<R>) {
    r.ok && r.body.Items? && |r.body.items| > 0
  }

  /** Reading an ok answer that is not JSON throws. */
  predicate Unreadable<R>(r: Response<R>) {
    r.ok && r.body.Malformed?
  }

  /**
   * The load ends in the catch block when a request fails at the network
   * level (`None`: `Promise.all` rejects) or an ok answer cannot be read.
   */
  predicate LoadThrows(responses: Option<CatalogResponses>) {
    responses.None?
    || Unreadable(responses.value.services)
    || Unreadable(responses.value.products)
    || Unreadable(responses.value.testimonials)
  }

  /** What the page shows after loading: the three collections and the error banner text. */
  datatype LoadedCatalog = LoadedCatalog(
    services: seq<Service>,
    products: seq<Product>,
    testimonials: seq<Testimonial>,
    error: Option<string>)

  /** The data a load falls back on, collection by collection. */
  datatype Fallback = Fallback(services: seq<Service>, products: seq<Product>, testimonials: seq<Testimonial>)

  /** The built-in data the main component defines. */
  const BuiltIn := Fallback(MockServices, MockProducts, MockTestimonials)

  predicate NonEmpty(f: Fallback) {
    f.services != [] && f.products != [] && f.testimonials != []
  }

  lemma BuiltInIsNonEmpty()
    ensures NonEmpty(BuiltIn)
  {
    assert |MockServices| == 6 && |MockProducts| == 1 && |MockTestimonials| == 1;
  }

  /**
   * The outcome of `fetchData`: a throw anywhere gives the fallback data
   * and the error text; otherwise each collection independently is the
   * server's, normalised, or its fallback, and there is no error. With a
   * non-empty fallback no collection is left empty.
   */
  function CatalogAfterLoad(responses: Option<CatalogResponses>, fallback: Fallback): (c: LoadedCatalog)
    ensures NonEmpty(fallback) ==> c.services != [] && c.products != [] && c.testimonials != []
    ensures c.error.Some? <==> LoadThrows(responses)
    ensures LoadThrows(responses) ==>
              c == LoadedCatalog(fallback.services, fallback.products, fallback.testimonials, Some(LoadFailed))
    ensures !LoadThrows(responses) ==>
              var rs := responses.value;
              && c.services == (if Adopted(rs.services) then NormalizeServices(rs.services.body.items) else fallback.services)
              && c.products == (if Adopted(rs.products) then NormalizeProducts(rs.products.body.items) else fallback.products)
              && c.testimonials ==
                   (if Adopted(rs.testimonials) then NormalizeTestimonials(rs.testimonials.body.items)
                    else fallback.testimonials)
  {
    if LoadThrows(responses) then
      LoadedCatalog(fallback.services, fallback.products, fallback.testimonials, Some(LoadFailed))
    else
      var rs := responses.value;
      LoadedCatalog(
        if Adopted(rs.services) then NormalizeServices(rs.services.body.items) else fallback.services,
        if Adopted(rs.products) then NormalizeProducts(rs.products.body.items) else fallback.products,
        if Adopted(rs.testimonials) then NormalizeTestimonials(rs.testimonials.body.items) else fallback.testimonials,
        None)
  }

  /** With the built-in data as fallback, every load leaves all three collections non-empty. */
  lemma BuiltInLoadLeavesNoCollectionEmpty(responses: Option<CatalogResponses>)
    ensures var c := CatalogAfterLoad(responses, BuiltIn);
            c.services != [] && c.products != [] && c.testimonials != []
  {
    BuiltInIsNonEmpty();
  }

  /** After a load the main area is never stuck on the spinner or the demo-mode notice: it shows the current page. */
  lemma LoadedCatalogShowsCurrentPage(responses: Option<CatalogResponses>, fallback: Fallback, s: AppState)
    requires NonEmpty(fallback)
    ensures var c := CatalogAfterLoad(responses, fallback);
            PageOf(RenderPage(false, c.error, c.services, c.products, s)) == Some(s.currentPage)
  {
    var c := CatalogAfterLoad(responses, fallback);
    assert c.services != [];
  }

  /**
   * When nothing throws, each collection depends on its own answer only:
   * a failed or empty products answer does not take the server's services
   * away, and so on.
   */
  lemma CollectionsLoadIndependently(a: CatalogResponses, b: CatalogResponses, fallback: Fallback)
    requires !LoadThrows(Some(a)) && !LoadThrows(Some(b))
    ensures a.services == b.services ==>
              CatalogAfterLoad(Some(a), fallback).services == CatalogAfterLoad(Some(b), fallback).services
    ensures a.products == b.products ==>
              CatalogAfterLoad(Some(a), fallback).products == CatalogAfterLoad(Some(b), fallback).products
    ensures a.testimonials == b.testimonials ==>
              CatalogAfterLoad(Some(a), fallback).testimonials == CatalogAfterLoad(Some(b), fallback).testimonials
  {
  }

  /**
   * One of the three blocks of `fetchData`: a non-ok answer gives the
   * fallback without reading the body; an ok answer is read, which throws
   * on a malformed body, and a non-empty array is normalised.
   */
  method ReadCollection<R, T>(r: Response<R>, normalize: seq<R> -> seq<T>, fallback: seq<T>)
    returns (value: seq<T>, threw: bool)
    ensures threw <==> Unreadable(r)
    ensures !threw ==> value == if Adopted(r) then normalize(r.body.items) else fallback
  {
    value, threw := fallback, false;
    if r.ok {
      match r.body
      case Malformed => threw := true;
      case NoItems =>
      case Items(items) =>
        if |items| > 0 {
          value := normalize(items);
        }
    }
  }

  // ~~~ The main component ~~~

  class Application {
    var appState: AppState
    var isMenuOpen: bool
    /** Whether a chat session was created (`chat` is not null). */
    var chatReady: bool
    var messages: seq<ChatMessage>
    var isAiTyping: bool
    var services: seq<Service>
    var products: seq<Product>
    var testimonials: seq<Testimonial>
    var isLoading: bool
    var error: Option<string>
    /** The built-in services, products and testimonials the component defines. */
    const fallback: Fallback

    ghost predicate Valid() {
      NonEmpty(fallback)
    }

    /** What `renderPage` shows for the current state. */
    function RenderedView(): View
      reads this
    {
      RenderPage(isLoading, error, services, products, appState)
    }

    /** The initial state: home page, greeting in the chat, loading under way. */
    constructor ()
      ensures appState == InitialState && !isMenuOpen
      ensures !chatReady && messages == [Greeting] && !isAiTyping
      ensures services == [] && products == [] && testimonials == []
      ensures isLoading && error == None
      ensures RenderedView() == LoadingScreen
      ensures fallback == BuiltIn && Valid()
    {
      BuiltInIsNonEmpty();
      fallback := BuiltIn;
      appState := InitialState;
      isMenuOpen := false;
      chatReady := false;
      messages := [Greeting];
      isAiTyping := false;
      services := [];
      products := [];
      testimonials := [];
      isLoading := true;
      error := None;
    }

    /**
     * `navigateTo`: the navigation state takes the update of
     * `NextAppState` and the mobile menu closes; nothing else changes.
     */
    method NavigateTo(page: Page, detailItem: Option<string>)
      modifies this`appState, this`isMenuOpen
      ensures appState == NextAppState(old(appState), page, detailItem) && !isMenuOpen
      ensures KeysPlaced(old(appState)) ==> KeysPlaced(appState)
    {
      appState := NextAppState(appState, page, detailItem);
      isMenuOpen := false;
    }

    /**
     * `fetchData`: the three answers are read in order; a throw at any
     * point lands in the catch block, which installs the built-in data and
     * the error text; loading always ends, and afterwards the current page
     * is shown.
     */
    method FetchData(responses: Option<CatalogResponses>)
      requires Valid()
      modifies this`services, this`products, this`testimonials, this`isLoading, this`error
      ensures var c := CatalogAfterLoad(responses, fallback);
              services == c.services && products == c.products && testimonials == c.testimonials && error == c.error
      ensures !isLoading
      ensures PageOf(RenderedView()) == Some(appState.currentPage)
    {
      isLoading := true;
      error := None;
      var threw := responses.None?;
      if !threw {
        var rs := responses.value;
        var loaded;
        loaded, threw := ReadCollection(rs.services, NormalizeServices, fallback.services);
        if !threw {
          services := loaded;
        }
        if !threw {
          var loaded;
          loaded, threw := ReadCollection(rs.products, NormalizeProducts, fallback.products);
          if !threw {
            products := loaded;
          }
        }
        if !threw {
          var loaded;
          loaded, threw := ReadCollection(rs.testimonials, NormalizeTestimonials, fallback.testimonials);
          if !threw {
            testimonials := loaded;
          }
        }
      }
      if threw {
        error := Some(LoadFailed);
        services := fallback.services;
        products := fallback.products;
        testimonials := fallback.testimonials;
      }
      isLoading := false;
      LoadedCatalogShowsCurrentPage(responses, fallback, appState);
    }

    /**
     * The chat set-up effect: a created session makes the chat usable; a
     * failure leaves it unusable and appends the unavailability notice,
     * flagged as an error, under the id `now`.
     */
    method InitChat(created: bool, now: int)
      modifies this`chatReady, this`messages
      ensures chatReady == (old(chatReady) || created)
      ensures messages == if created then old(messages) else old(messages) + [ChatMessage(now, Unavailable, Ai, true)]
    {
      if created {
        chatReady := true;
      } else {
        messages := messages + [ChatMessage(now, Unavailable, Ai, true)];
      }
    }

    /**
     * `handleSendMessage`: ignored without a session or while a reply is
     * being typed; otherwise the user's message and an empty placeholder
     * are appended, the placeholder is rewritten with the text so far after
     * each chunk, an error replaces it with the apology, and typing ends.
     */
    method HandleSendMessage(text: string, userId: int, aiId: int, stream: Stream)
      modifies this`messages, this`isAiTyping
      ensures !old(chatReady) || old(isAiTyping) ==> messages == old(messages) && isAiTyping == old(isAiTyping)
      ensures old(chatReady) && !old(isAiTyping) ==>
                messages == AfterExchange(old(messages), text, userId, aiId, stream) && !isAiTyping
    {
      if !chatReady || isAiTyping {
        return;
      }
      messages := Started(messages, text, userId, aiId);
      isAiTyping := true;
      ghost var started := messages;
      var responseText := "";
      var k := 0;
      while k < |stream.chunks|
        invariant 0 <= k <= |stream.chunks|
        invariant isAiTyping
        invariant responseText == ReplyText(stream.chunks[..k])
        invariant messages == Streamed(started, aiId, stream.chunks[..k])
      {
        assert stream.chunks[..k + 1][..k] == stream.chunks[..k];
        responseText := responseText + ChunkText(stream.chunks[k]);
        if k > 0 {
          WithTextOverwrites(started, aiId, ReplyText(stream.chunks[..k]), responseText);
        }
        messages := WithText(messages, aiId, responseText);
        k := k + 1;
      }
      assert stream.chunks[..k] == stream.chunks;
      if stream.failed {
        messages := WithApology(messages, aiId);
      }
      isAiTyping := false;
    }
  }
}
