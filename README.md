# Boyal Integrated Service site: a Dafny model of its client state and booking endpoints

This project models the logic at the core of the Boyal Integrated Service web
site. The site is a single-page React application (`App.tsx`) with a small
Express backend. The model covers:

- **Navigation.** The nine pages, the navigation state with its
  detail-item keys, the update `navigateTo` applies, the selection made by
  the service and product detail pages, and the choice `renderPage` makes
  between the spinner, the demo-mode notice and the current page.
- **The testimonial carousel.** The index updaters behind the arrows, the
  dots and the five-second autoplay timer.
- **The services filter** of the services page.
- **The booking and contact forms.** Field edits, the validity test that
  enables the submit button, the trimmed request body, and how the
  server's answer becomes a success or error banner. That answer also
  decides whether the draft is cleared or kept.
- **Catalogue loading.** The per-field defaults that turn backend rows into
  services, products and testimonials, and the per-collection fallback to
  the built-in data. A failure anywhere falls back to the built-in data
  with an error text.
- **The support chat.** The message log, one exchange with the streamed
  assistant reply, the failure paths, and the widget's send guard.
- **The booking endpoints** of the backend: `createBooking`, `getBookings`
  and `updateBookingStatus`, over an in-memory bookings table.

The answers of the network, of the chat service and of the database come
in as method parameters, so every operation is deterministic.

Files and modules:

| file | module | contents |
|---|---|---|
| `js_text.dfy` | `Js` | JavaScript falsiness, `trim`, the `\s` strip, number printing, `parseInt` |
| `catalog.dfy` | `Catalog` | services, products, testimonials, their normalisation, the fallback data, the category filter |
| `navigation.dfy` | `Navigation` | pages, `navigateTo`, detail-page selection, `renderPage` |
| `carousel.dfy` | `Carousel` | the testimonial carousel |
| `forms.dfy` | `Forms` | the booking and contact forms |
| `chat.dfy` | `Chat` | the chat log, streamed replies, the chat widget |
| `app.dfy` | `App` | the main component: its state, `fetchData`, the chat set-up, `handleSendMessage`, `navigateTo` |
| `booking_controller.dfy` | `BookingController` | the booking endpoints and the bookings table |

Three behaviours of the code are easy to miss:

- Navigating to the booking page keeps both detail keys. The page is not
  in the main-page list, so the service a visitor came from stays set, and
  a key is not only ever set on its own detail page.
  `Navigation.BookingKeepsServiceKey` exhibits the case, and
  `Navigation.ReplayKeepsKeysPlaced` proves the invariant the code does keep.
- A status change also sets the booking's `updatedAt` to the current time,
  as the SQL statement of the model layer does. Every other field and
  every other booking is left alone.
- The icon lookup `serviceIcons[name] || Music` runs on a plain object, so
  a name that every object inherits, such as `constructor` or `toString`,
  finds a member of `Object.prototype` instead of falling back to Music.
  Such a name can come from the backend's `iconName` or from a title like
  "to String" once its whitespace is removed. `Catalog.IconFor` models this
  with the `Inherited` icon value, and `Catalog.InheritedIconName` states it.

## Model

| member | source | states |
|---|---|---|
| `Js.Trim` | App.tsx:2138-2143 | neither end of the trimmed text is whitespace, and it is empty exactly when the input is all whitespace |
| `Js.TrimCutsBlankEnds` | App.tsx:2072-2081 | the trimmed text is a slice of the input with only whitespace before and after it: the ends are cut off and everything between them is kept |
| `Js.TrimOfIsUnique` | App.tsx:2072-2081 | a string has only one such trimmed form, so the two facts above determine `trim` completely |
| `Js.StripWhitespace` | App.tsx:2810 | no whitespace is left; every other character is kept, as often as it occurs and in its order; the result is empty exactly when the input is blank |
| `Js.Decimal` | App.tsx:2124 | a number prints as a non-empty run of digits with no leading zero unless the number is 0 |
| `Js.DecimalRoundTrip` | App.tsx:2124 | `parseInt` reads back the number a template literal printed |
| `Js.ParseInt` | server/controllers/bookingController.ts:72 | `parseInt` yields a number only when its argument contains a (hexadecimal) digit |
| `Js.ParseIntNaNAndSign` | server/controllers/bookingController.ts:72 | a blank argument, or one whose first non-blank character is neither a sign nor a decimal digit, reads as NaN; only a leading minus sign gives a negative number |
| `Js.ParseIntReadsNegativeNumber` | server/controllers/bookingController.ts:72 | a minus sign before a number makes `parseInt` read its negation, whatever non-digits follow (only an `x` or `X` after a lone `0` is excluded, since it opens a hexadecimal prefix) |
| `Js.ParseIntReadsHexNumeral` | server/controllers/bookingController.ts:72 | a `0x` prefix makes `parseInt` read the hexadecimal digits after it, up to the first character that is not one |
| `Js.ParseIntReadsLeadingNumber` | server/controllers/bookingController.ts:72 | `parseInt` skips leading whitespace and ignores whatever non-digits follow the digits (`" 12"`, `"12abc"`, `"12.5"` and `"12x"` all read 12); only an `x` or `X` after a lone `0` is excluded, since it opens a hexadecimal prefix |
| `Catalog.IconFor` | App.tsx:2819 | a registered name gives its icon; a name every object inherits gives that inherited member, which is no icon; any other name gives Music |
| `Catalog.IconForKey` | App.tsx:116-123 | every registered icon is found again under its own key |
| `Catalog.InheritedIconName` | App.tsx:2810-2819 | an icon name such as `constructor` or `toString` gives a service whose icon is the inherited member, not Music |
| `Catalog.NormalizeService` | App.tsx:2808-2820 | the id is copied; each field is the one the backend sent when truthy, else the next field of its chain (long description from the description, highlight image from the image), else its default; every displayed text is non-empty; the icon is the lookup of the icon name |
| `Catalog.IconNameFromTitle` | App.tsx:2810 | without an icon name, the name is the title with its whitespace removed; a missing or blank title gives the Music icon; the icon name never contains whitespace |
| `Catalog.NormalizeServices` | App.tsx:2807-2821 | one service per backend row, in order, each normalised |
| `Catalog.NormalizeProduct` | App.tsx:2836-2848 | the id and name are copied; category, brand, image and description are the sent value when truthy, else their default; the long description falls back to the description and then to its default; specs are kept when present; all displayed texts are non-empty |
| `Catalog.NormalizeProducts` | App.tsx:2836-2848 | one product per backend row, in order, each normalised |
| `Catalog.NormalizeTestimonial` | App.tsx:2863-2869 | the id is never 0 (a missing or zero id becomes the 1-based position); quote, author, event and avatar are the own column when truthy, else the alternative column (content, customer name, company, image URL), else the default, with the generated avatar keyed by the author or else the position |
| `Catalog.NormalizeTestimonials` | App.tsx:2863-2869 | one testimonial per backend row, each normalised with its own position |
| `Catalog.MockServiceIcons` | App.tsx:2684-2757 | each built-in service carries the icon registered under its own icon name |
| `Catalog.FilterChoicesCoverMockServices` | App.tsx:512-513 | every built-in service's category has a filter button, and each button shows at least one built-in service |
| `Catalog.FilterServices` | App.tsx:516 | "All" keeps the list unchanged; otherwise exactly the services of the chosen category are kept, in their order and with their multiplicities |
| `Navigation.NextAppState` | App.tsx:2945-2962 | the page always changes; the service detail page sets the service key and keeps the product key; the product detail page does the reverse; a main page clears both keys; the booking page keeps both |
| `Navigation.ReplayKeepsKeysPlaced` | App.tsx:2945-2962 | from a consistent state, no sequence of navigations leaves a key set on a page other than a detail page or the booking page |
| `Navigation.ReplayEndingOnMainPage` | App.tsx:2946-2961 | whatever came before, a navigation that ends on a main page leaves both keys cleared |
| `Navigation.BookingKeepsServiceKey` | App.tsx:2946-2957 | a service detail page followed by the booking page keeps the service key |
| `Navigation.ServiceDetailView` | App.tsx:1543-1577 | a dedicated page exactly when the key is one of the six titles, spelled exactly; anything else, including a missing key, gives the not-found view that leads back to the services list |
| `Navigation.MockServicesHaveDedicatedPages` | App.tsx:1543-1555 | every built-in service title leads to a dedicated page |
| `Navigation.FindProduct` | App.tsx:1626 | the position of the first product with that name; none exactly when no product has it; a missing name never matches |
| `Navigation.ProductDetailView` | App.tsx:1626-1641 | the product is found exactly when some product has the requested name, and it is the first product with that name; otherwise the not-found view leads back to the products list |
| `Navigation.RenderPage` | App.tsx:2969-3015 | the spinner exactly while loading; the demo-mode notice exactly when loading failed and left no services; otherwise the view of the current page, with the detail views tied to their lookups |
| `Carousel.NextIndex` | App.tsx:285-295 | from a slide in range the next slide stays in range and is the successor modulo the number of slides, so the last wraps to the first |
| `Carousel.PrevIndex` | App.tsx:299 | from a slide in range the previous slide stays in range and is the predecessor modulo the number of slides, so the first wraps to the last |
| `Carousel.PrevUndoesNext` | App.tsx:294-300 | the two arrows undo each other |
| `Carousel.AdvanceIsModular` | App.tsx:282-288 | after k autoplay ticks the carousel has moved k places round the circle |
| `Carousel.FullRound` | App.tsx:282-288 | one full round of ticks brings back the starting slide |
| `Carousel.Slideshow.constructor` | App.tsx:280 | the carousel starts at the first slide |
| `Carousel.Slideshow.NextSlide` | App.tsx:294-296 | the right arrow applies the next-slide update and keeps the index in range |
| `Carousel.Slideshow.PrevSlide` | App.tsx:298-300 | the left arrow applies the previous-slide update and keeps the index in range |
| `Carousel.Slideshow.AutoplayTick` | App.tsx:284-286 | a timer tick applies the next-slide update and keeps the index in range |
| `Carousel.Slideshow.GoToSlide` | App.tsx:290-292 | a dot shows its own slide |
| `Forms.SubmitBanner` | App.tsx:2096-2131 | a success banner exactly for a 2xx answer whose body parses; otherwise: the transport error's text, "Invalid response from server" for an unparsable body, the fixed server-error text for 500, and for other statuses the body's `error`, else its `message`, else a text naming the status |
| `Forms.StatusInFallbackText` | App.tsx:2124 | when the body names neither error nor message, the status can be read back from the banner |
| `Forms.SubmitOutcome` | App.tsx:2105-2131 | on success the draft is cleared; on every failure it is kept exactly as submitted |
| `Forms.SetBookingField` | App.tsx:2056-2062 | the edited field takes the new value; every other field keeps its value |
| `Forms.IsBookingFormValid` | App.tsx:2138-2143 | valid exactly when name, e-mail, subject and details contain something other than whitespace and an event type and a service are chosen |
| `Forms.BookingRequestOf` | App.tsx:2072-2081 | name, e-mail, phone, subject and details are their inputs with the whitespace ends cut off; event type, service and date are sent as chosen; for a valid draft the required fields of the body are non-empty |
| `Forms.BookingForm.constructor` | App.tsx:2042-2054 | the booking form starts empty, idle, with no banner |
| `Forms.BookingForm.Change` | App.tsx:2056-2062 | an edit changes only that field of the draft |
| `Forms.BookingForm.BeginSubmit` | App.tsx:2064-2081 | a request goes out exactly when the browser accepts the e-mail address, none is in flight and the form is valid; it carries the trimmed draft, clears the banner and disables the button |
| `Forms.BookingForm.FinishSubmit` | App.tsx:2096-2135 | the banner is set from the answer, the draft is cleared only on success, and the button is enabled again |
| `Forms.DoubleSubmitSendsOnce` | App.tsx:2319 | of two presses before the answer arrives, the first sends exactly when the browser accepts the address, and the second sends nothing after a first that did |
| `Forms.SetContactField` | App.tsx:2372-2378 | the edited field takes the new value; the other two keep theirs |
| `Forms.IsContactFormValid` | App.tsx:2444 | valid exactly when name, e-mail and message contain something other than whitespace |
| `Forms.ContactRequestOf` | App.tsx:2388-2392 | name, e-mail and message are their inputs with the whitespace ends cut off, and all are non-empty exactly when the draft is valid |
| `Forms.ContactForm.constructor` | App.tsx:2363-2370 | the contact form starts empty, idle, with no banner |
| `Forms.ContactForm.Change` | App.tsx:2372-2378 | an edit changes only that field of the draft |
| `Forms.ContactForm.BeginSubmit` | App.tsx:2380-2392 | a request goes out exactly when the browser accepts the e-mail address, none is in flight and the form is valid, carrying the trimmed draft |
| `Forms.ContactForm.FinishSubmit` | App.tsx:2407-2441 | the banner uses the contact page's texts; the draft is cleared only on success; the button is enabled again |
| `Chat.WithText` | App.tsx:2929-2931 | only the message with that id takes the text; every other message and the log length are unchanged |
| `Chat.WithApology` | App.tsx:2935-2939 | only the message with that id becomes the apology, flagged as an error |
| `Chat.WithTextOverwrites` | App.tsx:2926-2932 | each rewrite of the placeholder replaces the previous one |
| `Chat.WithTextAbsent` | App.tsx:2929-2939 | a rewrite aimed at an id not in the log changes nothing |
| `Chat.ChunkTextAsWritten` | App.tsx:2928 | as written, a chunk contributes what the intended reading gives exactly when it carries text |
| `Chat.ReplyTextAsWritten` | App.tsx:2926-2932 | as written, the reply is nine characters longer than the intended one for each chunk without text, and equals it exactly when every chunk carries text |
| `Chat.Started` | App.tsx:2916-2920 | an exchange starts by appending the user's message and then an empty assistant placeholder, keeping the whole earlier log |
| `Chat.Streamed` | App.tsx:2926-2932 | after one or more chunks the placeholder holds the reply so far and every message with another id is untouched; the length is kept |
| `Chat.AfterExchange` | App.tsx:2913-2942 | an exchange adds two messages, keeps every earlier message that does not share the placeholder's id, and leaves the placeholder with the whole reply or, after a failure, the apology flagged as an error |
| `Chat.MissingChunkTextShowsUndefined` | App.tsx:2928 | as written, a chunk without text puts the word "undefined" into the reply |
| `Chat.ReplyTextIsCarriedText` | App.tsx:2926-2932 | the reply accumulated chunk by chunk is the chunks' texts joined in arrival order |
| `Chat.CorrectionAgreesOnTextChunks` | App.tsx:2928 | when every chunk carries text, the corrected reply equals the reply as written |
| `Chat.StreamedTouchesOnlyPlaceholder` | App.tsx:2916-2932 | with fresh ids, after any number of chunks the log is the old log, the user's message, and the placeholder holding the text so far |
| `Chat.ExchangeAppendsTwo` | App.tsx:2913-2943 | with fresh ids an exchange adds exactly two messages and keeps all earlier ones; the placeholder ends with the whole reply, or with the apology flagged as an error |
| `Chat.MessageToSend` | App.tsx:2591-2597 | a message is sent exactly when the input is not blank and no reply is being typed, and it is the trimmed input |
| `Chat.LiveChatWidget.constructor` | App.tsx:2583-2584 | the widget starts closed with an empty input |
| `Chat.LiveChatWidget.HandleFormSubmit` | App.tsx:2591-2597 | the input is cleared exactly when something is sent |
| `Chat.LiveChatWidget.SetOpen` | App.tsx:2660 | opening or closing the widget changes only whether it is open |
| `App.CatalogAfterLoad` | App.tsx:2788-2887 | the error text is set exactly when the load threw, and then all three collections are the fallback ones; otherwise each collection is the server's, normalised, or its fallback; with a non-empty fallback no collection ends empty |
| `App.BuiltInLoadLeavesNoCollectionEmpty` | App.tsx:2684-2785 | with the built-in data as fallback, every load leaves services, products and testimonials non-empty |
| `App.ReadCollection` | App.tsx:2802-2828 | a non-ok answer gives the fallback without reading the body; an unreadable ok body throws; a non-empty array is normalised; anything else gives the fallback |
| `App.LoadedCatalogShowsCurrentPage` | App.tsx:2982-3003 | after a load with a non-empty fallback the main area shows the current page, never the spinner or the demo-mode notice |
| `App.CollectionsLoadIndependently` | App.tsx:2801-2876 | when nothing throws, each collection depends on its own answer only |
| `App.Application.constructor` | App.tsx:2668-2681 | the application starts on the home page with both keys cleared, the greeting in the chat, no session, empty collections, loading under way, and the built-in data as its fallback |
| `App.Application.NavigateTo` | App.tsx:2945-2967 | the navigation state takes the `navigateTo` update, the menu closes, and nothing else changes |
| `App.Application.FetchData` | App.tsx:2788-2887 | the collections and the error text become those of the load outcome with the component's fallback data, loading ends, and the current page is shown |
| `App.Application.InitChat` | App.tsx:2892-2911 | a created session makes the chat usable; a failure appends the unavailability notice flagged as an error |
| `App.Application.HandleSendMessage` | App.tsx:2913-2943 | nothing happens without a session or while a reply is being typed; otherwise the log becomes that of the exchange, rewritten chunk by chunk (a loop invariant), and typing ends |
| `BookingController.ParseStatus` | server/controllers/bookingController.ts:65-70 | exactly "pending", "confirmed" and "cancelled" are accepted, each as the state it names |
| `BookingController.StatusNameRoundTrip` | server/controllers/bookingController.ts:65 | every state's name passes the whitelist as that state |
| `BookingController.CompletedIsRejected` | server/controllers/bookingController.ts:65-70 | "completed" is not an accepted status |
| `BookingController.RequiredFieldsPresent` | server/controllers/bookingController.ts:10 | the request is complete exactly when customer name, e-mail, phone, service type and booking date are all present and non-empty |
| `BookingController.NewBooking` | server/controllers/bookingController.ts:17-25 | the stored row has the request's fields and the new id; its status is pending whatever the request says; a falsy message is stored as null |
| `BookingController.IdsBelow` | server/models/Booking.ts:25-30 | every stored id below the bound appears, each once, newest first |
| `BookingController.Listing` | server/models/Booking.ts:25-30 | the listing holds every stored booking exactly once, newest first, and nothing else |
| `BookingController.RowsOfCoveringIds` | server/models/Booking.ts:25-30 | rows looked up under distinct, descending ids that cover exactly the stored keys are the stored bookings, each once, newest first |
| `BookingController.Controller.CreateBooking` | server/controllers/bookingController.ts:6-39 | a missing field answers 400 and stores nothing; a failing insert answers 500 and stores nothing; otherwise exactly one pending booking is added under a new id, and the 201 answer carries that id |
| `BookingController.Controller.GetBookings` | server/controllers/bookingController.ts:42-57 | the answer carries the full listing, or is 500 when the query fails |
| `BookingController.Controller.UpdateBookingStatus` | server/controllers/bookingController.ts:60-92 | a status outside the whitelist answers 400; an id naming no booking answers 404; a failing store answers 500; all three leave the table unchanged; otherwise only that booking's status and update time change |
| `BookingController.StatusChangeIsLocal` | server/models/Booking.ts:43-49 | a status change keeps the set of bookings and every other booking; the changed one keeps its id, customer, e-mail, phone, service, date, message and creation time, and takes the new status and update time |

## Left out

- `Forms.BookingForm.BeginSubmit`, `Forms.ContactForm.BeginSubmit`, `Forms.DoubleSubmitSendsOnce`: the browser's check of the `type="email"` inputs (App.tsx:2191, App.tsx:2494) is a boolean parameter, its verdict; the syntax of an acceptable address is not modelled. A rejected address stops the press before the handler runs, so nothing is sent and no state changes.

- Rendering: the JSX markup, styling, icons as components (including what happens when an inherited member of `Object.prototype` is rendered as an icon), scrolling (`window.scrollTo`, `scrollIntoView`) and the page components that only display data.
- The menu toggle: the model keeps the menu flag only because `navigateTo` closes the menu.
- `fetch` and `Promise.all`: the model does not capture concurrency or timing. Their results are a parameter: no answer at all (a transport failure), or for each collection an ok flag and a body.
- JSON bodies of other shapes: a non-array, non-empty string body (on which `.map` would throw) and null elements inside a row array are not modelled. Row fields are strings or absent, and numbers where the page treats them as numbers.
- A form reply body that parses to `null` or to a non-object: only object bodies with optional `message` and `error` strings are modelled.
- The error banner for a thrown value that is not an `Error` object cannot arise from the code paths modelled, so it is left out.
- The Google Gemini SDK: creating a session is a boolean parameter. A reply is a sequence of chunks plus whether it ended with an error. The system instruction and the model name are not modelled.
- `Date.now()`: the message ids are parameters. `Chat.ExchangeAppendsTwo` assumes they are fresh; two sends within one millisecond could reuse an id.
- The greeting, the user's message and the assistant placeholder have no `error` field in the code; the model stores `false` for each, which the widget treats the same way.
- The autoplay timer's set-up and clean-up: only its tick is modelled.
- The database: the bookings table is a map from id to row. Ids are handed out in increasing order from 1. A failing statement is a boolean parameter.
- `createdAt DESC` ordering: it is modelled as descending id order. Ties between rows created in the same second are not distinguished.
- Auto-increment gaps: an insert that fails does not consume an id in the model.
- Booking dates: `new Date(bookingDate)` is not modelled; the date is stored as the string the request carried. An unparsable date reaches the database as an invalid date, which the model covers only as a failing store.
- `BookingController.Controller.UpdateBookingStatus`: an id that `parseInt` cannot read (NaN) is modelled as naming no booking (404). What the database driver does with NaN is not part of this model. `affectedRows` is taken to count matched rows.
- The other model files, the routes, the server entry points and the deployment files are not part of this model. The repository declares no `Booking` type; the fields follow the model layer's SQL.
- `Js.Trim`, `Js.StripWhitespace`: whitespace is the ECMAScript WhiteSpace and LineTerminator set as single UTF-16 units. No Unicode normalisation is involved.

## Findings

| source | as written | input that shows it | evidently intended | confidence | as-written member | corrected member |
|---|---|---|---|---|---|---|
| App.tsx:2928 | `responseText += chunk.text` appends the text of every chunk; a chunk whose `text` is undefined appends the string "undefined" | the chunks `"Hello"` and then a chunk without text give the reply `"Helloundefined"` | a chunk without text contributes nothing, so the reply is the text the chunks carry | medium: depends on the chat service sending a chunk without text; not executed | `Chat.MissingChunkTextShowsUndefined` | `Chat.ReplyTextIsCarriedText` |

The rest of the model uses the corrected reading: `App.Application.HandleSendMessage` accumulates `Chat.ChunkText`, which treats a missing text as empty. `Chat.CorrectionAgreesOnTextChunks` shows that this agrees with the code whenever every chunk carries text.
