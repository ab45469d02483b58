/**
 * The content catalog of the site: services, products and testimonials as
 * the pages use them, the raw records the backend answers with, the
 * per-field defaults that turn one into the other, the built-in fallback
 * data, and the category filter of the services page.
 */
module Catalog {
  import opened Js

  /** The icons that `serviceIcons` maps names to. */
  datatype Icon = Music | MonitorSpeaker | Mic | Headphones | Cable | PartyPopper

  /** The key under which each icon is registered in `serviceIcons`. */
  function IconKey(i: Icon): string {
    match i
    case Music => "Music"
    case MonitorSpeaker => "MonitorSpeaker"
    case Mic => "Mic"
    case Headphones => "Headphones"
    case Cable => "Cable"
    case PartyPopper => "PartyPopper"
  }

  /**
   * The names every plain object inherits from `Object.prototype`. Looking
   * one of them up in `serviceIcons` finds a member of the prototype (a
   * function or, for `__proto__`, the prototype itself), which is truthy.
   */
  const InheritedKeys: set<string> := {
    "constructor", "hasOwnProperty", "isPrototypeOf", "propertyIsEnumerable",
    "toString", "toLocaleString", "valueOf", "__proto__",
    "__defineGetter__", "__defineSetter__", "__lookupGetter__", "__lookupSetter__"}

  /** What `serviceIcons[name] || Music` yields: a registered icon, or an inherited member that is no icon. */
  datatype IconValue = Registered(icon: Icon) | Inherited(key: string)

  /**
   * `serviceIcons[name] || Music`: the icon registered under the name; an
   * inherited member for a name of `Object.prototype`; Music otherwise.
   */
  function IconFor(name: string): (v: IconValue)
    ensures (exists i :: IconKey(i) == name) ==> v.Registered? && IconKey(v.icon) == name
    ensures name in InheritedKeys ==> v == Inherited(name)
    ensures (forall i :: IconKey(i) != name) && name !in InheritedKeys ==> v == Registered(Music)
  {
    if name == "Music" then Registered(Music)
    else if name == "MonitorSpeaker" then Registered(MonitorSpeaker)
    else if name == "Mic" then Registered(Mic)
    else if name == "Headphones" then Registered(Headphones)
    else if name == "Cable" then Registered(Cable)
    else if name == "PartyPopper" then Registered(PartyPopper)
    else if name in InheritedKeys then Inherited(name)
    else Registered(Music)
  }

  /** Every registered icon is found again under its own key. */
  lemma IconForKey(i: Icon)
    ensures IconFor(IconKey(i)) == Registered(i)
  {
  }

  // ~~~ Services ~~~

  datatype Service = Service(
    id: Option<int>,
    iconName: string,
    icon: IconValue,
    title: string,
    description: string,
    longDescription: string,
    features: seq<string>,
    image: string,
    highlightImage: string,
    category: string)

  /** A service row as the backend sends it: any field may be missing. */
  datatype RawService = RawService(
    id: Option<int>,
    iconName: Option<string>,
    title: Option<string>,
    description: Option<string>,
    longDescription: Option<string>,
    features: Option<seq<string>>,
    image: Option<string>,
    highlightImage: Option<string>,
    category: Option<string>)

  const DefaultServiceImage := "/images/services/default.jpg"
  const DefaultFeatures := ["Professional Service", "Quality Guaranteed"]

  /**
   * The element-wise mapping of a backend service. Each field is the one
   * the backend sent when that is truthy, else the next field in its `||`
   * chain, else a fixed non-empty default; the icon is the value found under
   * the icon name.
   */
  function NormalizeService(raw: RawService): (s: Service)
    ensures s.id == raw.id
    ensures s.iconName != "" && s.title != "" && s.description != "" && s.longDescription != ""
    ensures s.image != "" && s.highlightImage != "" && s.category != ""
    ensures Truthy(raw.iconName) ==> s.iconName == raw.iconName.value
    ensures s.icon == IconFor(s.iconName)
    ensures Truthy(raw.title) ==> s.title == raw.title.value
    ensures !Truthy(raw.title) ==> s.title == "Service"
    ensures Truthy(raw.description) ==> s.description == raw.description.value
    ensures !Truthy(raw.description) ==> s.description == "Professional service"
    ensures Truthy(raw.longDescription) ==> s.longDescription == raw.longDescription.value
    ensures !Truthy(raw.longDescription) && Truthy(raw.description) ==> s.longDescription == raw.description.value
    ensures !Truthy(raw.longDescription) && !Truthy(raw.description) ==>
              s.longDescription == "Detailed description coming soon."
    ensures raw.features.Some? ==> s.features == raw.features.value
    ensures raw.features.None? ==> s.features == DefaultFeatures
    ensures Truthy(raw.image) ==> s.image == raw.image.value
    ensures !Truthy(raw.image) ==> s.image == DefaultServiceImage
    ensures Truthy(raw.highlightImage) ==> s.highlightImage == raw.highlightImage.value
    ensures !Truthy(raw.highlightImage) ==> s.highlightImage == s.image
    ensures Truthy(raw.category) ==> s.category == raw.category.value
    ensures !Truthy(raw.category) ==> s.category == "Production"
  {
    var iconName :=
      if Truthy(raw.iconName) then raw.iconName.value
      else OrElse(if raw.title.Some? then Some(StripWhitespace(raw.title.value)) else None, "Music");
    Service(
      raw.id,
      iconName,
      IconFor(iconName),
      OrElse(raw.title, "Service"),
      OrElse(raw.description, "Professional service"),
      OrElse(raw.longDescription, OrElse(raw.description, "Detailed description coming soon.")),
      if raw.features.Some? then raw.features.value else DefaultFeatures,
      OrElse(raw.image, DefaultServiceImage),
      OrElse(raw.highlightImage, OrElse(raw.image, DefaultServiceImage)),
      OrElse(raw.category, "Production"))
  }

  /**
   * Without an icon name the icon is looked up under the title with its
   * whitespace removed, and a missing or blank title falls back to Music.
   */
  lemma IconNameFromTitle(raw: RawService)
    requires !Truthy(raw.iconName)
    ensures raw.title.Some? && !IsBlank(raw.title.value) ==>
              NormalizeService(raw).iconName == StripWhitespace(raw.title.value)
    ensures (raw.title.None? || IsBlank(raw.title.value)) ==> NormalizeService(raw).icon == Registered(Music)
    ensures forall i :: 0 <= i < |NormalizeService(raw).iconName| ==> !IsSpace(NormalizeService(raw).iconName[i])
  {
  }

  /**
   * An icon name that every object inherits (sent by the backend, or made
   * from a title such as "to String") gives a service whose icon is that
   * inherited member rather than a registered icon or the Music fallback.
   */
  lemma InheritedIconName(raw: RawService)
    requires Truthy(raw.iconName) && raw.iconName.value in InheritedKeys
    ensures NormalizeService(raw).icon == Inherited(raw.iconName.value)
    ensures NormalizeService(raw).icon.Inherited?
  {
  }

  function NormalizeServices(raws: seq<RawService>): (r: seq<Service>)
    ensures |r| == |raws| && forall i :: 0 <= i < |raws| ==> r[i] == NormalizeService(raws[i])
  {
    seq(|raws|, i requires 0 <= i < |raws| => NormalizeService(raws[i]))
  }

  // ~~~ Products ~~~

  datatype SpecEntry = SpecEntry(key: string, value: string)

  datatype Product = Product(
    id: Option<int>,
    name: Option<string>,
    category: string,
    brand: string,
    image: string,
    description: string,
    longDescription: string,
    specs: seq<SpecEntry>)

  datatype RawProduct = RawProduct(
    id: Option<int>,
    name: Option<string>,
    category: Option<string>,
    brand: Option<string>,
    image: Option<string>,
    description: Option<string>,
    longDescription: Option<string>,
    specs: Option<seq<SpecEntry>>)

  const DefaultSpecs := [SpecEntry("Type", "Professional"), SpecEntry("Quality", "Premium")]

  /**
   * The element-wise mapping of a backend product: id and name are copied
   * as they are (a missing name stays missing); every other field is the
   * one the backend sent when that is truthy, else the next field in its
   * `||` chain, else a fixed non-empty default.
   */
  function NormalizeProduct(raw: RawProduct): (p: Product)
    ensures p.id == raw.id && p.name == raw.name
    ensures p.category != "" && p.brand != "" && p.image != "" && p.description != "" && p.longDescription != ""
    ensures Truthy(raw.category) ==> p.category == raw.category.value
    ensures !Truthy(raw.category) ==> p.category == "Microphones"
    ensures Truthy(raw.brand) ==> p.brand == raw.brand.value
    ensures !Truthy(raw.brand) ==> p.brand == "Generic"
    ensures Truthy(raw.image) ==> p.image == raw.image.value
    ensures !Truthy(raw.image) ==> p.image == "/images/products/default.png"
    ensures Truthy(raw.description) ==> p.description == raw.description.value
    ensures !Truthy(raw.description) ==> p.description == "Professional equipment"
    ensures Truthy(raw.longDescription) ==> p.longDescription == raw.longDescription.value
    ensures !Truthy(raw.longDescription) && Truthy(raw.description) ==> p.longDescription == raw.description.value
    ensures !Truthy(raw.longDescription) && !Truthy(raw.description) ==>
              p.longDescription == "Detailed product description coming soon."
    ensures raw.specs.Some? ==> p.specs == raw.specs.value
    ensures raw.specs.None? ==> p.specs == DefaultSpecs
  {
    Product(
      raw.id,
      raw.name,
      OrElse(raw.category, "Microphones"),
      OrElse(raw.brand, "Generic"),
      OrElse(raw.image, "/images/products/default.png"),
      OrElse(raw.description, "Professional equipment"),
      OrElse(raw.longDescription, OrElse(raw.description, "Detailed product description coming soon.")),
      if raw.specs.Some? then raw.specs.value else DefaultSpecs)
  }

  function NormalizeProducts(raws: seq<RawProduct>): (r: seq<Product>)
    ensures |r| == |raws| && forall i :: 0 <= i < |raws| ==> r[i] == NormalizeProduct(raws[i])
  {
    seq(|raws|, i requires 0 <= i < |raws| => NormalizeProduct(raws[i]))
  }

  // ~~~ Testimonials ~~~

  datatype Testimonial = Testimonial(id: int, quote: string, author: string, event: string, avatar: string)

  /** A testimonial row; the backend may use its own column names for some fields. */
  datatype RawTestimonial = RawTestimonial(
    id: Option<int>,
    quote: Option<string>,
    content: Option<string>,
    author: Option<string>,
    customerName: Option<string>,
    event: Option<string>,
    company: Option<string>,
    avatar: Option<string>,
    imageUrl: Option<string>)

  const AvatarService := "https://i.pravatar.cc/150?u="

  /**
   * The element-wise mapping of the testimonial at position `index`: a
   * missing or zero id becomes the 1-based position; each text is the
   * backend's own column when truthy, else its alternative column, else a
   * fixed default; a missing picture is generated from the author (or the
   * position).
   */
  function NormalizeTestimonial(raw: RawTestimonial, index: nat): (t: Testimonial)
    ensures t.id != 0
    ensures raw.id.Some? && raw.id.value != 0 ==> t.id == raw.id.value
    ensures (raw.id.None? || raw.id.value == 0) ==> t.id == index + 1
    ensures t.quote != "" && t.author != "" && t.event != "" && t.avatar != ""
    ensures Truthy(raw.quote) ==> t.quote == raw.quote.value
    ensures !Truthy(raw.quote) && Truthy(raw.content) ==> t.quote == raw.content.value
    ensures !Truthy(raw.quote) && !Truthy(raw.content) ==> t.quote == "Great service!"
    ensures Truthy(raw.author) ==> t.author == raw.author.value
    ensures !Truthy(raw.author) && Truthy(raw.customerName) ==> t.author == raw.customerName.value
    ensures !Truthy(raw.author) && !Truthy(raw.customerName) ==> t.author == "Happy Client"
    ensures Truthy(raw.event) ==> t.event == raw.event.value
    ensures !Truthy(raw.event) && Truthy(raw.company) ==> t.event == raw.company.value
    ensures !Truthy(raw.event) && !Truthy(raw.company) ==> t.event == "Event"
    ensures Truthy(raw.avatar) ==> t.avatar == raw.avatar.value
    ensures !Truthy(raw.avatar) && Truthy(raw.imageUrl) ==> t.avatar == raw.imageUrl.value
    ensures !Truthy(raw.avatar) && !Truthy(raw.imageUrl) ==>
              t.avatar == AvatarService + (if Truthy(raw.author) then raw.author.value else Decimal(index))
  {
    Testimonial(
      OrElseInt(raw.id, index + 1),
      OrElse(raw.quote, OrElse(raw.content, "Great service!")),
      OrElse(raw.author, OrElse(raw.customerName, "Happy Client")),
      OrElse(raw.event, OrElse(raw.company, "Event")),
      OrElse(raw.avatar, OrElse(raw.imageUrl, AvatarService + OrElse(raw.author, Decimal(index)))))
  }

  function NormalizeTestimonials(raws: seq<RawTestimonial>): (r: seq<Testimonial>)
    ensures |r| == |raws| && forall i :: 0 <= i < |raws| ==> r[i] == NormalizeTestimonial(raws[i], i)
  {
    seq(|raws|, i requires 0 <= i < |raws| => NormalizeTestimonial(raws[i], i))
  }

  // ~~~ Built-in fallback data ~~~

  /** The six services shown when the backend cannot supply any. */
  const MockServices: seq<Service> := [
    Service(Some(1), "Music", Registered(Music), "Music Production",
      "Professional studio recording, mixing, and mastering services for artists and bands.",
      "Our state-of-the-art music production services provide everything you need to bring your musical vision to life. From initial recording sessions to final mastering, we work with artists, bands, and producers to create professional-quality audio. Our experienced engineers and producers use the latest digital audio workstations and analog equipment to ensure your music sounds its best across all platforms.",
      ["Multi-track Recording", "Mixing & Mastering", "Vocal Production", "Beat Making", "Audio Restoration", "Session Musicians"],
      "/images/services/Music.jpg", "/images/services/Music.jpg", "Production"),
    Service(Some(2), "MonitorSpeaker", Registered(MonitorSpeaker), "Concert Productions",
      "Complete concert and live event production including staging, lighting, and audio.",
      "Transform any venue into a world-class concert experience with our comprehensive production services. We handle every aspect of live event production, from stage design and rigging to advanced lighting systems and crystal-clear audio reinforcement. Our team works with artists, promoters, and venues to create unforgettable live experiences that engage audiences and showcase performers at their best.",
      ["Stage Design & Rigging", "Lighting Systems", "Video Walls", "PA Systems", "Backline Equipment", "Crew Management"],
      "/images/services/concert.jpeg", "/images/services/concert.jpeg", "Production"),
    Service(Some(3), "Mic", Registered(Mic), "Sound Reinforcement",
      "Professional audio systems for events, conferences, and live performances of any size.",
      "Ensure every word and note is heard with perfect clarity through our professional sound reinforcement services. We design and implement audio solutions tailored to your specific venue and event requirements. From intimate corporate meetings to large-scale outdoor festivals, our expert audio engineers use top-tier equipment to deliver pristine sound quality that enhances the audience experience.",
      ["PA System Design", "Wireless Microphones", "Monitor Systems", "Audio Delay Towers", "System Tuning", "Live Mixing"],
      "/images/services/Sound.jpg", "/images/services/Sound.jpg", "Live Sound"),
    Service(Some(4), "Headphones", Registered(Headphones), "Studio Recording",
      "Professional recording sessions in our acoustically treated studio environment.",
      "Capture your sound with the highest fidelity in our professionally designed recording studio. Featuring acoustically treated rooms, high-end microphones, and both analog and digital recording equipment, we provide the perfect environment for vocals, instruments, and full band recordings. Work with experienced engineers who understand how to get the best performances and sounds.",
      ["Vocal Recording", "Instrument Tracking", "Sound Proofing", "Professional Engineers", "Analog & Digital", "Editing Services"],
      "/images/services/studio.jpg", "/images/services/studio-recording.jpg", "Production"),
    Service(Some(5), "PartyPopper", Registered(PartyPopper), "Event Planning",
      "Complete event planning and coordination services for corporate and private events.",
      "From concept to execution, our event planning service ensures every detail is perfect. We coordinate all aspects of your event including venue selection, vendor management, timeline coordination, and technical requirements. Whether it's a corporate conference, wedding, or private party, we handle the logistics so you can focus on enjoying your event.",
      ["Venue Selection", "Vendor Coordination", "Timeline Management", "Budget Planning", "Technical Coordination", "On-site Management"],
      "/images/services/event-planning.jpg", "/images/services/event-planning.jpg", "Planning"),
    Service(Some(6), "Cable", Registered(Cable), "Equipment Rental",
      "High-quality audio, lighting, and production equipment rental services.",
      "Need professional production equipment? We offer a comprehensive range of rental options including complete PA systems, microphones, mixing consoles, lighting equipment, and staging. All equipment is regularly maintained, tested, and comes with optional technical support. Perfect for events, tours, or when you need to supplement your existing gear.",
      ["PA Systems", "Microphones", "Mixing Consoles", "Lighting Equipment", "Staging", "Technical Support"],
      "/images/services/equipment.jpg", "/images/services/equipment.jpg", "Live Sound")
  ]

  /** The one product shown when the backend cannot supply any. */
  const MockProducts: seq<Product> := [
    Product(Some(1), Some("Drums Chair"), "Lighting", "Drumsboy", "/images/products/1o.png",
      "Drum Throne Padded Braced Seat / Stool.",
      "High Load Capacity: We add three double-layer thickened metal support bars to the base to provide additional support for the entire drum throne. The height of the drum stool is about 20.8inch, with the load capacity up to 370lbs. It is very suitable for both children and adults",
      [SpecEntry("Frame Material", "Metal"), SpecEntry("Item Weight", "4 Pounds"),
       SpecEntry("Shape", "Round"), SpecEntry("Seat Material Type", "Metal")])
  ]

  /** The one testimonial shown when the backend cannot supply any. */
  const MockTestimonials: seq<Testimonial> := [
    Testimonial(1,
      "Boyal Integrated Service transformed our annual gala. The sound was impeccable and the team was incredibly professional. A flawless experience!",
      "Jane Doe", "Corporate Gala", "https://i.pravatar.cc/150?u=jane")
  ]

  /** Each fallback service carries the icon registered under its own icon name. */
  lemma MockServiceIcons()
    ensures forall i :: 0 <= i < |MockServices| ==> MockServices[i].icon == IconFor(MockServices[i].iconName)
  {
    forall i | 0 <= i < |MockServices|
      ensures MockServices[i].icon == IconFor(MockServices[i].iconName)
    {
      IconForKey(MockServices[i].icon.icon);
    }
  }

  // ~~~ The category filter of the services page ~~~

  /** The filter buttons: everything, or one category. */
  datatype CategoryFilter = All | Only(category: string)

  const FilterChoices: seq<CategoryFilter> := [All, Only("Production"), Only("Live Sound"), Only("Planning")]

  /**
   * The buttons match the built-in catalogue: every built-in service's
   * category has its own button, and no category button shows an empty
   * list of built-in services.
   */
  lemma FilterChoicesCoverMockServices()
    ensures forall i :: 0 <= i < |MockServices| ==> Only(MockServices[i].category) in FilterChoices
    ensures forall j :: 0 <= j < |FilterChoices| ==> exists i :: 0 <= i < |MockServices| && Shown(MockServices[i], FilterChoices[j])
  {
    assert Shown(MockServices[0], FilterChoices[0]) && Shown(MockServices[0], FilterChoices[1]);
    assert Shown(MockServices[2], FilterChoices[2]) && Shown(MockServices[4], FilterChoices[3]);
  }

  predicate Shown(s: Service, f: CategoryFilter) {
    f.All? || s.category == f.category
  }

  /**
   * `services.filter(...)`: the services the filter shows, in their order,
   * each as often as it occurs in the input, and no other.
   */
  function FilterServices(services: seq<Service>, f: CategoryFilter): (r: seq<Service>)
    ensures f.All? ==> r == services
    ensures IsSubsequence(r, services)
    ensures forall i :: 0 <= i < |r| ==> Shown(r[i], f)
    ensures forall s :: multiset(r)[s] == if Shown(s, f) then multiset(services)[s] else 0
  {
    if services == [] then []
    else
      var rest := FilterServices(services[1..], f);
      assert services == [services[0]] + services[1..];
      if Shown(services[0], f) then
        var r := [services[0]] + rest;
        assert r[1..] == rest;
        r
      else
        rest
  }
}
