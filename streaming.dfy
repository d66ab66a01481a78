/**
  The GET `/api/streaming` handler: it builds a table of ten search links,
  one per streaming provider, by appending them one at a time, and returns
  the four popular subscription services followed by two rental ones.
  `encodeURIComponent` is the parameter `encode`.
*/
module StreamingLinks {
  import opened Wrappers
  import opened JsString

  datatype ProviderType = Subscription | Rent | Buy | Free

  datatype Price = Price(amount: string, currency: string)

  datatype Provider = Provider(id: string, name: string, logo: string, kind: ProviderType, price: Option<Price>)

  datatype StreamingLink = StreamingLink(provider: Provider, url: string, region: seq<string>, quality: seq<string>)

  datatype StreamingResponse =
    | BadRequest(statusCode: int, statusMessage: string)
    | Listing(success: bool, links: seq<StreamingLink>, totalProviders: int, note: string)

  const TitleRequired := "Title parameter is required"
  const ListingNote := "Search results may vary by region. Click to search on each platform."

  const PopularServices := ["crunchyroll", "netflix", "prime-video", "funimation"]
  const AdditionalServices := ["youtube", "apple-tv"]
  const RentalServices := ["youtube", "apple-tv", "vudu"]

  /** One provider's entry before the title is known: its URL is
      `urlPrefix + encodedTitle + urlSuffix`. */
  datatype LinkTemplate = LinkTemplate(
    provider: Provider, urlPrefix: string, urlSuffix: string, region: seq<string>, quality: seq<string>)

  function Instantiate(template: LinkTemplate, encodedTitle: string): StreamingLink {
    StreamingLink(template.provider, template.urlPrefix + encodedTitle + template.urlSuffix,
                  template.region, template.quality)
  }

  const Crunchyroll := LinkTemplate(
    Provider("crunchyroll", "Crunchyroll", "https://img.icons8.com/color/48/crunchyroll.png", Subscription, None),
    "https://www.crunchyroll.com/search?q=", "&type=series",
    ["US", "CA", "GB", "AU", "DE", "FR"], ["1080p", "720p"])
  const Netflix := LinkTemplate(
    Provider("netflix", "Netflix", "https://img.icons8.com/color/48/netflix.png", Subscription, None),
    "https://www.netflix.com/search?q=", "",
    ["US", "CA", "GB", "AU", "DE", "FR", "JP"], ["4K", "1080p", "720p"])
  const PrimeVideo := LinkTemplate(
    Provider("prime-video", "Amazon Prime Video", "https://img.icons8.com/color/48/amazon-prime-video.png", Subscription, None),
    "https://www.primevideo.com/search/ref=atv_nb_sr?phrase=", "",
    ["US", "CA", "GB", "AU", "DE", "FR", "JP"], ["4K", "1080p", "720p"])
  const DisneyPlus := LinkTemplate(
    Provider("disney-plus", "Disney+", "https://img.icons8.com/color/48/disney-plus.png", Subscription, None),
    "https://www.disneyplus.com/search?q=", "",
    ["US", "CA", "GB", "AU", "DE", "FR"], ["4K", "1080p"])
  const Hulu := LinkTemplate(
    Provider("hulu", "Hulu", "https://img.icons8.com/color/48/hulu.png", Subscription, None),
    "https://www.hulu.com/search?q=", "",
    ["US"], ["1080p", "720p"])
  const Funimation := LinkTemplate(
    Provider("funimation", "Funimation", "https://img.icons8.com/color/48/000000/funimation.png", Subscription, None),
    "https://www.funimation.com/search/?q=", "",
    ["US", "CA", "GB", "AU"], ["1080p", "720p"])
  const Hidive := LinkTemplate(
    Provider("hidive", "HIDIVE", "https://img.icons8.com/color/48/000000/hidive.png", Subscription, None),
    "https://www.hidive.com/search?q=", "",
    ["US", "CA"], ["1080p", "720p"])
  const YouTube := LinkTemplate(
    Provider("youtube", "YouTube Movies", "https://img.icons8.com/color/48/youtube-play.png", Rent, Some(Price("$3.99", "USD"))),
    "https://www.youtube.com/results?search_query=", "+anime+full",
    ["US", "CA", "GB", "AU"], ["1080p", "720p"])
  const AppleTv := LinkTemplate(
    Provider("apple-tv", "Apple TV", "https://img.icons8.com/color/48/apple-tv.png", Rent, Some(Price("$4.99", "USD"))),
    "https://tv.apple.com/search?term=", "",
    ["US", "CA", "GB", "AU", "DE", "FR", "JP"], ["4K", "1080p"])
  const Vudu := LinkTemplate(
    Provider("vudu", "Vudu", "https://img.icons8.com/color/48/vudu.png", Rent, Some(Price("$3.99", "USD"))),
    "https://www.vudu.com/content/movies/search/", "",
    ["US"], ["4K", "1080p", "720p"])

  /** The providers in the order the handler appends them. */
  const Providers := [Crunchyroll, Netflix, PrimeVideo, DisneyPlus, Hulu, Funimation, Hidive, YouTube, AppleTv, Vudu]

  /** The ten provider links for an encoded title. */
  function ProviderTable(encodedTitle: string): (r: seq<StreamingLink>)
    ensures |r| == |Providers|
  {
    seq(|Providers|, i requires 0 <= i < |Providers| => Instantiate(Providers[i], encodedTitle))
  }

  /** The provider ids of a list of links, in order. */
  function Ids(links: seq<StreamingLink>): (r: seq<string>)
    ensures |r| == |links|
    ensures forall i :: 0 <= i < |links| ==> r[i] == links[i].provider.id
  {
    if links == [] then [] else [links[0].provider.id] + Ids(links[1..])
  }

  const TableIds := ["crunchyroll", "netflix", "prime-video", "disney-plus", "hulu",
                     "funimation", "hidive", "youtube", "apple-tv", "vudu"]

  /** The table holds ten providers in a fixed order. */
  lemma ProviderTableOrder(encodedTitle: string)
    ensures Ids(ProviderTable(encodedTitle)) == TableIds
    ensures InTableOrder(ProviderTable(encodedTitle))
  {
  }

  /** Exactly the three rental providers carry a price: YouTube and Vudu at
      $3.99, Apple TV at $4.99, all in US dollars. */
  lemma RentalProvidersArePriced(encodedTitle: string)
    ensures forall l :: l in ProviderTable(encodedTitle) ==>
      (l.provider.kind == Rent <==> l.provider.id in RentalServices)
    ensures forall l :: l in ProviderTable(encodedTitle) ==>
      (l.provider.price.Some? <==> l.provider.kind == Rent)
    ensures forall l :: l in ProviderTable(encodedTitle) && l.provider.price.Some? ==>
      l.provider.price.value ==
        Price(if l.provider.id == "apple-tv" then "$4.99" else "$3.99", "USD")
  {
  }

  /** The title only reaches the URLs: two titles give the same providers,
      regions and qualities, position by position. */
  lemma TitleOnlyChangesUrls(title1: string, title2: string)
    ensures forall i :: 0 <= i < |Providers| ==>
      var l1, l2 := ProviderTable(title1)[i], ProviderTable(title2)[i];
      l1.provider == l2.provider && l1.region == l2.region && l1.quality == l2.quality
  {
  }

  /** Every link URL includes the encoded title. */
  lemma EveryLinkCarriesTitle(encodedTitle: string)
    ensures forall l :: l in ProviderTable(encodedTitle) ==> Contains(l.url, encodedTitle)
  {
    forall i | 0 <= i < |Providers|
      ensures Contains(ProviderTable(encodedTitle)[i].url, encodedTitle)
    {
      ContainsInfix(Providers[i].urlPrefix, encodedTitle, Providers[i].urlSuffix);
    }
  }

  /** `links.filter(link => ids.includes(link.provider.id))`: keeps, in
      order, the links whose provider id is listed. */
  function FilterByProvider(links: seq<StreamingLink>, ids: seq<string>): (r: seq<StreamingLink>)
    ensures |r| <= |links|
  {
    if links == [] then []
    else (if links[0].provider.id in ids then [links[0]] else []) + FilterByProvider(links[1..], ids)
  }

  /** A filtered list holds exactly the listed providers' links. */
  lemma {:induction false} FilterByProviderMembers(links: seq<StreamingLink>, ids: seq<string>)
    ensures forall l :: l in FilterByProvider(links, ids) <==> l in links && l.provider.id in ids
  {
    if links != [] {
      FilterByProviderMembers(links[1..], ids);
      assert forall l :: l in links <==> l == links[0] || l in links[1..];
    }
  }

  lemma FilterStep(links: seq<StreamingLink>, k: nat, ids: seq<string>)
    requires k < |links|
    ensures FilterByProvider(links[k..], ids) ==
      (if links[k].provider.id in ids then [links[k]] else []) + FilterByProvider(links[k + 1..], ids)
  {
    assert links[k..][1..] == links[k + 1..];
  }

  /** The links returned to the caller: the popular services, then the
      additional rental options. */
  function SelectLinks(table: seq<StreamingLink>): (r: seq<StreamingLink>)
    ensures forall l :: l in table && (l.provider.id in PopularServices || l.provider.id in AdditionalServices) ==> l in r
  {
    FilterByProviderMembers(table, PopularServices);
    FilterByProviderMembers(table, AdditionalServices);
    FilterByProvider(table, PopularServices) + FilterByProvider(table, AdditionalServices)
  }

  /** Selecting only picks links of the table, unchanged. */
  lemma SelectOnlyPicks(table: seq<StreamingLink>)
    ensures forall l :: l in SelectLinks(table) ==> l in table
  {
    FilterByProviderMembers(table, PopularServices);
    FilterByProviderMembers(table, AdditionalServices);
  }

  /** The table's provider at each position is the one `TableIds` names. */
  predicate InTableOrder(t: seq<StreamingLink>) {
    |t| == |TableIds| && forall i :: 0 <= i < |t| ==> t[i].provider.id == TableIds[i]
  }

  /** Which of the table's providers each filter keeps. */
  lemma ServiceLists()
    ensures forall i :: 0 <= i < |TableIds| ==> (TableIds[i] in PopularServices <==> i in {0, 1, 2, 5})
    ensures forall i :: 0 <= i < |TableIds| ==> (TableIds[i] in AdditionalServices <==> i in {7, 8})
  {
  }

  lemma {:induction false} FilterFrom(t: seq<StreamingLink>, ids: seq<string>, keep: set<int>, k: nat)
    requires InTableOrder(t) && k <= |t|
    requires forall i :: 0 <= i < |t| ==> (t[i].provider.id in ids <==> i in keep)
    ensures FilterByProvider(t[k..], ids) == Kept(t, keep, k)
    decreases |t| - k
  {
    if k < |t| {
      FilterStep(t, k, ids);
      FilterFrom(t, ids, keep, k + 1);
    }
  }

  /** The elements of `t` from position `k` on whose positions are in `keep`. */
  function Kept(t: seq<StreamingLink>, keep: set<int>, k: nat): seq<StreamingLink>
    requires k <= |t|
    decreases |t| - k
  {
    if k == |t| then [] else (if k in keep then [t[k]] else []) + Kept(t, keep, k + 1)
  }

  /** The positions 0, 1, 2 and 5 of a ten-element table. */
  lemma KeptPopular(t: seq<StreamingLink>)
    requires |t| == 10
    ensures Kept(t, {0, 1, 2, 5}, 0) == [t[0], t[1], t[2], t[5]]
  {
    var keep := {0, 1, 2, 5};
    assert Kept(t, keep, 10) == [];
    assert Kept(t, keep, 9) == [];
    assert Kept(t, keep, 8) == [];
    assert Kept(t, keep, 7) == [];
    assert Kept(t, keep, 6) == [];
    assert Kept(t, keep, 5) == [t[5]];
    assert Kept(t, keep, 4) == [t[5]];
    assert Kept(t, keep, 3) == [t[5]];
    assert Kept(t, keep, 2) == [t[2], t[5]];
    assert Kept(t, keep, 1) == [t[1], t[2], t[5]];
  }

  /** The positions 7 and 8 of a ten-element table. */
  lemma KeptAdditional(t: seq<StreamingLink>)
    requires |t| == 10
    ensures Kept(t, {7, 8}, 0) == [t[7], t[8]]
  {
    var keep := {7, 8};
    assert Kept(t, keep, 10) == [];
    assert Kept(t, keep, 9) == [];
    assert Kept(t, keep, 8) == [t[8]];
    assert Kept(t, keep, 7) == [t[7], t[8]];
    assert Kept(t, keep, 6) == [t[7], t[8]];
    assert Kept(t, keep, 5) == [t[7], t[8]];
    assert Kept(t, keep, 4) == [t[7], t[8]];
    assert Kept(t, keep, 3) == [t[7], t[8]];
    assert Kept(t, keep, 2) == [t[7], t[8]];
    assert Kept(t, keep, 1) == [t[7], t[8]];
  }

  lemma PopularFromTable(t: seq<StreamingLink>)
    requires InTableOrder(t)
    ensures FilterByProvider(t, PopularServices) == [t[0], t[1], t[2], t[5]]
  {
    ServiceLists();
    FilterFrom(t, PopularServices, {0, 1, 2, 5}, 0);
    assert t[0..] == t;
    KeptPopular(t);
  }

  lemma AdditionalFromTable(t: seq<StreamingLink>)
    requires InTableOrder(t)
    ensures FilterByProvider(t, AdditionalServices) == [t[7], t[8]]
  {
    ServiceLists();
    FilterFrom(t, AdditionalServices, {7, 8}, 0);
    assert t[0..] == t;
    KeptAdditional(t);
  }

  /** From a table with the ten providers in order, the selection is exactly
      Crunchyroll, Netflix, Prime Video, Funimation, YouTube and Apple TV, in
      that order. */
  lemma SelectionFromTable(t: seq<StreamingLink>)
    requires InTableOrder(t)
    ensures SelectLinks(t) == [t[0], t[1], t[2], t[5], t[7], t[8]]
  {
    PopularFromTable(t);
    AdditionalFromTable(t);
  }

  /** The six selected links name the six wanted providers, in order. */
  lemma SelectedIds(encodedTitle: string)
    ensures var t := ProviderTable(encodedTitle);
      Ids([t[0], t[1], t[2], t[5], t[7], t[8]]) == ["crunchyroll", "netflix", "prime-video", "funimation", "youtube", "apple-tv"]
  {
    ProviderTableOrder(encodedTitle);
  }

  /** Every selected link's URL includes the encoded title. */
  lemma SelectedCarryTitle(encodedTitle: string)
    ensures forall l :: l in SelectLinks(ProviderTable(encodedTitle)) ==> Contains(l.url, encodedTitle)
  {
    SelectOnlyPicks(ProviderTable(encodedTitle));
    EveryLinkCarriesTitle(encodedTitle);
  }

  /** Appends the ten provider links one at a time. */
  method BuildProviderTable(encodedTitle: string) returns (streamingLinks: seq<StreamingLink>)
    ensures streamingLinks == ProviderTable(encodedTitle)
  {
    streamingLinks := [];
    streamingLinks := streamingLinks + [Instantiate(Crunchyroll, encodedTitle)];
    streamingLinks := streamingLinks + [Instantiate(Netflix, encodedTitle)];
    streamingLinks := streamingLinks + [Instantiate(PrimeVideo, encodedTitle)];
    streamingLinks := streamingLinks + [Instantiate(DisneyPlus, encodedTitle)];
    streamingLinks := streamingLinks + [Instantiate(Hulu, encodedTitle)];
    streamingLinks := streamingLinks + [Instantiate(Funimation, encodedTitle)];
    streamingLinks := streamingLinks + [Instantiate(Hidive, encodedTitle)];
    streamingLinks := streamingLinks + [Instantiate(YouTube, encodedTitle)];
    streamingLinks := streamingLinks + [Instantiate(AppleTv, encodedTitle)];
    streamingLinks := streamingLinks + [Instantiate(Vudu, encodedTitle)];
  }

  /** The GET `/api/streaming` handler. A missing or empty title is a 400
      error; otherwise six of the ten links are returned, each one an
      unchanged entry of the table and each URL including the encoded
      title, while `totalProviders` counts the whole table. */
  method GetStreamingLinks(title: Option<string>, encode: string -> string) returns (r: StreamingResponse)
    ensures title.None? || title.value == "" <==> r.BadRequest?
    ensures r.BadRequest? ==> r == BadRequest(400, TitleRequired)
    ensures r.Listing? ==>
      var t := ProviderTable(encode(title.value));
      && r.success
      && r.links == [t[0], t[1], t[2], t[5], t[7], t[8]]
      && Ids(r.links) == ["crunchyroll", "netflix", "prime-video", "funimation", "youtube", "apple-tv"]
      && (forall l :: l in r.links ==> Contains(l.url, encode(title.value)))
      && r.totalProviders == 10
      && r.note == ListingNote
  {
    if title.None? || title.value == "" {
      return BadRequest(400, TitleRequired);
    }
    var encodedTitle := encode(title.value);
    var streamingLinks := BuildProviderTable(encodedTitle);
    ProviderTableOrder(encodedTitle);
    SelectionFromTable(streamingLinks);
    SelectedIds(encodedTitle);
    SelectedCarryTitle(encodedTitle);
    r := Listing(true, SelectLinks(streamingLinks), |streamingLinks|, ListingNote);
  }
}
