/** The Redfin scraper: the rental id read from a listing page and the floor-plan
    API URLs built from it, the search API URL read from a search page's download
    link, the anti-hijacking prefix stripped from the search API's response, and the
    record built from a listing page for sale. */
module Redfin {
  import opened Values
  import opened Text
  import opened Batch

  const RentMarker := "rent/"
  const FloorPlansBase := "https://www.redfin.com/stingray/api/v1/rentals/"
  const FloorPlansSuffix := "/floorPlans"
  const GisMarker := "gis-csv?"
  const GisBase := "https://www.redfin.com/stingray/api/gis?"
  /** The prefix the search API puts before its JSON against JSON hijacking. */
  const HijackPrefix := "{}&&"

  // ---------------------------------------------------------------------------
  // Properties for rent

  /** The `try` block of `parse_property_for_rent`: the text after the first
      "rent/" up to any next "rent/", cut at its first "/", kept only when it is
      36 characters long. A missing marker (an IndexError) and a wrong length (an
      AssertionError) are both caught and give no id. */
  function RentalId(content: string): (r: Option<string>)
    ensures r.Some? ==> Contains(content, RentMarker)
    ensures r.Some? ==> |r.value| == 36 && !Contains(r.value, "/")
  {
    var parts := Split(content, RentMarker);
    SplitHasSecondPart(content, RentMarker);
    if |parts| < 2 then None
    else
      var id := Split(parts[1], "/")[0];
      SplitPartsFree(parts[1], "/");
      if |id| == 36 then Some(id) else None
  }

  /** An image URL of the form `prefix` "rent/" `id` "/" `rest`, with no "rent/"
      before `id` ends, yields `id` exactly when it is 36 characters long, whatever
      `rest` holds, a further "rent/" included. */
  lemma RentalIdOf(prefix: string, id: string, rest: string)
    requires !Contains(prefix, RentMarker) && !Contains(id + "/", RentMarker)
    requires '/' !in id
    ensures RentalId(prefix + RentMarker + id + "/" + rest) == if |id| == 36 then Some(id) else None
  {
    var tail := id + "/" + rest;
    assert LeadsOnce(RentMarker);
    SplitAfterFree(prefix, RentMarker, tail);
    assert prefix + RentMarker + id + "/" + rest == prefix + RentMarker + tail;
    NoMarkerBefore(id, rest);
    SplitFirstKeeps(tail, RentMarker, |id| + 1);
    var first := Split(tail, RentMarker)[0];
    assert first == id + "/" + first[|id| + 1..] by {
      assert first[..|id| + 1] == tail[..|id| + 1] == id + "/";
    }
    SplitCharAfter(id, '/', first[|id| + 1..]);
  }

  /** No "rent/" starts within `id` "/": one inside it is excluded, and one that
      runs past it would need its "/" where the marker has a letter. */
  lemma NoMarkerBefore(id: string, rest: string)
    requires !Contains(id + "/", RentMarker)
    ensures forall j: nat :: j < |id| + 1 ==> !OccursAt(id + "/" + rest, RentMarker, j)
  {
    var head, tail := id + "/", id + "/" + rest;
    forall j: nat | j < |id| + 1 ensures !OccursAt(tail, RentMarker, j) {
      if j + |RentMarker| <= |head| {
        assert tail[j..j + |RentMarker|] == head[j..j + |RentMarker|];
        assert !OccursAt(head, RentMarker, j);
      } else if j + |RentMarker| <= |tail| {
        assert tail[j..j + |RentMarker|][|id| - j] == tail[|id|] == '/' != RentMarker[|id| - j];
      }
    }
  }

  /** `parse_property_for_rent` given the `content` attribute of the page's
      `og:image` meta element, if there is one. Reading the attribute is outside the
      `try`, so a missing one raises. */
  function ParsePropertyForRent(content: Option<string>): (r: Result<Option<string>>)
    ensures r.Err? <==> content.None?
    ensures r.Ok? ==> r.value == RentalId(content.value)
  {
    match content
    case None => Err(MissingAttribute("content"))
    case Some(c) => Ok(RentalId(c))
  }

  /** The floor-plans API URL of a rental. */
  function FloorPlansUrl(id: string): string
  {
    FloorPlansBase + id + FloorPlansSuffix
  }

  /** Reads the rental id back out of a floor-plans API URL. */
  function FloorPlansId(url: string): Option<string>
  {
    if |url| >= |FloorPlansBase| + |FloorPlansSuffix| && url[..|FloorPlansBase|] == FloorPlansBase &&
       url[|url| - |FloorPlansSuffix|..] == FloorPlansSuffix
    then Some(url[|FloorPlansBase|..|url| - |FloorPlansSuffix|])
    else None
  }

  /** The rental id can be read back out of its floor-plans URL, so distinct
      rentals get distinct URLs. */
  lemma FloorPlansUrlRoundTrip(id: string)
    ensures FloorPlansId(FloorPlansUrl(id)) == Some(id)
  {
    var url := FloorPlansUrl(id);
    assert url[..|FloorPlansBase|] == FloorPlansBase;
    assert url[|url| - |FloorPlansSuffix|..] == FloorPlansSuffix;
    assert url[|FloorPlansBase|..|url| - |FloorPlansSuffix|] == id;
  }

  /** `if rental_id:`: an id is used when present and non-empty. */
  predicate Usable(id: Option<string>)
  {
    id.Some? && id.value != ""
  }

  /** The `api_urls` list: one floor-plans URL per usable id, in input order. */
  function ApiUrls(ids: seq<Option<string>>): seq<string>
    decreases |ids|
  {
    if ids == [] then []
    else
      var last := ids[|ids| - 1];
      ApiUrls(ids[..|ids| - 1]) + (if Usable(last) then [FloorPlansUrl(last.value)] else [])
  }

  /** The number of ids that are not used. */
  function Unusable(ids: seq<Option<string>>): nat
    decreases |ids|
  {
    if ids == [] then 0
    else Unusable(ids[..|ids| - 1]) + (if Usable(ids[|ids| - 1]) then 0 else 1)
  }

  /** One follow-up request per input, less the inputs with no usable id. */
  lemma {:induction false} ApiUrlsCount(ids: seq<Option<string>>)
    ensures |ApiUrls(ids)| == |ids| - Unusable(ids)
    decreases |ids|
  {
    if ids != [] {
      ApiUrlsCount(ids[..|ids| - 1]);
    }
  }

  /** The URLs of `a + b` are those of `a` followed by those of `b`: input order is
      kept. */
  lemma {:induction false} ApiUrlsAppend(a: seq<Option<string>>, b: seq<Option<string>>)
    ensures ApiUrls(a + b) == ApiUrls(a) + ApiUrls(b)
    decreases |b|
  {
    if b == [] {
      assert a + b == a;
    } else {
      var init := b[..|b| - 1];
      ApiUrlsAppend(a, init);
      assert (a + b)[..|a + b| - 1] == a + init;
      assert (a + b)[|a + b| - 1] == b[|b| - 1];
    }
  }

  /** A URL is planned exactly when it is the floor-plans URL of a usable id. */
  lemma {:induction false} ApiUrlsMembers(ids: seq<Option<string>>)
    ensures forall u :: u in ApiUrls(ids) <==>
              exists i :: 0 <= i < |ids| && Usable(ids[i]) && u == FloorPlansUrl(ids[i].value)
    decreases |ids|
  {
    if ids != [] {
      var init := ids[..|ids| - 1];
      ApiUrlsMembers(init);
      assert forall i :: 0 <= i < |init| ==> init[i] == ids[i];
      forall u | u in ApiUrls(ids)
        ensures exists i :: 0 <= i < |ids| && Usable(ids[i]) && u == FloorPlansUrl(ids[i].value)
      {
        if u !in ApiUrls(init) {
          assert Usable(ids[|ids| - 1]) && u == FloorPlansUrl(ids[|ids| - 1].value);
        }
      }
    }
  }

  /** The rental id of the page at `url`: fetched, then parsed; either step may
      raise. */
  function PageRentalId(fetchPage: string -> Result<Option<string>>, url: string): Result<Option<string>>
  {
    match fetchPage(url)
    case Err(e) => Err(e)
    case Ok(content) => ParsePropertyForRent(content)
  }

  /** The rental ids of `urls`, read one page after another; the first page that
      raises ends the loop with that failure. */
  function RentalIds(fetchPage: string -> Result<Option<string>>, urls: seq<string>): (r: Result<seq<Option<string>>>)
    ensures r.Ok? <==> forall i :: 0 <= i < |urls| ==> PageRentalId(fetchPage, urls[i]).Ok?
    ensures r.Ok? ==> |r.value| == |urls| &&
                      (forall i :: 0 <= i < |urls| ==> PageRentalId(fetchPage, urls[i]) == Ok(r.value[i]))
    decreases |urls|
  {
    if urls == [] then Ok([])
    else
      var init := urls[..|urls| - 1];
      assert forall i :: 0 <= i < |init| ==> init[i] == urls[i];
      match RentalIds(fetchPage, init)
      case Err(e) => Err(e)
      case Ok(ids) =>
        match PageRentalId(fetchPage, urls[|urls| - 1])
        case Err(e) => Err(e)
        case Ok(id) => Ok(ids + [id])
  }

  /** The records of one floor-plans response: its decoded body. */
  function Decoded(body: Json): Result<seq<Json>>
  {
    Ok([body])
  }

  /** Fetching a batch of floor-plans URLs gives one property per URL, the body of
      its response. */
  lemma {:induction false} CollectDecoded(fetch: string -> Result<Json>, reqs: seq<string>)
    ensures Collect(fetch, Decoded, reqs).Ok? <==> forall i :: 0 <= i < |reqs| ==> fetch(reqs[i]).Ok?
    ensures Collect(fetch, Decoded, reqs).Ok? ==>
              |Collect(fetch, Decoded, reqs).value| == |reqs| &&
              forall i :: 0 <= i < |reqs| ==> fetch(reqs[i]) == Ok(Collect(fetch, Decoded, reqs).value[i])
    decreases |reqs|
  {
    if reqs != [] {
      CollectDecoded(fetch, reqs[1..]);
      assert forall i :: 1 <= i < |reqs| ==> reqs[i] == reqs[1..][i - 1];
    }
  }

  /** `scrape_property_for_rent`. The listing pages are fetched one after another and
      a floor-plans URL is planned for each usable rental id; the planned URLs are
      then fetched concurrently, `arrive` being the order their responses come in,
      and each decoded response is one property, appended in arrival order. */
  method ScrapePropertyForRent(urls: seq<string>, fetchPage: string -> Result<Option<string>>,
                               fetchApi: string -> Result<Json>, arrive: seq<string> -> seq<string>)
    returns (apiUrls: seq<string>, r: Result<seq<Json>>)
    requires forall batch :: multiset(arrive(batch)) == multiset(batch)
    ensures RentalIds(fetchPage, urls).Err? ==> r.Err?
    ensures RentalIds(fetchPage, urls).Ok? ==> apiUrls == ApiUrls(RentalIds(fetchPage, urls).value)
    ensures r.Ok? <==> RentalIds(fetchPage, urls).Ok? && Collect(fetchApi, Decoded, apiUrls).Ok?
    ensures r.Ok? ==> Gathered(r.value, [], Collect(fetchApi, Decoded, apiUrls).value)
    ensures r.Ok? ==> Collect(fetchApi, Decoded, arrive(apiUrls)).Ok? &&
                      r.value == Collect(fetchApi, Decoded, arrive(apiUrls)).value
    ensures RentalIds(fetchPage, urls).Ok? && Collect(fetchApi, Decoded, arrive(apiUrls)).Err? ==>
              r == Err(Collect(fetchApi, Decoded, arrive(apiUrls)).error)
    ensures r.Ok? ==> |r.value| == |urls| - Unusable(RentalIds(fetchPage, urls).value)
  {
    apiUrls := [];
    var i := 0;
    while i < |urls|
      invariant 0 <= i <= |urls|
      invariant RentalIds(fetchPage, urls[..i]).Ok?
      invariant apiUrls == ApiUrls(RentalIds(fetchPage, urls[..i]).value)
    {
      assert urls[..i + 1][..i] == urls[..i] && urls[..i + 1][i] == urls[i];
      var page := fetchPage(urls[i]);
      if page.Err? {
        r := Err(page.error);
        return;
      }
      var id := ParsePropertyForRent(page.value);
      if id.Err? {
        r := Err(id.error);
        return;
      }
      if Usable(id.value) {
        apiUrls := apiUrls + [FloorPlansUrl(id.value.value)];
      }
      i := i + 1;
    }
    assert urls[..i] == urls;
    r := Gather([], fetchApi, Decoded, apiUrls, arrive);
    if r.Ok? {
      CollectDecoded(fetchApi, apiUrls);
      ApiUrlsCount(RentalIds(fetchPage, urls).value);
    }
  }

  // ---------------------------------------------------------------------------
  // Search

  /** `parse_search_page`: the `href` of the download link, if it has one, after
      its first "gis-csv?" and up to any next one. A missing attribute raises a
      KeyError and a missing marker an IndexError. */
  function SearchParameters(href: Option<string>): (r: Result<string>)
    ensures r.Err? <==> href.None? || !Contains(href.value, GisMarker)
    ensures r.Ok? ==> !Contains(r.value, GisMarker)
  {
    match href
    case None => Err(MissingAttribute("href"))
    case Some(h) =>
      var parts := Split(h, GisMarker);
      SplitHasSecondPart(h, GisMarker);
      SplitPartsFree(h, GisMarker);
      if |parts| < 2 then Err(NoMarker(GisMarker)) else Ok(parts[1])
  }

  /** The search API URL `scrape_search` requests: the API base followed by the
      parameters of the download link. */
  function SearchApiUrl(href: Option<string>): (r: Result<string>)
    ensures r.Ok? <==> SearchParameters(href).Ok?
    ensures r.Ok? ==> r.value == GisBase + SearchParameters(href).value
    ensures r.Err? ==> r.error == SearchParameters(href).error
  {
    match SearchParameters(href)
    case Err(e) => Err(e)
    case Ok(parameters) => Ok(GisBase + parameters)
  }

  /** A download link `prefix` "gis-csv?" `query`, with the marker nowhere else,
      sends the search to the API with exactly that query. */
  lemma SearchApiUrlOf(prefix: string, query: string)
    requires !Contains(prefix, GisMarker) && !Contains(query, GisMarker)
    ensures SearchParameters(Some(prefix + GisMarker + query)) == Ok(query)
    ensures SearchApiUrl(Some(prefix + GisMarker + query)) == Ok(GisBase + query)
  {
    assert LeadsOnce(GisMarker);
    SplitAfterFree(prefix, GisMarker, query);
    assert Split(query, GisMarker) == [query];
  }

  /** A download link with a second "gis-csv?" after `query` sends the search to
      the API with `query` alone: the parameters end at the next marker. */
  lemma SearchApiUrlUpToNext(prefix: string, query: string, rest: string)
    requires !Contains(prefix, GisMarker) && !Contains(query, GisMarker)
    ensures SearchParameters(Some(prefix + GisMarker + query + GisMarker + rest)) == Ok(query)
    ensures SearchApiUrl(Some(prefix + GisMarker + query + GisMarker + rest)) == Ok(GisBase + query)
  {
    assert LeadsOnce(GisMarker);
    var tail := query + GisMarker + rest;
    assert prefix + GisMarker + query + GisMarker + rest == prefix + GisMarker + tail;
    SplitAfterFree(prefix, GisMarker, tail);
    SplitAfterFree(query, GisMarker, rest);
  }

  /** `content.replace("{}&&", "")`. */
  function StripHijack(content: string): string
  {
    Remove(content, HijackPrefix)
  }

  /** The search API document holds a `payload` dict with a `homes` entry. */
  predicate HasHomes(doc: Json)
  {
    doc.JObj? && "payload" in doc.fields && doc.fields["payload"].JObj? &&
    "homes" in doc.fields["payload"].fields
  }

  /** `parse_search_api`: the response text with the anti-hijacking prefix removed,
      decoded by `decode` (`json.loads`), then `["payload"]["homes"]`. */
  function ParseSearchApi(content: string, decode: string -> Result<Json>): (r: Result<Json>)
    ensures r.Ok? <==> decode(StripHijack(content)).Ok? && HasHomes(decode(StripHijack(content)).value)
    ensures r.Ok? ==> r.value == decode(StripHijack(content)).value.fields["payload"].fields["homes"]
  {
    match decode(StripHijack(content))
    case Err(e) => Err(e)
    case Ok(doc) =>
      assert ["payload", "homes"][1..] == ["homes"] && ["homes"][1..] == [];
      Descend(doc, ["payload", "homes"])
  }

  /** A response that is the prefix followed by a body free of it is decoded from
      exactly that body. */
  lemma ParseSearchApiPrefixed(body: string, decode: string -> Result<Json>)
    requires !Contains(body, HijackPrefix)
    ensures ParseSearchApi(HijackPrefix + body, decode) == ParseSearchApi(body, decode)
    ensures StripHijack(HijackPrefix + body) == body
  {
    RemoveLeading(HijackPrefix, body);
    RemoveAbsent(body, HijackPrefix);
  }

  /** `scrape_search`: the search page gives the download link's `href` (through
      `fetchLink`), the API URL built from it gives the response text (through
      `fetchText`), which is parsed; the success log then takes `len()` of the homes,
      which raises for null, a number or a boolean. Each step may raise. */
  function ScrapeSearch(url: string, fetchLink: string -> Result<Option<string>>,
                        fetchText: string -> Result<string>, decode: string -> Result<Json>): (r: Result<Json>)
    ensures r.Ok? ==> fetchLink(url).Ok? && SearchApiUrl(fetchLink(url).value).Ok? && Sized(r.value)
    ensures fetchLink(url).Ok? && (fetchLink(url).value.None? || !Contains(fetchLink(url).value.value, GisMarker)) ==>
              r.Err?
    ensures fetchLink(url).Ok? && SearchApiUrl(fetchLink(url).value).Ok? &&
            fetchText(GisBase + SearchParameters(fetchLink(url).value).value).Ok? ==>
              var homes := ParseSearchApi(fetchText(GisBase + SearchParameters(fetchLink(url).value).value).value, decode);
              r == if homes.Ok? && !Sized(homes.value) then Err(NotSized) else homes
  {
    match fetchLink(url)
    case Err(e) => Err(e)
    case Ok(href) =>
      match SearchApiUrl(href)
      case Err(e) => Err(e)
      case Ok(apiUrl) =>
        match fetchText(apiUrl)
        case Err(e) => Err(e)
        case Ok(content) =>
          match ParseSearchApi(content, decode)
          case Err(e) => Err(e)
          case Ok(homes) => if Sized(homes) then Ok(homes) else Err(NotSized)
  }

  /** End to end: a download link `prefix` "gis-csv?" `query` makes the scraper ask
      the API for `query`, and a prefixed response yields the homes of its body when
      they have a length, and `NotSized` when they do not. */
  lemma ScrapeSearchOf(url: string, fetchLink: string -> Result<Option<string>>,
                       fetchText: string -> Result<string>, decode: string -> Result<Json>,
                       prefix: string, query: string, body: string)
    requires !Contains(prefix, GisMarker) && !Contains(query, GisMarker)
    requires fetchLink(url) == Ok(Some(prefix + GisMarker + query))
    requires fetchText(GisBase + query) == Ok(HijackPrefix + body) && !Contains(body, HijackPrefix)
    ensures ParseSearchApi(body, decode).Ok? && Sized(ParseSearchApi(body, decode).value) ==>
              ScrapeSearch(url, fetchLink, fetchText, decode) == ParseSearchApi(body, decode)
    ensures ParseSearchApi(body, decode).Ok? && !Sized(ParseSearchApi(body, decode).value) ==>
              ScrapeSearch(url, fetchLink, fetchText, decode) == Err(NotSized)
    ensures ParseSearchApi(body, decode).Err? ==>
              ScrapeSearch(url, fetchLink, fetchText, decode) == ParseSearchApi(body, decode)
  {
    SearchApiUrlOf(prefix, query);
    ParseSearchApiPrefixed(body, decode);
  }

  // ---------------------------------------------------------------------------
  // Properties for sale

  /** A feature block of a listing page: the text of its title, if it has any, and
      for each feature under it the text nodes of that feature. */
  datatype FeatureBlock = FeatureBlock(title: Option<string>, features: seq<seq<string>>)

  /** The feature texts of one block: each feature's text nodes joined, then
      stripped of surrounding whitespace. */
  function FeatureTexts(block: FeatureBlock): (r: seq<string>)
    ensures |r| == |block.features|
    ensures forall i :: 0 <= i < |r| ==> Trimmed(Concat(block.features[i]), r[i])
  {
    seq(|block.features|, i requires 0 <= i < |block.features| => Strip(Concat(block.features[i])))
  }

  /** `features_data` after its loop over `blocks`: each block's texts stored under
      its label, a later block replacing an earlier one with the same label. */
  function FeatureMap(blocks: seq<FeatureBlock>): map<Option<string>, seq<string>>
    decreases |blocks|
  {
    if blocks == [] then map[]
    else
      var last := blocks[|blocks| - 1];
      FeatureMap(blocks[..|blocks| - 1])[last.title := FeatureTexts(last)]
  }

  /** The labels of the map are exactly the labels of the blocks. */
  lemma {:induction false} FeatureMapKeys(blocks: seq<FeatureBlock>)
    ensures forall l :: l in FeatureMap(blocks) <==> exists i :: 0 <= i < |blocks| && blocks[i].title == l
    decreases |blocks|
  {
    if blocks != [] {
      var init := blocks[..|blocks| - 1];
      FeatureMapKeys(init);
      assert forall i :: 0 <= i < |init| ==> init[i] == blocks[i];
      forall l | l in FeatureMap(blocks)
        ensures exists i :: 0 <= i < |blocks| && blocks[i].title == l
      {
        if l !in FeatureMap(init) {
          assert blocks[|blocks| - 1].title == l;
        }
      }
    }
  }

  /** A label holds the texts of the last block that carries it. */
  lemma {:induction false} FeatureMapLastWins(blocks: seq<FeatureBlock>, i: nat)
    requires i < |blocks|
    requires forall j :: i < j < |blocks| ==> blocks[j].title != blocks[i].title
    ensures blocks[i].title in FeatureMap(blocks)
    ensures FeatureMap(blocks)[blocks[i].title] == FeatureTexts(blocks[i])
    decreases |blocks|
  {
    if i < |blocks| - 1 {
      var init := blocks[..|blocks| - 1];
      assert init[i] == blocks[i];
      FeatureMapLastWins(init, i);
    }
  }

  /** The `features_data` loop of `parse_property_for_sale`. */
  method BuildFeatures(blocks: seq<FeatureBlock>) returns (features: map<Option<string>, seq<string>>)
    ensures features == FeatureMap(blocks)
  {
    features := map[];
    var i := 0;
    while i < |blocks|
      invariant 0 <= i <= |blocks|
      invariant features == FeatureMap(blocks[..i])
    {
      assert blocks[..i + 1][..i] == blocks[..i];
      features := features[blocks[i].title := FeatureTexts(blocks[i])];
      i := i + 1;
    }
    assert blocks[..i] == blocks;
  }

  /** The address: the street text, one space, the city, state and zip text. */
  function Address(street: seq<string>, city: seq<string>): string
  {
    Concat(street) + " " + Concat(city)
  }

  /** The address is the street text, a space right after it, and then the city
      text; a space inside the street text moves neither. */
  lemma AddressParts(street: seq<string>, city: seq<string>)
    ensures |Address(street, city)| == |Concat(street)| + 1 + |Concat(city)|
    ensures Address(street, city)[..|Concat(street)|] == Concat(street)
    ensures Address(street, city)[|Concat(street)|] == ' '
    ensures Address(street, city)[|Concat(street)| + 1..] == Concat(city)
  {
  }

  /** The `src` of every photo: a photo without one raises a KeyError. */
  function ImageSources(sources: seq<Option<string>>): (r: Result<seq<string>>)
    ensures r.Ok? <==> forall i :: 0 <= i < |sources| ==> sources[i].Some?
    ensures r.Ok? ==> |r.value| == |sources| &&
                      (forall i :: 0 <= i < |sources| ==> sources[i] == Some(r.value[i]))
    decreases |sources|
  {
    if sources == [] then Ok([])
    else
      assert forall i :: 1 <= i < |sources| ==> sources[i] == sources[1..][i - 1];
      match sources[0]
      case None => Err(MissingAttribute("src"))
      case Some(src) =>
        match ImageSources(sources[1..])
        case Err(e) => Err(e)
        case Ok(rest) => Ok([src] + rest)
  }

  /** What `parse_property_for_sale` reads from a listing page: the selected text
      nodes and attributes, and the URL the page was fetched from. `details` holds
      the text nodes of each key-detail selection. */
  datatype SalePage = SalePage(price: Option<string>, monthly: seq<string>, street: seq<string>,
                               city: seq<string>, description: Option<string>,
                               imageSources: seq<Option<string>>, details: seq<seq<string>>,
                               blocks: seq<FeatureBlock>, url: string)

  /** The record `parse_property_for_sale` returns. */
  datatype SaleListing = SaleListing(address: string, description: Option<string>, price: Option<string>,
                                     estimatedMonthlyPrice: string, propertyUrl: string,
                                     attachments: seq<string>, details: seq<string>,
                                     features: map<Option<string>, seq<string>>)

  /** `parse_property_for_sale`: only a photo without `src` raises; every other
      field is copied, joined or built from the page. */
  method ParsePropertyForSale(page: SalePage) returns (r: Result<SaleListing>)
    ensures r.Err? <==> exists i :: 0 <= i < |page.imageSources| && page.imageSources[i].None?
    ensures r.Ok? ==> r.value.address == Address(page.street, page.city) &&
                      r.value.estimatedMonthlyPrice == Concat(page.monthly) &&
                      r.value.price == page.price && r.value.description == page.description &&
                      r.value.propertyUrl == page.url
    ensures r.Ok? ==> |r.value.attachments| == |page.imageSources| &&
                      forall i :: 0 <= i < |page.imageSources| ==> page.imageSources[i] == Some(r.value.attachments[i])
    ensures r.Ok? ==> |r.value.details| == |page.details| &&
                      forall i :: 0 <= i < |page.details| ==> r.value.details[i] == Concat(page.details[i])
    ensures r.Ok? ==> r.value.features == FeatureMap(page.blocks)
  {
    var address := Address(page.street, page.city);
    var images := ImageSources(page.imageSources);
    if images.Err? {
      return Err(images.error);
    }
    var details := seq(|page.details|, i requires 0 <= i < |page.details| => Concat(page.details[i]));
    var features := BuildFeatures(page.blocks);
    r := Ok(SaleListing(address, page.description, page.price, Concat(page.monthly), page.url,
                        images.value, details, features));
  }
}
