# Scraper pagination and record shaping, in Dafny

This project models the deterministic core of two example web scrapers:

- the TikTok scraper (`tiktok-scraper/tiktok.py`): the comments and search API URLs, the cap rule and the
  `range(...)` cursor lists of its pagination, the shaping of comments, search results, posts and profiles
  into records, and the two paginated scrape operations that fetch a first page, plan the follow-up pages
  and gather them concurrently;
- the Redfin scraper (`refdin-scraper/refdin.py`): the rental id read from a listing page's `og:image`
  URL and the floor-plan API URLs planned from it, the search API URL read from a search page's download
  link, the removal of the `{}&&` anti-hijacking prefix, and the record built from a listing page for
  sale, including its feature map and address.

The files:

- `values.dfy` (`Values`): decoded JSON values, the failures a step can raise, Python subscripting, which
  raises on a missing key, and JMESPath field selection, which yields null instead.
- `text.dfy` (`Text`): the Python `str` operations used, all written out: `find`, `split`, `join`,
  `replace(p, "")`, `strip()`, `str(int)` and `urlencode`.
- `batch.dfy` (`Batch`): a batch of requests fetched concurrently and folded into one record list.
  Each page is appended whole, in arrival order. The records are proved the same, as a multiset,
  whatever order the responses arrive in.
- `tiktok.dfy` (`TikTok`) and `redfin.dfy` (`Redfin`): the two scrapers.

The fetch collaborator is a function parameter. It maps a request to its decoded body, or to the failure
it raised. `concurrent_scrape` delivers a batch in an unknown order, modelled as a parameter `arrive`
that may permute the batch in any way. `json.loads`, the XPath/CSS selectors and `quote` are parameters
or inputs too.

Two consequences of the pagination code are worth stating:

- For a total of 50 and a page size of 12, `range(12, 62, 12)` at `tiktok-scraper/tiktok.py:117` builds
  5 follow-up cursors (12, 24, 36, 48, 60). That is ceil(50 / 12). The log line at
  `tiktok-scraper/tiktok.py:114` announces `50 // 12 - 1 = 3` of them.
- The code requests whole pages and never truncates, so the last page can take the record count past
  `max_comments`. The model proves only the bound on the number of requests (`TikTok.CappedFollowUps`).

## Model

| member | source | states |
|---|---|---|
| `Values.SubscriptPick` | tiktok-scraper/tiktok.py:62-81 | a JMESPath field is what Python's `d[key]` gives when that succeeds, and null where `d[key]` would raise |
| `Values.AsInt` | tiktok-scraper/tiktok.py:152 | a number or boolean has an integer value, anything else none; `== 1` holds exactly for 1 and True, and `== 0` exactly for 0 and False |
| `Values.DescendOk` | tiktok-scraper/tiktok.py:131 | a chain of subscripts succeeds exactly when every prefix of the key path ends at a dict holding the next key |
| `Text.SplitPartsFree` | refdin-scraper/refdin.py:82 | no part of `s.split(sep)` contains the separator |
| `Text.SplitJoin` | refdin-scraper/refdin.py:82 | joining the parts of a split with the separator gives the string back |
| `Text.UrlencodeRoundTrip` | tiktok-scraper/tiktok.py:97 | the escaped name/value pairs can be read back out of `urlencode`'s output, in order |
| `Text.IntDecimalRoundTrip` | tiktok-scraper/tiktok.py:92-96 | `str(i)` of an integer parameter reads back as that integer |
| `Text.RemoveLeading` | refdin-scraper/refdin.py:38 | `replace(p, "")` on `p + body`, with `p` nowhere in `body`, gives exactly `body` |
| `Text.RemoveAbsent` | refdin-scraper/refdin.py:38 | `replace(p, "")` leaves text without `p` unchanged |
| `Text.Strip` | refdin-scraper/refdin.py:63 | `strip()` removes only whitespace, and only from the two ends, and leaves none at either end of the result |
| `Text.TrimmedUnique` | refdin-scraper/refdin.py:63 | only one string is the text with its surrounding whitespace removed, so the contract of `strip()` fixes its result |
| `Text.StripIdempotent` | refdin-scraper/refdin.py:63 | stripping twice is stripping once |
| `Batch.CollectOk` | tiktok-scraper/tiktok.py:119-121 | a batch succeeds exactly when every response fetches and parses |
| `Batch.CollectAppend` | tiktok-scraper/tiktok.py:119-121 | the records of a split batch are the records of its parts, concatenated in order |
| `Batch.CollectPermutation` | tiktok-scraper/tiktok.py:119-121 | whatever order the responses arrive in, the batch succeeds or fails alike and yields the same records as a multiset |
| `Batch.ArrivalOrderIrrelevant` | tiktok-scraper/tiktok.py:119-121 | the aggregated list is the first page's records, then exactly the planned batch's records in some order |
| `Batch.Gather` | tiktok-scraper/tiktok.py:119-121 | a concurrently fetched batch fails exactly when the planned batch does, and then raises the first failure in arrival order; otherwise it gives the first page's records followed by each page's records whole, in arrival order, which is the batch's records as a multiset |
| `Batch.Aggregate` | tiktok-scraper/tiktok.py:119-121 | the `async for` loop extends the first page's records with each arriving page's records; when a response raises, the failure raised is that of the first failing response in arrival order |
| `TikTok.CommentsUrlRoundTrip` | tiktok-scraper/tiktok.py:89-97 | the comments URL is the base followed by `aweme_id`, `count` and `cursor`, in that order, each recoverable |
| `TikTok.CommentsUrlInjective` | tiktok-scraper/tiktok.py:115-118 | different cursors give different request URLs, so no page is requested twice |
| `TikTok.SearchUrlRoundTrip` | tiktok-scraper/tiktok.py:185-193 | the search URL carries the escaped keyword, the offset and the fixed search id, each recoverable |
| `TikTok.CommentTarget` | tiktok-scraper/tiktok.py:110-111 | a truthy `max_comments` caps the total at the smaller of the two; otherwise the total stands |
| `TikTok.CommentTargetCap` | tiktok-scraper/tiktok.py:110-111 | the target is `max_comments` exactly when it is truthy and below the total, else the total; never above the total |
| `TikTok.RangeAscending` | tiktok-scraper/tiktok.py:117 | an ascending Python `range` starts at `start`, rises by `step` and ends with the last value below `stop` |
| `TikTok.FloorDiv` | tiktok-scraper/tiktok.py:114 | the log line's `n // d` raises exactly for `d` = 0; otherwise it is the floor of n / d: `d*q <= n < d*q + d` for a positive `d`, mirrored for a negative one |
| `TikTok.FollowUpCursorsShape` | tiktok-scraper/tiktok.py:115-118 | the cursors are the positive multiples of the page size, strictly rising; there are ceil(target / page size) of them, the last within a page above the target; a target of 0 or less gives none |
| `TikTok.FollowUpCursorsMonotone` | tiktok-scraper/tiktok.py:117 | a smaller target never yields more follow-up pages |
| `TikTok.CappedFollowUps` | tiktok-scraper/tiktok.py:110-118 | with a positive cap, at most ceil(cap / page size) follow-up pages are requested, whatever total the first page reports |
| `TikTok.SelectFieldsSubscript` | tiktok-scraper/tiktok.py:153-163 | each field of a multi-select hash is `value[n]` where that subscript succeeds, and null where it would raise |
| `TikTok.ProjectCommentFields` | tiktok-scraper/tiktok.py:67-81 | a comment record holds the eight plain fields and `nickname`/`unique_id` taken from the nested `user` |
| `TikTok.ParseComments` | tiktok-scraper/tiktok.py:59-83 | succeeds exactly when the body has `comments` (a list) and `total`; one record per comment, in order, and the body's `total` |
| `TikTok.Videos` | tiktok-scraper/tiktok.py:151-152 | the kept items are items of the input whose `type` is 1 |
| `TikTok.VideosAppend` | tiktok-scraper/tiktok.py:151-152 | the filter distributes over concatenation, so kept items keep their order |
| `TikTok.VideosKeepsAllVideos` | tiktok-scraper/tiktok.py:151-152 | every item whose `type` is 1 is kept |
| `TikTok.IsVideoItemType` | tiktok-scraper/tiktok.py:152 | `item["type"] == 1` holds exactly for a dict whose `type` is 1 or True |
| `TikTok.SearchRecord` | tiktok-scraper/tiktok.py:153-166 | a type-1 item gives a record exactly when its `item` is present and not null; the record holds exactly the seven selected fields of `item`, each its JMESPath field, and `type`, copied from the item |
| `TikTok.SearchRecordsShape` | tiktok-scraper/tiktok.py:151-166 | one record per kept item, in order, each that item's record |
| `TikTok.SearchRecordsOk` | tiktok-scraper/tiktok.py:151-166 | the loop succeeds exactly when every item has a `type` and every type-1 item has a non-null `item` |
| `TikTok.ParseSearch` | tiktok-scraper/tiktok.py:146-170 | the loop computes the `parse_search` specification, including the raising lookup of `has_more` |
| `TikTok.FlattenProject` | tiktok-scraper/tiktok.py:41 | a flatten projection is a list exactly when its input is, null otherwise, and never holds null |
| `TikTok.FlattenProjectAppend` | tiktok-scraper/tiktok.py:41 | the flatten projection of a list is the projections of its parts, concatenated, so elements keep their order |
| `TikTok.FlattenProjectOne` | tiktok-scraper/tiktok.py:41 | one element contributes the non-null images of its own elements when it is a list, and its image unless null otherwise |
| `TikTok.ProjectNonNullAppend` | tiktok-scraper/tiktok.py:41 | mapping with nulls dropped works element by element, in order |
| `TikTok.ProjectNonNullOne` | tiktok-scraper/tiktok.py:41 | one element gives its image, or nothing when the image is null |
| `TikTok.ProjectPost` | tiktok-scraper/tiktok.py:30-44 | the post projection is null exactly when the post is |
| `TikTok.ProjectPostFields` | tiktok-scraper/tiktok.py:30-42 | a post record holds exactly ten fields: seven copied by name, the six named fields of `video` and of `author`, and `contents` as the flatten projection of its hashtag names |
| `TikTok.HiddenDataOk` | tiktok-scraper/tiktok.py:28-29 | hidden data is found exactly when the script exists, decodes, and every step of the key path meets the next key |
| `TikTok.ParsePostOk` | tiktok-scraper/tiktok.py:25-45 | `parse_post` succeeds exactly when the descent to `itemStruct` does, and gives null only for a null `itemStruct` |
| `TikTok.ParseProfileOk` | tiktok-scraper/tiktok.py:127-132 | `parse_profile` succeeds exactly when the script exists, decodes and holds `__DEFAULT_SCOPE__`, `webapp.user-detail` and `userInfo` as nested dict entries, and returns that `userInfo` entry |
| `TikTok.ScrapeComments` | tiktok-scraper/tiktok.py:86-124 | a failed first page is fatal and plans nothing; the follow-ups are the capped cursor requests; the result is the first page's comments, then each follow-up page's comments whole in arrival order; a failing follow-up batch raises its first failure in arrival order |
| `TikTok.SearchRequestsRoundTrip` | tiktok-scraper/tiktok.py:208-214 | each follow-up request asks, in the search session, for the keyword's page at its own cursor, both readable back from its URL |
| `TikTok.SearchFollowUpsDistinct` | tiktok-scraper/tiktok.py:208-214 | with a positive page size no search page is requested twice: the follow-up requests differ from one another and from the first page's |
| `TikTok.ScrapeSearch` | tiktok-scraper/tiktok.py:173-220 | the session navigation is sent first and a failed one is fatal; every request carries `tiktok_search_session`; the requests are the first page and the `range` cursors; the result is the first page's records, then each follow-up page's records whole in arrival order; a failing follow-up batch raises its first failure in arrival order |
| `Redfin.RentalId` | refdin-scraper/refdin.py:80-88 | a rental id is only found after a `rent/` marker, has exactly 36 characters and contains no `/` |
| `Redfin.RentalIdOf` | refdin-scraper/refdin.py:82-85 | for `prefix` `rent/` `id` `/` `rest`, with no `rent/` in `prefix` or within `id` `/`, the id is `id` exactly when it has 36 characters, whatever `rest` holds (a second `rent/` included) |
| `Redfin.ParsePropertyForRent` | refdin-scraper/refdin.py:77-88 | a missing `content` attribute raises; otherwise the result is the rental id or none, never an exception |
| `Redfin.FloorPlansUrlRoundTrip` | refdin-scraper/refdin.py:130-132 | the rental id can be read back out of its floor-plans URL |
| `Redfin.ApiUrlsCount` | refdin-scraper/refdin.py:126-134 | one follow-up URL per input, less the inputs without a usable id |
| `Redfin.ApiUrlsAppend` | refdin-scraper/refdin.py:126-132 | the planned URLs keep the input order |
| `Redfin.ApiUrlsMembers` | refdin-scraper/refdin.py:126-132 | a URL is planned exactly when it is the floor-plans URL of a usable id |
| `Redfin.RentalIds` | refdin-scraper/refdin.py:126-128 | the page loop succeeds exactly when every page fetches and parses, and then gives each page's id in order |
| `Redfin.CollectDecoded` | refdin-scraper/refdin.py:134-136 | the floor-plans batch yields one property per URL, the decoded body of its response |
| `Redfin.ScrapePropertyForRent` | refdin-scraper/refdin.py:122-138 | the planned URLs are those of the usable ids in input order; the properties are the decoded floor-plans responses in arrival order, as many as the inputs less those without an id; a failing batch raises its first failure in arrival order |
| `Redfin.SearchParameters` | refdin-scraper/refdin.py:25-33 | a missing `href` or a missing `gis-csv?` marker raises; otherwise the parameters are marker-free |
| `Redfin.SearchApiUrl` | refdin-scraper/refdin.py:97-99 | the API URL is `https://www.redfin.com/stingray/api/gis?` followed by the parameters; without parameters the URL step raises what reading them raised |
| `Redfin.SearchApiUrlOf` | refdin-scraper/refdin.py:28-33 | a download link `prefix` `gis-csv?` `query`, with no further marker, gives the parameters `query` and the API URL `https://www.redfin.com/stingray/api/gis?` + `query` |
| `Redfin.SearchApiUrlUpToNext` | refdin-scraper/refdin.py:28-33 | with a second `gis-csv?` after `query`, the parameters stop at it: the API URL is built from `query` alone |
| `Redfin.ParseSearchApi` | refdin-scraper/refdin.py:36-38 | succeeds exactly when the decoded document holds `payload.homes`, and gives that value |
| `Redfin.ParseSearchApiPrefixed` | refdin-scraper/refdin.py:38 | a response that is `{}&&` followed by a body without it parses exactly as the body |
| `Redfin.ScrapeSearch` | refdin-scraper/refdin.py:91-106 | a missing download link or marker makes the scrape fail; once the link and the API response are fetched, the result is `parse_search_api` of the response fetched from the URL built from the link, except that homes without a length (null, a number, a boolean) fail with `NotSized` at the `len()` of the success log (:105); a successful result always has a length |
| `Redfin.ScrapeSearchOf` | refdin-scraper/refdin.py:94-105 | end to end, the API is asked for the download link's query and the prefixed response yields the homes of its body when they have a length, `NotSized` when they do not, and the body's parse error otherwise |
| `Redfin.FeatureTexts` | refdin-scraper/refdin.py:62-64 | one text per feature, in order, each the joined text nodes of that feature with only their surrounding whitespace removed |
| `Redfin.FeatureMapKeys` | refdin-scraper/refdin.py:58-64 | the labels of the feature map are exactly the labels of the blocks |
| `Redfin.FeatureMapLastWins` | refdin-scraper/refdin.py:58-64 | a label holds the texts of the last block that carries it |
| `Redfin.BuildFeatures` | refdin-scraper/refdin.py:58-64 | the loop builds the feature map |
| `Redfin.AddressParts` | refdin-scraper/refdin.py:45-48 | the address is the street text, a space right after it, then the city text, each at a fixed position whatever spaces the street text holds |
| `Redfin.ImageSources` | refdin-scraper/refdin.py:50-53 | the photos' `src` values, in order; a photo without one raises |
| `Redfin.ParsePropertyForSale` | refdin-scraper/refdin.py:41-74 | only a photo without `src` raises; the record holds the address, the joined texts, the photos in order, the details and the feature map |

## Left out

- Network I/O, the scraping client and its options are out of scope. The TikTok requests record the options
  the scraper sets. The Redfin requests are their URLs alone; their `asp` and `country` options are not
  modelled.
- Concurrency is not modelled beyond arrival order. The arrival order itself is a parameter, so the model
  fixes no order among follow-up pages; each page's records stay together and in order.
- `json.loads`, XPath/CSS selection and `quote`/`urlencode` percent-escaping are not modelled. They are
  parameters or inputs: the decoded body, the selected texts and attributes, and functions `quote` and
  `quotePlus`.
- Iterating a JSON value that is not a list is reported as `NotAnArray`. Python would iterate a dict's keys
  or a string's characters.
- In `scrape_comments`, a `total` that is not a number or boolean is reported as `NotANumber`. Python raises
  a TypeError at the cap's comparison or at the log line's `//`. The log lines at `tiktok-scraper/tiktok.py:114`
  and `:207` are modelled only for this: their `//` runs before `range`, so a page size of 0 raises
  `ZeroDivision` and the `range` error is never reached.
- `Redfin.ParsePropertyForSale`: each key-detail selection is given as its text nodes; the order in which the
  fields are evaluated is not modelled, as only the photo `src` lookup can raise.
- `scrape_posts`, `scrape_profiles` and `scrape_property_for_sale` are not modelled as operations. They
  fetch a batch and append one parsed record per response, the same fetch-and-append pattern as
  `Batch.Aggregate`. Only their parsers `TikTok.ParsePost`, `TikTok.ParseProfile` and
  `Redfin.ParsePropertyForSale` are modelled.
- The text of the log messages, the `print` in `parse_property_for_rent` and the environment-variable key are not
  modelled. Of the `len()` calls in the success logs, only the one at `refdin-scraper/refdin.py:105` can raise,
  because the others measure lists the code has built; `Redfin.ScrapeSearch` models it as `NotSized`.
- `linkedin-scraper/run.py` and `immobilienscout24-scraper/run.py` are not part of this model. They only call
  other scrapers and write files.
