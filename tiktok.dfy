/** The TikTok scraper: the comments and search API URLs, the cap rule and cursor
    ranges of their pagination, the shaping of comments, search results and posts
    into records, and the two paginated scrape operations built from them. */
module TikTok {
  import opened Values
  import opened Text
  import opened Batch

  const CommentsBase := "https://www.tiktok.com/api/comment/list/?"
  const SearchBase := "https://www.tiktok.com/api/search/general/full/?"
  const SearchId := "2024022710453229C796B3BF936930E248"
  const SearchPage := "https://www.tiktok.com/search?q="
  /** The session name `obtain_session` attaches to every search request. */
  const SearchSessionId := "tiktok_search_session"

  /** One request handed to the fetch collaborator: the URL and the options the
      scraper sets (`asp` and `country` from the base configuration, the JSON
      content-type header, JavaScript rendering, the session name). */
  datatype Request = Request(url: string, asp: bool, country: string, jsonHeader: bool,
                             renderJs: bool, session: Option<string>)

  /** An API request: the base configuration plus the JSON content-type header. */
  function ApiRequest(url: string, session: Option<string>): Request
  {
    Request(url, true, "US", true, false, session)
  }

  // ---------------------------------------------------------------------------
  // API URLs

  /** `form_api_url` of `scrape_comments`: the base URL, then `urlencode` of the
      three parameters in their fixed order; `urlencode` writes an integer as
      `str(i)`, which needs no escaping. */
  function CommentsUrl(postId: int, count: int, cursor: int): string
  {
    CommentsBase + Urlencode([("aweme_id", IntToDecimal(postId)), ("count", IntToDecimal(count)),
                              ("cursor", IntToDecimal(cursor))])
  }

  /** The query of `url` after `base`, if `url` starts with `base`. */
  function QueryAfter(url: string, base: string): Option<seq<(string, string)>>
  {
    if |url| < |base| || url[..|base|] != base then None else ParseQuery(url[|base|..])
  }

  /** Reads the post id, page size and cursor back out of a comments URL. */
  function ParseCommentsUrl(url: string): Option<(int, int, int)>
  {
    match QueryAfter(url, CommentsBase)
    case None => None
    case Some(q) =>
      if |q| != 3 || q[0].0 != "aweme_id" || q[1].0 != "count" || q[2].0 != "cursor" then None
      else match (ParseInt(q[0].1), ParseInt(q[1].1), ParseInt(q[2].1))
        case (Some(p), Some(c), Some(k)) => Some((p, c, k))
        case _ => None
  }

  lemma QueryAfterRoundTrip(base: string, params: seq<(string, string)>)
    requires |params| >= 1
    requires forall i :: 0 <= i < |params| ==> Plain(params[i].0) && Plain(params[i].1)
    ensures QueryAfter(base + Urlencode(params), base) == Some(params)
  {
    var url := base + Urlencode(params);
    assert url[..|base|] == base && url[|base|..] == Urlencode(params);
    UrlencodeRoundTrip(params);
  }

  /** The comments URL carries its three parameters recoverably, in the order
      `aweme_id`, `count`, `cursor`. */
  lemma CommentsUrlRoundTrip(postId: int, count: int, cursor: int)
    ensures ParseCommentsUrl(CommentsUrl(postId, count, cursor)) == Some((postId, count, cursor))
  {
    var params := [("aweme_id", IntToDecimal(postId)), ("count", IntToDecimal(count)),
                   ("cursor", IntToDecimal(cursor))];
    IntDecimalChars(postId);
    IntDecimalChars(count);
    IntDecimalChars(cursor);
    assert Plain("aweme_id") && Plain("count") && Plain("cursor");
    QueryAfterRoundTrip(CommentsBase, params);
    IntDecimalRoundTrip(postId);
    IntDecimalRoundTrip(count);
    IntDecimalRoundTrip(cursor);
  }

  /** Two comments URLs of one post and page size differ whenever their cursors do,
      so no follow-up page repeats another page's request. */
  lemma CommentsUrlInjective(postId: int, count: int, c1: int, c2: int)
    requires c1 != c2
    ensures CommentsUrl(postId, count, c1) != CommentsUrl(postId, count, c2)
  {
    CommentsUrlRoundTrip(postId, count, c1);
    CommentsUrlRoundTrip(postId, count, c2);
  }

  /** `form_api_url` of `scrape_search`. `encodedKeyword` is the keyword as
      `urlencode` writes it after `quote` has already escaped it once. */
  function SearchUrl(encodedKeyword: string, cursor: int): string
  {
    SearchBase + Urlencode([("keyword", encodedKeyword), ("offset", IntToDecimal(cursor)),
                            ("search_id", SearchId)])
  }

  /** Reads the encoded keyword and the offset back out of a search URL. */
  function ParseSearchUrl(url: string): Option<(string, int)>
  {
    match QueryAfter(url, SearchBase)
    case None => None
    case Some(q) =>
      if |q| != 3 || q[0].0 != "keyword" || q[1].0 != "offset" || q[2] != ("search_id", SearchId) then None
      else match ParseInt(q[1].1)
        case Some(k) => Some((q[0].1, k))
        case None => None
  }

  /** The search URL carries the keyword and offset recoverably, provided the
      encoded keyword holds no query delimiter (which percent-encoding ensures). */
  lemma SearchUrlRoundTrip(encodedKeyword: string, cursor: int)
    requires Plain(encodedKeyword)
    ensures ParseSearchUrl(SearchUrl(encodedKeyword, cursor)) == Some((encodedKeyword, cursor))
  {
    var params := [("keyword", encodedKeyword), ("offset", IntToDecimal(cursor)), ("search_id", SearchId)];
    IntDecimalChars(cursor);
    SearchIdPlain();
    assert Plain("keyword") && Plain("offset") && Plain("search_id");
    QueryAfterRoundTrip(SearchBase, params);
    IntDecimalRoundTrip(cursor);
  }

  lemma SearchIdPlain()
    ensures Plain(SearchId)
  {
    forall i | 0 <= i < |SearchId| ensures SearchId[i] != '&' && SearchId[i] != '=' {
      assert '0' <= SearchId[i] <= '9' || 'A' <= SearchId[i] <= 'F';
    }
  }

  // ---------------------------------------------------------------------------
  // Pagination

  /** Python truthiness of `max_comments`: given and not zero. */
  predicate Truthy(max: Option<int>)
  {
    max.Some? && max.value != 0
  }

  function Min(a: int, b: int): int
  {
    if a <= b then a else b
  }

  /** The cap rule of `scrape_comments`: `max_comments` replaces the discovered
      total only when it is truthy and smaller. */
  function CommentTarget(total: int, maxComments: Option<int>): (target: int)
    ensures Truthy(maxComments) ==> target == Min(total, maxComments.value)
    ensures !Truthy(maxComments) ==> target == total
  {
    if maxComments.Some? && maxComments.value != 0 && maxComments.value < total then maxComments.value
    else total
  }

  /** The target is `max_comments` exactly when the cap applies, and never above the
      discovered total. */
  lemma CommentTargetCap(total: int, maxComments: Option<int>)
    ensures CommentTarget(total, maxComments) <= total
    ensures Truthy(maxComments) && maxComments.value < total ==> CommentTarget(total, maxComments) == maxComments.value
    ensures !(Truthy(maxComments) && maxComments.value < total) ==> CommentTarget(total, maxComments) == total
  {
  }

  /** The elements of Python's `range(start, stop, step)` for a non-zero step. */
  function RangeSeq(start: int, stop: int, step: int): seq<int>
    requires step != 0
    decreases if step > 0 then stop - start else start - stop
  {
    if (step > 0 && start < stop) || (step < 0 && start > stop) then [start] + RangeSeq(start + step, stop, step)
    else []
  }

  /** Python's `range(start, stop, step)`, which raises for a zero step. */
  function PyRange(start: int, stop: int, step: int): Result<seq<int>>
  {
    if step == 0 then Err(ZeroStep) else Ok(RangeSeq(start, stop, step))
  }

  /** Python's floor division `n // d`, which raises ZeroDivisionError for a zero
      divisor. */
  function FloorDiv(n: int, d: int): (r: Result<int>)
    ensures r.Err? <==> d == 0
    ensures r.Ok? && d > 0 ==> d * r.value <= n < d * r.value + d
    ensures r.Ok? && d < 0 ==> d * r.value + d < n <= d * r.value
  {
    if d == 0 then Err(ZeroDivision)
    else if d > 0 then Ok(n / d)
    else Ok((-n) / (-d))
  }

  /** An ascending range starts at `start`, rises by `step` and ends with the last
      value below `stop`. */
  lemma {:induction false} RangeAscending(start: int, stop: int, step: int)
    requires step > 0
    ensures var r := RangeSeq(start, stop, step);
      (forall i :: 0 <= i < |r| ==> r[i] == start + i * step) &&
      (|r| > 0 <==> start < stop) &&
      (|r| > 0 ==> r[|r| - 1] < stop <= r[|r| - 1] + step)
    decreases stop - start
  {
    if start < stop {
      RangeAscending(start + step, stop, step);
      var r := RangeSeq(start, stop, step);
      var rest := RangeSeq(start + step, stop, step);
      assert r == [start] + rest;
      forall i | 1 <= i < |r| ensures r[i] == start + i * step {
        assert r[i] == rest[i - 1] == start + step + (i - 1) * step;
      }
    }
  }

  /** The follow-up cursors `range(page_size, target + page_size, page_size)`. */
  function FollowUpCursors(pageSize: int, target: int): Result<seq<int>>
  {
    PyRange(pageSize, target + pageSize, pageSize)
  }

  lemma DivideBetween(a: int, b: int, q: int)
    requires b > 0 && q * b <= a < q * b + b
    ensures a / b == q
  {
    var d, m := a / b, a % b;
    assert a == d * b + m && 0 <= m < b;
    assert (d - q) * b == d * b - q * b;
    MultiplyLess(d - q, 1, b);
    MultiplyLess(-1, d - q, b);
  }

  /** For a positive page size: the cursors are the positive multiples of the page
      size, rising strictly, so the first page's cursor 0 never comes again; there
      are ceil(target / page size) of them, the last at or beyond the target and
      within a page of it; a target of zero or less builds no follow-up page. */
  lemma FollowUpCursorsShape(pageSize: int, target: int)
    requires pageSize > 0
    ensures FollowUpCursors(pageSize, target).Ok?
    ensures var c := FollowUpCursors(pageSize, target).value;
      (forall i :: 0 <= i < |c| ==> c[i] == (i + 1) * pageSize) &&
      (forall i, j :: 0 <= i < j < |c| ==> 0 < c[i] < c[j]) &&
      (target <= 0 ==> c == []) &&
      (target > 0 ==> |c| == (target + pageSize - 1) / pageSize && target <= c[|c| - 1] < target + pageSize)
  {
    CursorMultiples(pageSize, target);
    var c := FollowUpCursors(pageSize, target).value;
    forall i, j | 0 <= i < j < |c| ensures 0 < c[i] < c[j] {
      MultiplyMore(0, i + 1, pageSize);
      MultiplyMore(i + 1, j + 1, pageSize);
    }
    if target > 0 {
      var n := |c|;
      MultiplySucc(n - 1, pageSize);
      DivideBetween(target + pageSize - 1, pageSize, n);
    }
  }

  /** The cursors are the multiples of the page size from the first on, the last
      one the first to pass `target`. */
  lemma CursorMultiples(pageSize: int, target: int)
    requires pageSize > 0
    ensures FollowUpCursors(pageSize, target).Ok?
    ensures var c := FollowUpCursors(pageSize, target).value;
      (forall i :: 0 <= i < |c| ==> c[i] == (i + 1) * pageSize) &&
      (|c| > 0 <==> target > 0) &&
      (|c| > 0 ==> c[|c| - 1] < target + pageSize <= c[|c| - 1] + pageSize)
  {
    RangeAscending(pageSize, target + pageSize, pageSize);
    var c := FollowUpCursors(pageSize, target).value;
    forall i | 0 <= i < |c| ensures c[i] == (i + 1) * pageSize {
      MultiplySucc(i, pageSize);
    }
  }

  lemma MultiplySucc(i: int, m: int)
    ensures (i + 1) * m == m + i * m
  {
  }

  lemma MultiplyMore(x: int, y: int, m: int)
    requires m > 0 && x < y
    ensures x * m < y * m
  {
  }

  lemma MultiplyLess(x: int, y: int, m: int)
    requires m > 0 && x * m < y * m
    ensures x < y
  {
  }

  /** A smaller target never needs more follow-up pages. */
  lemma FollowUpCursorsMonotone(pageSize: int, t1: int, t2: int)
    requires pageSize > 0 && t1 <= t2
    ensures |FollowUpCursors(pageSize, t1).value| <= |FollowUpCursors(pageSize, t2).value|
  {
    FollowUpCursorsShape(pageSize, t1);
    FollowUpCursorsShape(pageSize, t2);
    var c1, c2 := FollowUpCursors(pageSize, t1).value, FollowUpCursors(pageSize, t2).value;
    if |c1| > 0 && |c2| > 0 {
      assert c1[|c1| - 1] - pageSize < t1 <= t2 <= c2[|c2| - 1];
      assert (|c1| - 1) * pageSize == c1[|c1| - 1] - pageSize;
      MultiplyLess(|c1| - 1, |c2|, pageSize);
    }
  }

  /** With a truthy, positive `max_comments`, no more than ceil(max / page size)
      follow-up pages are requested, whatever total the first page reports. */
  lemma CappedFollowUps(pageSize: int, total: int, maxComments: Option<int>)
    requires pageSize > 0 && Truthy(maxComments) && maxComments.value > 0
    ensures |FollowUpCursors(pageSize, CommentTarget(total, maxComments)).value|
              <= (maxComments.value + pageSize - 1) / pageSize
  {
    FollowUpCursorsMonotone(pageSize, CommentTarget(total, maxComments), maxComments.value);
    FollowUpCursorsShape(pageSize, maxComments.value);
  }

  // ---------------------------------------------------------------------------
  // Record shaping

  /** A JMESPath multi-select hash `{n: n, ...}` over `names`: null stays null, any
      other value gives each name its field (null where there is none). */
  function SelectFields(value: Json, names: set<string>): (r: Json)
    ensures value == JNull ==> r == JNull
    ensures value != JNull ==>
              r.JObj? && r.fields.Keys == names && (forall n :: n in names ==> r.fields[n] == Pick(value, n))
  {
    if value == JNull then JNull else JObj(map n | n in names :: Pick(value, n))
  }

  /** Each field of a multi-select hash on a value other than null is `value[n]`
      where that subscript succeeds, and null where it would raise. */
  lemma SelectFieldsSubscript(value: Json, names: set<string>)
    requires value != JNull
    ensures forall n :: n in names ==>
              SelectFields(value, names).fields[n] ==
                (if Subscript(value, n).Ok? then Subscript(value, n).value else JNull)
  {
    forall n | n in names {
      SubscriptPick(value, n);
    }
  }

  /** The fields `parse_comments` copies from a comment under their own names. */
  const CommentFields: set<string> :=
    {"text", "comment_language", "digg_count", "reply_comment_total", "author_pin",
     "create_time", "cid", "aweme_id"}

  /** The JMESPath projection `parse_comments` applies to one comment. */
  function ProjectComment(comment: Json): Json
  {
    if comment == JNull then JNull
    else JObj(SelectFields(comment, CommentFields).fields
           ["nickname" := Pick(Pick(comment, "user"), "nickname")]
           ["unique_id" := Pick(Pick(comment, "user"), "unique_id")])
  }

  /** A comment record holds the eight plain fields under their own names and the
      author's `nickname` and `unique_id` taken from the nested `user` object. */
  lemma ProjectCommentFields(comment: Json)
    requires comment != JNull
    ensures var r := ProjectComment(comment);
      r.JObj? && r.fields.Keys == CommentFields + {"nickname", "unique_id"} &&
      (forall n :: n in CommentFields ==> r.fields[n] == Pick(comment, n)) &&
      r.fields["nickname"] == Pick(Pick(comment, "user"), "nickname") &&
      r.fields["unique_id"] == Pick(Pick(comment, "user"), "unique_id")
  {
    assert "nickname" !in CommentFields && "unique_id" !in CommentFields;
  }

  /** What `parse_comments` returns. */
  datatype CommentsPage = CommentsPage(comments: seq<Json>, total: Json)

  /** `parse_comments` on a decoded response body. */
  function ParsedComments(payload: Json): Result<CommentsPage>
  {
    match Subscript(payload, "comments")
    case Err(e) => Err(e)
    case Ok(list) =>
      match Subscript(payload, "total")
      case Err(e) => Err(e)
      case Ok(total) =>
        if !list.JArr? then Err(NotAnArray)
        else Ok(CommentsPage(seq(|list.items|, i requires 0 <= i < |list.items| => ProjectComment(list.items[i])), total))
  }

  /** `parse_comments(response)["comments"]`, the records a follow-up page adds. */
  function CommentRecords(payload: Json): Result<seq<Json>>
  {
    match ParsedComments(payload)
    case Err(e) => Err(e)
    case Ok(page) => Ok(page.comments)
  }

  /** `parse_comments`: one record per comment of the body, in order, appended to
      `parsed_comments` one at a time; the total is the body's `total`. */
  method ParseComments(payload: Json) returns (r: Result<CommentsPage>)
    ensures r == ParsedComments(payload)
    ensures r.Ok? <==> payload.JObj? && "comments" in payload.fields && "total" in payload.fields &&
                       payload.fields["comments"].JArr?
    ensures r.Ok? ==> var items := payload.fields["comments"].items;
              |r.value.comments| == |items| &&
              (forall i :: 0 <= i < |items| ==> r.value.comments[i] == ProjectComment(items[i])) &&
              r.value.total == payload.fields["total"]
  {
    var list := Subscript(payload, "comments");
    if list.Err? {
      return Err(list.error);
    }
    var total := Subscript(payload, "total");
    if total.Err? {
      return Err(total.error);
    }
    if !list.value.JArr? {
      return Err(NotAnArray);
    }
    var items := list.value.items;
    var parsed: seq<Json> := [];
    var i := 0;
    while i < |items|
      invariant 0 <= i <= |items|
      invariant |parsed| == i
      invariant forall k :: 0 <= k < i ==> parsed[k] == ProjectComment(items[k])
    {
      parsed := parsed + [ProjectComment(items[i])];
      i := i + 1;
    }
    r := Ok(CommentsPage(parsed, total.value));
    assert parsed == seq(|items|, k requires 0 <= k < |items| => ProjectComment(items[k]));
  }

  /** The fields `parse_search` copies from a search item's `item`. */
  const SearchFields: set<string> := {"id", "desc", "createTime", "video", "author", "stats", "authorStats"}

  /** `item["type"] == 1` in Python, where `True == 1` as well. */
  predicate IsVideoItem(item: Json)
  {
    Subscript(item, "type").Ok? && AsInt(Subscript(item, "type").value) == Some(1)
  }

  /** `item["type"] == 1` holds exactly for a dict whose `type` is 1 or True. */
  lemma IsVideoItemType(item: Json)
    ensures IsVideoItem(item) <==>
              item.JObj? && "type" in item.fields && (item.fields["type"] == JInt(1) || item.fields["type"] == JBool(true))
  {
  }

  /** The record `parse_search` builds from a type-1 item: the projection of its
      `item`, tagged with the item's `type`; a null `item` makes the tagging raise. */
  function SearchRecord(item: Json): (r: Result<Json>)
    requires IsVideoItem(item)
    ensures r.Ok? <==> Subscript(item, "item").Ok? && Subscript(item, "item").value != JNull
    ensures r.Ok? ==> r.value.JObj? && "type" in r.value.fields && AsInt(r.value.fields["type"]) == Some(1)
    ensures r.Ok? ==> r.value.fields.Keys == SearchFields + {"type"} && r.value.fields["type"] == item.fields["type"]
    ensures r.Ok? ==> forall n :: n in SearchFields ==> r.value.fields[n] == Pick(item.fields["item"], n)
  {
    assert "type" !in SearchFields;
    match Subscript(item, "item")
    case Err(e) => Err(e)
    case Ok(inner) =>
      if inner == JNull then Err(NullRecord)
      else Ok(JObj(SelectFields(inner, SearchFields).fields["type" := item.fields["type"]]))
  }

  /** The loop of `parse_search` over `items`. */
  function SearchRecords(items: seq<Json>): Result<seq<Json>>
    decreases |items|
  {
    if items == [] then Ok([])
    else if Subscript(items[0], "type").Err? then Err(Subscript(items[0], "type").error)
    else if IsVideoItem(items[0]) then
      match SearchRecord(items[0])
      case Err(e) => Err(e)
      case Ok(record) =>
        match SearchRecords(items[1..])
        case Err(e) => Err(e)
        case Ok(rest) => Ok([record] + rest)
    else SearchRecords(items[1..])
  }

  /** `parse_search` on a decoded response body. The unused `has_more` is still
      looked up, so a body without it raises. */
  function ParsedSearch(payload: Json): Result<seq<Json>>
  {
    match Subscript(payload, "data")
    case Err(e) => Err(e)
    case Ok(list) =>
      if !list.JArr? then Err(NotAnArray)
      else match SearchRecords(list.items)
        case Err(e) => Err(e)
        case Ok(records) =>
          if Subscript(payload, "has_more").Err? then Err(Subscript(payload, "has_more").error)
          else Ok(records)
  }

  /** The items `parse_search` keeps: those whose `type` is 1, in source order. */
  function Videos(items: seq<Json>): (r: seq<Json>)
    ensures |r| <= |items|
    ensures forall k :: 0 <= k < |r| ==> r[k] in items && IsVideoItem(r[k])
    decreases |items|
  {
    if items == [] then []
    else if IsVideoItem(items[0]) then [items[0]] + Videos(items[1..])
    else Videos(items[1..])
  }

  /** Filtering distributes over concatenation, which with the one-item cases pins
      the filter down: kept items keep their relative order. */
  lemma {:induction false} VideosAppend(a: seq<Json>, b: seq<Json>)
    ensures Videos(a + b) == Videos(a) + Videos(b)
    decreases |a|
  {
    if a == [] {
      assert a + b == b;
    } else {
      assert (a + b)[0] == a[0];
      assert (a + b)[1..] == a[1..] + b;
      VideosAppend(a[1..], b);
    }
  }

  /** Every item of the kept list is a type-1 item, and every type-1 item is kept. */
  lemma {:induction false} VideosKeepsAllVideos(items: seq<Json>, i: nat)
    requires i < |items| && IsVideoItem(items[i])
    ensures items[i] in Videos(items)
    decreases |items|
  {
    if i > 0 {
      VideosKeepsAllVideos(items[1..], i - 1);
    }
  }

  /** When `parse_search`'s loop succeeds, its records are the kept items'
      records, one each and in order. */
  lemma {:induction false} SearchRecordsShape(items: seq<Json>)
    requires SearchRecords(items).Ok?
    ensures |SearchRecords(items).value| == |Videos(items)|
    ensures forall i :: 0 <= i < |Videos(items)| ==> SearchRecord(Videos(items)[i]) == Ok(SearchRecords(items).value[i])
    decreases |items|
  {
    if items != [] {
      SearchRecordsShape(items[1..]);
      var rest := SearchRecords(items[1..]).value;
      if IsVideoItem(items[0]) {
        assert SearchRecords(items).value == [SearchRecord(items[0]).value] + rest;
        assert Videos(items) == [items[0]] + Videos(items[1..]);
      }
    }
  }

  /** The loop of `parse_search` succeeds exactly when every item has a `type` and
      every type-1 item has a non-null `item`. */
  lemma {:induction false} SearchRecordsOk(items: seq<Json>)
    ensures SearchRecords(items).Ok? <==>
              forall i :: 0 <= i < |items| ==>
                Subscript(items[i], "type").Ok? && (IsVideoItem(items[i]) ==> SearchRecord(items[i]).Ok?)
    decreases |items|
  {
    if items != [] {
      SearchRecordsOk(items[1..]);
      assert forall i :: 1 <= i < |items| ==> items[i] == items[1..][i - 1];
    }
  }

  /** `parse_search`: walks the body's `data`, appending a record for each type-1
      item to `parsed_search`. */
  method ParseSearch(payload: Json) returns (r: Result<seq<Json>>)
    ensures r == ParsedSearch(payload)
  {
    var list := Subscript(payload, "data");
    if list.Err? {
      return Err(list.error);
    }
    if !list.value.JArr? {
      return Err(NotAnArray);
    }
    var items := list.value.items;
    var parsed: seq<Json> := [];
    var i := 0;
    assert items[0..] == items;
    if SearchRecords(items).Ok? {
      assert [] + SearchRecords(items).value == SearchRecords(items).value;
    }
    while i < |items|
      invariant 0 <= i <= |items|
      invariant SearchRecords(items) ==
                  match SearchRecords(items[i..])
                  case Err(e) => Err(e)
                  case Ok(rest) => Ok(parsed + rest)
    {
      assert items[i..][0] == items[i] && items[i..][1..] == items[i + 1..];
      var kind := Subscript(items[i], "type");
      if kind.Err? {
        return Err(kind.error);
      }
      if AsInt(kind.value) == Some(1) {
        var record := SearchRecord(items[i]);
        if record.Err? {
          return Err(record.error);
        }
        if SearchRecords(items[i + 1..]).Ok? {
          assert parsed + ([record.value] + SearchRecords(items[i + 1..]).value) ==
                 (parsed + [record.value]) + SearchRecords(items[i + 1..]).value;
        }
        parsed := parsed + [record.value];
      }
      i := i + 1;
    }
    assert items[i..] == [];
    assert parsed + [] == parsed;
    var more := Subscript(payload, "has_more");
    if more.Err? {
      return Err(more.error);
    }
    r := Ok(parsed);
  }

  /** JMESPath's flatten projection `value[].f`: null unless `value` is a list;
      otherwise the list with nested lists spliced in one level, mapped by `f`,
      with null results dropped. */
  function FlattenProject(value: Json, f: Json -> Json): (r: Json)
    ensures r.JArr? <==> value.JArr?
    ensures !value.JArr? ==> r == JNull
    ensures r.JArr? ==> forall x :: x in r.items ==> x != JNull
  {
    if !value.JArr? then JNull else JArr(ProjectNonNull(Flatten(value.items), f))
  }

  function Flatten(items: seq<Json>): seq<Json>
    decreases |items|
  {
    if items == [] then []
    else (if items[0].JArr? then items[0].items else [items[0]]) + Flatten(items[1..])
  }

  function ProjectNonNull(items: seq<Json>, f: Json -> Json): (r: seq<Json>)
    ensures |r| <= |items|
    ensures forall x :: x in r ==> x != JNull
    decreases |items|
  {
    if items == [] then []
    else if f(items[0]) == JNull then ProjectNonNull(items[1..], f)
    else [f(items[0])] + ProjectNonNull(items[1..], f)
  }

  lemma {:induction false} FlattenAppend(a: seq<Json>, b: seq<Json>)
    ensures Flatten(a + b) == Flatten(a) + Flatten(b)
    decreases |a|
  {
    if a == [] {
      assert a + b == b;
    } else {
      assert (a + b)[0] == a[0];
      assert (a + b)[1..] == a[1..] + b;
      FlattenAppend(a[1..], b);
    }
  }

  /** Mapping and dropping nulls works element by element: the images of a list are
      its parts' images, concatenated in order. */
  lemma {:induction false} ProjectNonNullAppend(a: seq<Json>, b: seq<Json>, f: Json -> Json)
    ensures ProjectNonNull(a + b, f) == ProjectNonNull(a, f) + ProjectNonNull(b, f)
    decreases |a|
  {
    if a == [] {
      assert a + b == b;
    } else {
      assert (a + b)[0] == a[0];
      assert (a + b)[1..] == a[1..] + b;
      ProjectNonNullAppend(a[1..], b, f);
    }
  }

  /** One element gives its image, unless that is null. */
  lemma ProjectNonNullOne(y: Json, f: Json -> Json)
    ensures ProjectNonNull([y], f) == if f(y) == JNull then [] else [f(y)]
  {
    assert [y][1..] == [];
  }

  /** The flatten projection of a list is that of its parts, concatenated: the
      elements keep their order. */
  lemma FlattenProjectAppend(a: seq<Json>, b: seq<Json>, f: Json -> Json)
    ensures FlattenProject(JArr(a + b), f).items ==
              FlattenProject(JArr(a), f).items + FlattenProject(JArr(b), f).items
  {
    FlattenAppend(a, b);
    ProjectNonNullAppend(Flatten(a), Flatten(b), f);
  }

  /** One element of the projected list: a nested list contributes the non-null
      images of its own elements, in order; anything else contributes its image,
      unless that is null. */
  lemma FlattenProjectOne(x: Json, f: Json -> Json)
    ensures x.JArr? ==> FlattenProject(JArr([x]), f).items == ProjectNonNull(x.items, f)
    ensures !x.JArr? ==> FlattenProject(JArr([x]), f).items == if f(x) == JNull then [] else [f(x)]
  {
    assert [x][1..] == [];
    assert Flatten([x]) == (if x.JArr? then x.items else [x]) + [];
    assert x.JArr? ==> x.items + [] == x.items;
    ProjectNonNullOne(x, f);
  }

  /** The fields `parse_post` copies from a post under their own names. */
  const PostFields: set<string> :=
    {"id", "desc", "createTime", "stats", "locationCreated", "diversificationLabels", "suggestedWords"}
  const VideoFields: set<string> := {"duration", "ratio", "cover", "playAddr", "downloadAddr", "bitrate"}
  const AuthorFields: set<string> := {"id", "uniqueId", "nickname", "avatarLarger", "signature", "verified"}

  /** `{hashtagName: hashtagName}` applied to one entry of `textExtra`. */
  function Hashtag(entry: Json): Json
  {
    SelectFields(entry, {"hashtagName"})
  }

  /** `{textExtra: textExtra[].{hashtagName: hashtagName}}` applied to one entry of
      `contents`. */
  function ContentEntry(entry: Json): Json
  {
    if entry == JNull then JNull else JObj(map["textExtra" := FlattenProject(Pick(entry, "textExtra"), Hashtag)])
  }

  /** The JMESPath projection `parse_post` applies to a post's `itemStruct`. */
  function ProjectPost(post: Json): (r: Json)
    ensures post == JNull <==> r == JNull
  {
    if post == JNull then JNull
    else JObj(SelectFields(post, PostFields).fields
           ["video" := SelectFields(Pick(post, "video"), VideoFields)]
           ["author" := SelectFields(Pick(post, "author"), AuthorFields)]
           ["contents" := FlattenProject(Pick(post, "contents"), ContentEntry)])
  }

  /** A post record holds ten fields: seven copied under their own names, the six
      named fields of `video` and of `author`, and the hashtag names of each entry
      of `contents`. */
  lemma ProjectPostFields(post: Json)
    requires post != JNull
    ensures ProjectPost(post).JObj?
    ensures ProjectPost(post).fields.Keys == PostFields + {"video", "author", "contents"}
    ensures forall n :: n in PostFields ==> ProjectPost(post).fields[n] == Pick(post, n)
    ensures ProjectPost(post).fields["video"] == SelectFields(Pick(post, "video"), VideoFields)
    ensures ProjectPost(post).fields["author"] == SelectFields(Pick(post, "author"), AuthorFields)
    ensures ProjectPost(post).fields["contents"] == FlattenProject(Pick(post, "contents"), ContentEntry)
  {
    assert "video" !in PostFields && "author" !in PostFields && "contents" !in PostFields;
  }

  /** Where the hidden data puts a post and a profile. */
  const PostPath := ["__DEFAULT_SCOPE__", "webapp.video-detail", "itemInfo", "itemStruct"]
  const ProfilePath := ["__DEFAULT_SCOPE__", "webapp.user-detail", "userInfo"]

  /** The hidden rehydration script (None when the selector finds no such node),
      decoded by `json.loads` (`decode`) and descended along `path`. */
  function HiddenData(script: Option<string>, decode: string -> Result<Json>, path: seq<string>): Result<Json>
  {
    match script
    case None => Err(MissingNode)
    case Some(text) =>
      match decode(text)
      case Err(e) => Err(e)
      case Ok(document) => Descend(document, path)
  }

  /** `parse_post`. */
  function ParsePost(script: Option<string>, decode: string -> Result<Json>): Result<Json>
  {
    match HiddenData(script, decode, PostPath)
    case Err(e) => Err(e)
    case Ok(post) => Ok(ProjectPost(post))
  }

  /** `parse_profile`. */
  function ParseProfile(script: Option<string>, decode: string -> Result<Json>): Result<Json>
  {
    HiddenData(script, decode, ProfilePath)
  }

  /** Hidden data is found exactly when the script node exists, decodes, and every
      step of the key path meets a dict holding the next key; a missing node or key
      is reported, never passed on as an empty record. */
  lemma HiddenDataOk(script: Option<string>, decode: string -> Result<Json>, path: seq<string>)
    ensures HiddenData(script, decode, path).Ok? <==>
              script.Some? && decode(script.value).Ok? &&
              forall k :: 0 <= k < |path| ==>
                Descend(decode(script.value).value, path[..k]).Ok? &&
                Subscript(Descend(decode(script.value).value, path[..k]).value, path[k]).Ok?
  {
    if script.Some? && decode(script.value).Ok? {
      DescendOk(decode(script.value).value, path);
    }
  }

  /** The post record exists when the profile-style descent to `itemStruct` does, and
      it is null only when `itemStruct` itself is. */
  lemma ParsePostOk(script: Option<string>, decode: string -> Result<Json>)
    ensures ParsePost(script, decode).Ok? <==> HiddenData(script, decode, PostPath).Ok?
    ensures ParsePost(script, decode).Ok? ==>
              (ParsePost(script, decode).value == JNull <==> HiddenData(script, decode, PostPath).value == JNull)
  {
  }

  /** The decoded document holds `__DEFAULT_SCOPE__`, in it `webapp.user-detail`,
      and in that `userInfo`, each a dict entry. */
  predicate HoldsProfile(doc: Json)
  {
    doc.JObj? && "__DEFAULT_SCOPE__" in doc.fields &&
    doc.fields["__DEFAULT_SCOPE__"].JObj? && "webapp.user-detail" in doc.fields["__DEFAULT_SCOPE__"].fields &&
    doc.fields["__DEFAULT_SCOPE__"].fields["webapp.user-detail"].JObj? &&
    "userInfo" in doc.fields["__DEFAULT_SCOPE__"].fields["webapp.user-detail"].fields
  }

  /** `parse_profile` succeeds exactly when the script exists, decodes and holds the
      profile path, and gives the `userInfo` entry itself. */
  lemma ParseProfileOk(script: Option<string>, decode: string -> Result<Json>)
    ensures ParseProfile(script, decode).Ok? <==>
              script.Some? && decode(script.value).Ok? && HoldsProfile(decode(script.value).value)
    ensures ParseProfile(script, decode).Ok? ==>
              ParseProfile(script, decode).value ==
                decode(script.value).value.fields["__DEFAULT_SCOPE__"].fields["webapp.user-detail"].fields["userInfo"]
  {
    assert ProfilePath[1..] == ["webapp.user-detail", "userInfo"];
    assert ProfilePath[1..][1..] == ["userInfo"] && ["userInfo"][1..] == [];
  }

  // ---------------------------------------------------------------------------
  // Scrape operations

  /** The request for the comments page at `cursor`. */
  function CommentsRequest(postId: int, count: int, cursor: int): Request
  {
    ApiRequest(CommentsUrl(postId, count, cursor), None)
  }

  /** The first comments page, fetched at cursor 0 and parsed. */
  function FirstCommentsPage(postId: int, count: int, fetch: Request -> Result<Json>): Result<CommentsPage>
  {
    match fetch(CommentsRequest(postId, count, 0))
    case Err(e) => Err(e)
    case Ok(body) => ParsedComments(body)
  }

  /** The follow-up requests of `scrape_comments`, in cursor order, once the first
      page has reported `total`. A total that is not a number raises at the cap's
      comparison or at the log line's `//`, and that `//` raises for a page size of
      0 before `range` is reached. */
  function CommentFollowUps(postId: int, count: int, maxComments: Option<int>, total: Json): Result<seq<Request>>
  {
    match AsInt(total)
    case None => Err(NotANumber)
    case Some(t) =>
      if FloorDiv(CommentTarget(t, maxComments), count).Err? then Err(ZeroDivision)
      else
        var cursors := FollowUpCursors(count, CommentTarget(t, maxComments)).value;
        Ok(seq(|cursors|, i requires 0 <= i < |cursors| => CommentsRequest(postId, count, cursors[i])))
  }

  /** What `scrape_comments` gathers, with the follow-up pages taken in cursor
      order: the first page's records and the follow-up pages' records. */
  function CommentsInCursorOrder(postId: int, count: int, maxComments: Option<int>,
                                 fetch: Request -> Result<Json>): Result<(seq<Json>, seq<Json>)>
  {
    match FirstCommentsPage(postId, count, fetch)
    case Err(e) => Err(e)
    case Ok(first) =>
      match CommentFollowUps(postId, count, maxComments, first.total)
      case Err(e) => Err(e)
      case Ok(batch) =>
        match Collect(fetch, CommentRecords, batch)
        case Err(e) => Err(e)
        case Ok(pages) => Ok((first.comments, pages))
  }

  /** `scrape_comments`. `fetch` is the fetch collaborator with the body decoded;
      `arrive` is the order in which `concurrent_scrape` delivers a batch, any
      reordering of it. The follow-up batch is planned in cursor order; the result
      is the first page's records followed by each follow-up page's records whole, in
      the order the pages arrived, and a failing batch raises its first failure in
      that order. A failed first page is fatal and nothing more is requested. */
  method ScrapeComments(postId: int, count: int, maxComments: Option<int>,
                        fetch: Request -> Result<Json>, arrive: seq<Request> -> seq<Request>)
    returns (followUps: seq<Request>, r: Result<seq<Json>>)
    requires forall batch :: multiset(arrive(batch)) == multiset(batch)
    ensures FirstCommentsPage(postId, count, fetch).Err? ==> r.Err? && followUps == []
    ensures FirstCommentsPage(postId, count, fetch).Ok? &&
            CommentFollowUps(postId, count, maxComments, FirstCommentsPage(postId, count, fetch).value.total).Ok? ==>
              followUps == CommentFollowUps(postId, count, maxComments, FirstCommentsPage(postId, count, fetch).value.total).value
    ensures r.Ok? <==> CommentsInCursorOrder(postId, count, maxComments, fetch).Ok?
    ensures r.Ok? ==> Gathered(r.value, CommentsInCursorOrder(postId, count, maxComments, fetch).value.0,
                                        CommentsInCursorOrder(postId, count, maxComments, fetch).value.1)
    ensures r.Ok? ==> FirstCommentsPage(postId, count, fetch).Ok? && Collect(fetch, CommentRecords, arrive(followUps)).Ok? &&
                      r.value == FirstCommentsPage(postId, count, fetch).value.comments +
                                 Collect(fetch, CommentRecords, arrive(followUps)).value
    ensures FirstCommentsPage(postId, count, fetch).Ok? &&
            CommentFollowUps(postId, count, maxComments, FirstCommentsPage(postId, count, fetch).value.total).Ok? &&
            Collect(fetch, CommentRecords, arrive(followUps)).Err? ==>
              r == Err(Collect(fetch, CommentRecords, arrive(followUps)).error)
  {
    var response := fetch(CommentsRequest(postId, count, 0));
    if response.Err? {
      return [], Err(response.error);
    }
    var first := ParseComments(response.value);
    if first.Err? {
      return [], Err(first.error);
    }
    var plan := CommentFollowUps(postId, count, maxComments, first.value.total);
    if plan.Err? {
      return [], Err(plan.error);
    }
    followUps := plan.value;
    r := Gather(first.value.comments, fetch, CommentRecords, followUps, arrive);
  }

  /** The navigation `obtain_session` makes: the search page, rendered, in the named
      session. `quotedKeyword` is the keyword after `quote`. */
  function SessionRequest(quotedKeyword: string): Request
  {
    Request(SearchPage + quotedKeyword, true, "US", false, true, Some(SearchSessionId))
  }

  /** The search API request at `cursor`, in the search session. */
  function SearchRequest(encodedKeyword: string, cursor: int): Request
  {
    ApiRequest(SearchUrl(encodedKeyword, cursor), Some(SearchSessionId))
  }

  function SearchRequests(encodedKeyword: string, cursors: seq<int>): (r: seq<Request>)
    ensures |r| == |cursors|
    ensures forall i :: 0 <= i < |r| ==> r[i] == SearchRequest(encodedKeyword, cursors[i])
  {
    seq(|cursors|, i requires 0 <= i < |cursors| => SearchRequest(encodedKeyword, cursors[i]))
  }

  /** Each search request asks, in the search session, for the keyword's page at its
      cursor, and both read back out of its URL. */
  lemma SearchRequestsRoundTrip(encodedKeyword: string, cursors: seq<int>)
    requires Plain(encodedKeyword)
    ensures forall i :: 0 <= i < |cursors| ==>
              ParseSearchUrl(SearchRequests(encodedKeyword, cursors)[i].url) == Some((encodedKeyword, cursors[i]))
    ensures forall i :: 0 <= i < |cursors| ==> SearchRequests(encodedKeyword, cursors)[i].session == Some(SearchSessionId)
  {
    forall i | 0 <= i < |cursors|
      ensures ParseSearchUrl(SearchRequests(encodedKeyword, cursors)[i].url) == Some((encodedKeyword, cursors[i]))
    {
      SearchUrlRoundTrip(encodedKeyword, cursors[i]);
    }
  }

  /** For a positive page size no search page is requested twice: the follow-up
      requests differ from one another and from the first page's request. */
  lemma SearchFollowUpsDistinct(encodedKeyword: string, searchCount: int, maxSearch: int)
    requires Plain(encodedKeyword) && searchCount > 0
    ensures FollowUpCursors(searchCount, maxSearch).Ok?
    ensures forall i, j :: 0 <= i < j < |FollowUpCursors(searchCount, maxSearch).value| ==>
              SearchRequests(encodedKeyword, FollowUpCursors(searchCount, maxSearch).value)[i] !=
              SearchRequests(encodedKeyword, FollowUpCursors(searchCount, maxSearch).value)[j]
    ensures forall i :: 0 <= i < |FollowUpCursors(searchCount, maxSearch).value| ==>
              SearchRequests(encodedKeyword, FollowUpCursors(searchCount, maxSearch).value)[i] !=
              SearchRequest(encodedKeyword, 0)
  {
    FollowUpCursorsShape(searchCount, maxSearch);
    SearchRequestsDistinct(encodedKeyword, FollowUpCursors(searchCount, maxSearch).value);
  }

  /** Requests for distinct positive cursors differ from one another and from the
      first page's request. */
  lemma SearchRequestsDistinct(encodedKeyword: string, cursors: seq<int>)
    requires Plain(encodedKeyword)
    requires forall i, j :: 0 <= i < j < |cursors| ==> 0 < cursors[i] < cursors[j]
    requires forall i :: 0 <= i < |cursors| ==> 0 < cursors[i]
    ensures forall i, j :: 0 <= i < j < |cursors| ==>
              SearchRequests(encodedKeyword, cursors)[i] != SearchRequests(encodedKeyword, cursors)[j]
    ensures forall i :: 0 <= i < |cursors| ==> SearchRequests(encodedKeyword, cursors)[i] != SearchRequest(encodedKeyword, 0)
  {
    var batch := SearchRequests(encodedKeyword, cursors);
    SearchRequestsRoundTrip(encodedKeyword, cursors);
    SearchUrlRoundTrip(encodedKeyword, 0);
    assert forall i, j :: 0 <= i < j < |cursors| ==> ParseSearchUrl(batch[i].url) != ParseSearchUrl(batch[j].url);
  }

  /** The records of `scrape_search`'s first page: the session navigation, then the
      search API at cursor 0, parsed. */
  function FirstSearchPage(keyword: string, quote: string -> string, quotePlus: string -> string,
                           fetch: Request -> Result<Json>): Result<seq<Json>>
  {
    match fetch(SessionRequest(quote(keyword)))
    case Err(e) => Err(e)
    case Ok(_) =>
      match fetch(SearchRequest(quotePlus(quote(keyword)), 0))
      case Err(e) => Err(e)
      case Ok(body) => ParsedSearch(body)
  }

  /** What `scrape_search` gathers, with the follow-up pages taken in cursor order:
      the first page's records and the follow-up pages' records. */
  function SearchInCursorOrder(keyword: string, maxSearch: int, searchCount: int,
                               quote: string -> string, quotePlus: string -> string,
                               fetch: Request -> Result<Json>): Result<(seq<Json>, seq<Json>)>
  {
    match FirstSearchPage(keyword, quote, quotePlus, fetch)
    case Err(e) => Err(e)
    case Ok(head) =>
      if FloorDiv(maxSearch, searchCount).Err? then Err(ZeroDivision)
      else
        var cursors := FollowUpCursors(searchCount, maxSearch).value;
        match Collect(fetch, ParsedSearch, SearchRequests(quotePlus(quote(keyword)), cursors))
        case Err(e) => Err(e)
        case Ok(pages) => Ok((head, pages))
  }

  /** `scrape_search`. `quote` and `quotePlus` stand for `quote` and for the
      escaping `urlencode` applies to a value; the others are as for
      `ScrapeComments`. `sent` lists the requests made, the batch in cursor order:
      the session navigation comes first, a failed navigation is fatal, and every
      request carries the one session name. */
  method ScrapeSearch(keyword: string, maxSearch: int, searchCount: int,
                      quote: string -> string, quotePlus: string -> string,
                      fetch: Request -> Result<Json>, arrive: seq<Request> -> seq<Request>)
    returns (sent: seq<Request>, r: Result<seq<Json>>)
    requires forall batch :: multiset(arrive(batch)) == multiset(batch)
    ensures |sent| >= 1 && sent[0] == SessionRequest(quote(keyword))
    ensures forall i :: 0 <= i < |sent| ==> sent[i].session == Some(SearchSessionId)
    ensures fetch(sent[0]).Err? ==> r.Err? && |sent| == 1
    ensures r.Ok? <==> SearchInCursorOrder(keyword, maxSearch, searchCount, quote, quotePlus, fetch).Ok?
    ensures r.Ok? ==> Gathered(r.value, SearchInCursorOrder(keyword, maxSearch, searchCount, quote, quotePlus, fetch).value.0,
                                        SearchInCursorOrder(keyword, maxSearch, searchCount, quote, quotePlus, fetch).value.1)
    ensures r.Ok? ==>
              sent == [sent[0], SearchRequest(quotePlus(quote(keyword)), 0)] +
                      SearchRequests(quotePlus(quote(keyword)), FollowUpCursors(searchCount, maxSearch).value)
    ensures FirstSearchPage(keyword, quote, quotePlus, fetch).Ok? && FloorDiv(maxSearch, searchCount).Ok? ==>
              sent == [sent[0], SearchRequest(quotePlus(quote(keyword)), 0)] +
                      SearchRequests(quotePlus(quote(keyword)), FollowUpCursors(searchCount, maxSearch).value)
    ensures r.Ok? ==> FirstSearchPage(keyword, quote, quotePlus, fetch).Ok? && |sent| >= 2 &&
                      Collect(fetch, ParsedSearch, arrive(sent[2..])).Ok? &&
                      r.value == FirstSearchPage(keyword, quote, quotePlus, fetch).value +
                                 Collect(fetch, ParsedSearch, arrive(sent[2..])).value
    ensures FirstSearchPage(keyword, quote, quotePlus, fetch).Ok? && FloorDiv(maxSearch, searchCount).Ok? &&
            |sent| >= 2 && Collect(fetch, ParsedSearch, arrive(sent[2..])).Err? ==>
              r == Err(Collect(fetch, ParsedSearch, arrive(sent[2..])).error)
  {
    var quoted := quote(keyword);
    var session := SessionRequest(quoted);
    sent := [session];
    var navigation := fetch(session);
    if navigation.Err? {
      r := Err(navigation.error);
      return;
    }
    var encoded := quotePlus(quoted);
    var firstRequest := SearchRequest(encoded, 0);
    sent := sent + [firstRequest];
    var response := fetch(firstRequest);
    if response.Err? {
      r := Err(response.error);
      return;
    }
    var first := ParseSearch(response.value);
    if first.Err? {
      r := Err(first.error);
      return;
    }
    var pages := FloorDiv(maxSearch, searchCount);
    if pages.Err? {
      r := Err(pages.error);
      return;
    }
    var cursors := FollowUpCursors(searchCount, maxSearch).value;
    var batch := SearchRequests(encoded, cursors);
    sent := sent + batch;
    r := Gather(first.value, fetch, ParsedSearch, batch, arrive);
  }
}
