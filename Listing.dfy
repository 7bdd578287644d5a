/**
 * What both revisions of the listing adapter share: the remote API's raw
 * listing JSON, the canonical item the host expects, the query defaulting of
 * `list`, the request URL, and the next-page cursor (`getNextPagePath`).
 */
module Listing {
  import opened Wrappers
  import Js
  import Decimal
  import UriComponent

  const BASE_URL := "https://cloud-api.yandex.net/v1/disk/resources"
  const USER_INFO_URL := "https://cloud-api.yandex.net/v1/disk/"

  /** One entry of `_embedded.items`; every field may be missing. */
  datatype RawItem = RawItem(
    kind: Option<string>,        // `type`: "dir" or "file"
    name: Option<string>,
    path: Option<string>,
    resourceId: Option<string>,  // `resource_id`
    modified: Option<string>,
    preview: Option<string>,
    mimeType: Option<string>,    // `mime_type`
    size: Option<int>)

  /** The `_embedded` object: the page of items and the pagination envelope. */
  datatype Envelope = Envelope(
    items: Option<seq<RawItem>>,
    offset: Option<int>,
    limit: Option<int>,
    total: Option<int>)

  /** The listing response body; `_embedded` is absent for a file or an error body. */
  datatype RawListing = RawListing(embedded: Option<Envelope>)

  /** The canonical item handed to the host. */
  datatype Item = Item(
    isFolder: bool,
    icon: string,
    name: string,
    mimeType: Option<string>,
    id: string,
    thumbnail: string,
    requestPath: string,
    modifiedDate: Option<string>,
    size: Option<int>)

  predicate IsFolder(raw: RawItem) { raw.kind == Some("dir") }

  /**
   * The canonical item invariant: `isFolder` fixes whether `mimeType` and
   * `size` are null and where `icon` and `thumbnail` come from.
   */
  predicate Canonical(it: Item, folderIcon: string) {
    it.name != "" && it.id != "" &&
    (it.isFolder ==>
      it.icon == folderIcon && it.thumbnail == "" && it.mimeType == None && it.size == None) &&
    (!it.isFolder ==>
      it.icon == it.thumbnail && it.mimeType.Some? && it.size != Some(0))
  }

  /** `res._embedded && res._embedded.items`, or no items at all. */
  function RawItems(res: RawListing): seq<RawItem> {
    if res.embedded.Some? && res.embedded.value.items.Some? then res.embedded.value.items.value else []
  }

  // ---------------------------------------------------------------------
  // Query strings

  /** `?path=<encoded dir>&limit=<limit>&offset=<offset>`, the query both the request and the cursor use. */
  function PageQuery(dir: string, limit: string, offset: string): string {
    // grouped from the right, the way the host reads it back field by field
    "?path=" + (UriComponent.Encode(dir) + "&" + ("limit=" + (limit + "&" + ("offset=" + offset))))
  }

  /** Splits at the first `&`. */
  function SplitAmp(s: string): (r: Option<(string, string)>)
    ensures r.Some? ==> '&' !in r.value.0 && s == r.value.0 + "&" + r.value.1
  {
    if s == [] then None
    else if s[0] == '&' then Some(([], s[1..]))
    else match SplitAmp(s[1..])
      case None => None
      case Some((a, b)) => Some(([s[0]] + a, b))
  }

  /** What follows `prefix` in `s`, when `s` starts with it. */
  function StripPrefix(prefix: string, s: string): Option<string> {
    if |s| >= |prefix| && s[..|prefix|] == prefix then Some(s[|prefix|..]) else None
  }

  /**
   * The host's reading of a page query: the decoded `path`, and the `limit`
   * and `offset` texts, in that order.
   */
  function ParsePageQuery(s: string): Option<(string, string, string)> {
    match StripPrefix("?path=", s)
    case None => None
    case Some(afterPath) =>
      match SplitAmp(afterPath)
      case None => None
      case Some((encoded, rest)) =>
        match StripPrefix("limit=", rest)
        case None => None
        case Some(afterLimit) =>
          match SplitAmp(afterLimit)
          case None => None
          case Some((limit, tail)) =>
            match (StripPrefix("offset=", tail), UriComponent.Decode(encoded))
            case (Some(offset), Some(dir)) => Some((dir, limit, offset))
            case _ => None
  }

  lemma StripPrefixOf(prefix: string, t: string)
    ensures StripPrefix(prefix, prefix + t) == Some(t)
  {
  }

  lemma {:induction false} SplitAmpOf(a: string, b: string)
    requires '&' !in a
    ensures SplitAmp(a + "&" + b) == Some((a, b))
    decreases |a|
  {
    var s := a + "&" + b;
    if a == [] {
      assert s[0] == '&' && s[1..] == b;
    } else {
      assert s[0] == a[0] && s[1..] == a[1..] + "&" + b;
      SplitAmpOf(a[1..], b);
      assert [a[0]] + a[1..] == a;
    }
  }

  /** The page query reads back as the directory and the two texts it was built from. */
  lemma PageQueryRoundTrip(dir: string, limit: string, offset: string)
    requires '&' !in limit
    ensures ParsePageQuery(PageQuery(dir, limit, offset)) == Some((dir, limit, offset))
  {
    var e := UriComponent.Encode(dir);
    UriComponent.NoSeparators(dir);
    UriComponent.DecodeEncode(dir);
    var tail := "offset=" + offset;
    var afterLimit := limit + "&" + tail;
    var rest := "limit=" + afterLimit;
    var afterPath := e + "&" + rest;
    StripPrefixOf("?path=", afterPath);
    SplitAmpOf(e, rest);
    StripPrefixOf("limit=", afterLimit);
    SplitAmpOf(limit, tail);
    StripPrefixOf("offset=", offset);
  }

  // ---------------------------------------------------------------------
  // Cursor (`getNextPagePath`)

  /** The envelope is present, all three numbers are present, and another page follows. */
  predicate HasNextPage(res: RawListing) {
    res.embedded.Some? &&
    var e := res.embedded.value;
    e.offset.Some? && e.limit.Some? && e.total.Some? &&
    e.offset.value + e.limit.value < e.total.value
  }

  /**
   * `getNextPagePath(res, dir)`. A missing number makes `offset + limit < total`
   * compare NaN, which is false, so it yields null like a last page.
   */
  function NextPagePath(res: RawListing, dir: string): Option<string> {
    match res.embedded
    case None => None
    case Some(e) =>
      match (e.offset, e.limit, e.total)
      case (Some(offset), Some(limit), Some(total)) =>
        if offset + limit < total then
          Some(PageQuery(dir, Decimal.IntToString(limit), Decimal.IntToString(offset + limit)))
        else None
      case _ => None
  }

  /** A cursor's three fields, as numbers. */
  datatype Cursor = Cursor(path: string, limit: int, offset: int)

  function ParseCursor(s: string): Option<Cursor> {
    match ParsePageQuery(s)
    case None => None
    case Some((dir, limit, offset)) =>
      match (Decimal.ParseInt(limit), Decimal.ParseInt(offset))
      case (Some(l), Some(o)) => Some(Cursor(dir, l, o))
      case _ => None
  }

  lemma NoAmpInNumber(i: int)
    ensures '&' !in Decimal.IntToString(i)
  {
  }

  /**
   * The cursor exists exactly when another page follows, and then it names
   * the same directory and limit with the offset advanced by the limit.
   */
  lemma NextPagePathSpec(res: RawListing, dir: string)
    ensures NextPagePath(res, dir).Some? <==> HasNextPage(res)
    ensures HasNextPage(res) ==>
      var e := res.embedded.value;
      ParseCursor(NextPagePath(res, dir).value) ==
        Some(Cursor(dir, e.limit.value, e.offset.value + e.limit.value))
  {
    if HasNextPage(res) {
      var e := res.embedded.value;
      var l, o := e.limit.value, e.offset.value + e.limit.value;
      NoAmpInNumber(l);
      PageQueryRoundTrip(dir, Decimal.IntToString(l), Decimal.IntToString(o));
      Decimal.ParseIntToString(l);
      Decimal.ParseIntToString(o);
    }
  }

  /** The cursor depends on the envelope's numbers only, never on the items. */
  lemma CursorIgnoresItems(res: RawListing, items: Option<seq<RawItem>>, dir: string)
    requires res.embedded.Some?
    ensures NextPagePath(RawListing(Some(res.embedded.value.(items := items))), dir) == NextPagePath(res, dir)
  {
  }

  // ---------------------------------------------------------------------
  // `list`: query defaulting and the request URL

  /** `query` as the host passes it; a field is missing when it is `None`. */
  datatype Query = Query(path: Option<Js.Scalar>, limit: Option<Js.Scalar>, offset: Option<Js.Scalar>)

  /** The effective directory, limit and offset of one `list` call. */
  datatype ListParams = ListParams(directory: string, limit: Js.Scalar, offset: Js.Scalar)

  /**
   * `limit = query.limit || 20`, `offset = query.offset || 0`,
   * `currentDirectory = query.path || directory`, where `directory` defaults to `/`.
   */
  function ResolveQuery(directory: Option<string>, query: Query): (p: ListParams)
    ensures Js.IsTruthy(query.limit) ==> p.limit == query.limit.value
    ensures !Js.IsTruthy(query.limit) ==> p.limit == Js.Num(20)
    ensures Js.IsTruthy(query.offset) ==> p.offset == query.offset.value
    ensures !Js.IsTruthy(query.offset) ==> p.offset == Js.Num(0)
    ensures Js.IsTruthy(query.path) ==> p.directory == Js.Render(query.path.value)
    ensures !Js.IsTruthy(query.path) && directory.Some? ==> p.directory == directory.value
    ensures !Js.IsTruthy(query.path) && directory.None? ==> p.directory == "/"
  {
    var dir := if directory.Some? then directory.value else "/";
    ListParams(
      if Js.IsTruthy(query.path) then Js.Render(query.path.value) else dir,
      if Js.IsTruthy(query.limit) then query.limit.value else Js.Num(20),
      if Js.IsTruthy(query.offset) then query.offset.value else Js.Num(0))
  }

  /** The listing request URL for resolved parameters. */
  function ListUrl(p: ListParams): string {
    BASE_URL + PageQuery(p.directory, Js.Render(p.limit), Js.Render(p.offset))
  }

  /** The `query` the host builds from a cursor: text fields, the path decoded. */
  function HostQuery(cursor: string): Option<Query> {
    match ParsePageQuery(cursor)
    case None => None
    case Some((dir, limit, offset)) => Some(Query(Some(Js.Str(dir)), Some(Js.Str(limit)), Some(Js.Str(offset))))
  }

  /**
   * Following the cursor requests the next page of the same directory: the
   * next `list` call asks for exactly `BASE_URL` followed by the cursor,
   * whatever `directory` argument it gets, as long as the directory is not empty.
   */
  lemma FollowCursor(res: RawListing, dir: string, directory: Option<string>)
    requires HasNextPage(res) && dir != ""
    ensures HostQuery(NextPagePath(res, dir).value).Some?
    ensures
      var p := ResolveQuery(directory, HostQuery(NextPagePath(res, dir).value).value);
      p.directory == dir && ListUrl(p) == BASE_URL + NextPagePath(res, dir).value
  {
    var e := res.embedded.value;
    var l, o := Decimal.IntToString(e.limit.value), Decimal.IntToString(e.offset.value + e.limit.value);
    NoAmpInNumber(e.limit.value);
    PageQueryRoundTrip(dir, l, o);
  }

  // EncodePhotos, Twenty and PhotosQueryText split the proof of PhotosCursor,
  // which is too large for the solver as a single proof obligation.

  lemma EncodeSlash()
    ensures UriComponent.EncodeChar('/') == "%2F"
  {
    assert UriComponent.Utf8('/' as int) == [47];
    assert UriComponent.Percent(47) == "%2F";
  }

  lemma EncodePhotos()
    ensures UriComponent.Encode("/Photos") == "%2FPhotos"
  {
    var photos := "Photos";
    assert forall i :: 0 <= i < |photos| ==> UriComponent.IsUnreserved(photos[i]);
    UriComponent.EncodeUnreserved(photos);
    EncodeSlash();
    assert "/Photos"[1..] == photos;
    assert UriComponent.Encode("/Photos") == UriComponent.EncodeChar('/') + UriComponent.Encode(photos);
  }

  lemma Twenty()
    ensures Decimal.IntToString(20) == "20"
  {
  }

  /** Example: offset 0, limit 20, total 45 at `/Photos` gives `?path=%2FPhotos&limit=20&offset=20`. */
  lemma PhotosCursor()
    ensures NextPagePath(RawListing(Some(Envelope(None, Some(0), Some(20), Some(45)))), "/Photos")
      == Some("?path=%2FPhotos&limit=20&offset=20")
  {
    EncodePhotos();
    Twenty();
    PhotosQueryText();
  }

  lemma PhotosQueryText()
    ensures "?path=" + ("%2FPhotos" + "&" + ("limit=" + ("20" + "&" + ("offset=" + "20"))))
      == "?path=%2FPhotos&limit=20&offset=20"
  {
  }
}
