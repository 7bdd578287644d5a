/**
 * The older provider (`providers/YandexDisk.js`), the one the server
 * registers: `adaptData` uses an empty folder icon and trusts the remote
 * `mime_type` field, produces no `username`, and `list` never checks the
 * response status before reading its JSON.
 */
module LegacyProvider {
  import opened Wrappers
  import opened Http
  import Js
  import UriComponent
  import opened Listing
  import Adapter
  import Session

  /** `folderIcon` in `adaptData`: the empty text. */
  const FOLDER_ICON := ""

  /** The page `adaptData` returns. */
  datatype LegacyPage = LegacyPage(items: seq<Item>, nextPagePath: Option<string>)

  /** The object `adaptData` pushes for one raw item. */
  function AdaptLegacyItem(raw: RawItem): (it: Item)
    ensures it.isFolder <==> IsFolder(raw)
    ensures Canonical(it, FOLDER_ICON)
    ensures !it.isFolder ==>
      it.icon == Js.OrText(raw.preview, "") &&
      it.size == Js.NumberOrNull(raw.size) &&
      it.mimeType == Some(Js.OrText(raw.mimeType, ""))
    ensures it.name == Js.OrText(raw.name, "Unnamed")
    ensures it.id == Js.OrText(raw.resourceId, "unknown")
    ensures it.modifiedDate == Js.TextOrNull(raw.modified)
    ensures it.requestPath == UriComponent.Encode(Js.OrText(raw.path, ""))
    ensures UriComponent.Decode(it.requestPath) == Some(Js.OrText(raw.path, ""))
  {
    UriComponent.DecodeEncode(Js.OrText(raw.path, ""));
    var isFolder := raw.kind == Some("dir");
    var icon := if isFolder then FOLDER_ICON else Js.OrText(raw.preview, "");
    var name := Js.OrText(raw.name, "Unnamed");
    Item(
      isFolder := isFolder,
      icon := icon,
      name := name,
      mimeType := if isFolder then None else Some(Js.OrText(raw.mimeType, "")),
      id := Js.OrText(raw.resourceId, "unknown"),
      thumbnail := if isFolder then FOLDER_ICON else Js.OrText(raw.preview, ""),
      requestPath := UriComponent.Encode(Js.OrText(raw.path, "")),
      modifiedDate := Js.TextOrNull(raw.modified),
      size := if isFolder then None else Js.NumberOrNull(raw.size))
  }

  /** `page` is what `adaptData(res, dir)` returns: one item per raw item, in order, and the cursor. */
  predicate IsAdaptationOf(page: LegacyPage, res: RawListing, dir: string) {
    page.nextPagePath == NextPagePath(res, dir) &&
    |page.items| == |RawItems(res)| &&
    forall k :: 0 <= k < |page.items| ==> page.items[k] == AdaptLegacyItem(RawItems(res)[k])
  }

  /** `adaptData`: builds the item list by appending one item per raw item. */
  method AdaptData(res: RawListing, directoryPath: string) returns (page: LegacyPage)
    ensures IsAdaptationOf(page, res, directoryPath)
  {
    var items: seq<Item> := [];
    var nextPagePath := NextPagePath(res, directoryPath);
    if res.embedded.Some? && res.embedded.value.items.Some? {
      var raws := res.embedded.value.items.value;
      var i := 0;
      while i < |raws|
        invariant 0 <= i <= |raws|
        invariant |items| == i
        invariant forall k :: 0 <= k < i ==> items[k] == AdaptLegacyItem(raws[k])
      {
        var item := AdaptLegacyItem(raws[i]);
        items := items + [item];
        i := i + 1;
      }
    }
    page := LegacyPage(items, nextPagePath);
  }

  /**
   * The two revisions agree on every field except two: a folder's icon (the
   * empty text here, the folder-icon asset there) and a file's MIME type (the
   * remote `mime_type` here, the extension lookup there).
   */
  lemma RevisionsAgree(raw: RawItem, lookup: Adapter.MimeLookup)
    ensures var newer := Adapter.AdaptItem(raw, lookup);
      AdaptLegacyItem(raw) == newer.(
        icon := if newer.isFolder then FOLDER_ICON else newer.icon,
        mimeType := if newer.isFolder then None else Some(Js.OrText(raw.mimeType, "")))
  {
  }

  /**
   * A body without `_embedded` (an error body, or a file's metadata) gives
   * an empty page with no cursor rather than a failure.
   */
  lemma NoEnvelopeGivesEmptyPage(page: LegacyPage, res: RawListing, dir: string)
    requires res.embedded.None? && IsAdaptationOf(page, res, dir)
    ensures page == LegacyPage([], None)
  {
  }

  class YandexDisk {
    var storage: Session.TokenStorage?

    constructor(storage: Session.TokenStorage?)
      ensures this.storage == storage
    {
      this.storage := storage;
    }

    /**
     * `list`: one listing request for the resolved directory, limit and offset,
     * then `adaptData` of the body whatever the status; the cursor is built
     * from the resolved directory, not from the `directory` argument.
     */
    method List(token: string, directory: Option<string>, query: Query, resp: Response<RawListing>)
      returns (request: Request, page: LegacyPage)
      ensures request == Get(ListUrl(ResolveQuery(directory, query)), token)
      ensures IsAdaptationOf(page, resp.json, ResolveQuery(directory, query).directory)
    {
      var params := ResolveQuery(directory, query);
      request := Get(ListUrl(params), token);
      var data := resp.json;
      page := AdaptData(data, params.directory);
    }

    /** `logout`: removes the token entry when a storage is attached; always reports success. */
    method Logout() returns (r: Session.LogoutResult)
      modifies storage
      ensures r.success
      ensures storage != null ==> storage.entries == old(storage.entries) - {Session.AUTH_TOKEN_KEY}
    {
      if storage != null {
        storage.RemoveItem(Session.AUTH_TOKEN_KEY);
      }
      r := Session.LogoutResult(true);
    }
  }
}
