/**
 * The newer item transformer (`transformData` and its item helpers): one page
 * of raw listing JSON plus the account's `user` object become the page the
 * host shows. Folders get the folder-icon asset; a file's MIME type comes
 * from looking up its name's extension.
 */
module Adapter {
  import opened Wrappers
  import Js
  import UriComponent
  import opened Listing

  const ICON_FOLDER_PATH := "server/providers/yandex-disk/assets/folder-icon.svg"

  /** The `user` object of the account-info response. */
  datatype User = User(displayName: Option<string>)

  /** The page `transformData` returns. */
  datatype ListingPage = ListingPage(username: string, items: seq<Item>, nextPagePath: Option<string>)

  /**
   * `mime.lookup` of the mime-types library: the MIME type registered for a
   * file name's extension, or `false` (None) when there is none. The library
   * is not part of this model, so it is a parameter.
   */
  type MimeLookup = string -> Option<string>

  function GetItemSize(raw: RawItem): Option<int> {
    if IsFolder(raw) then None else Js.NumberOrNull(raw.size)
  }

  function GetItemIcon(raw: RawItem): string {
    if IsFolder(raw) then "" else Js.OrText(raw.preview, "")
  }

  function GetItemName(raw: RawItem): string {
    Js.OrText(raw.name, "Unnamed")
  }

  function GetMimeType(raw: RawItem, lookup: MimeLookup): Option<string> {
    if IsFolder(raw) then None else Some(Js.OrText(lookup(GetItemName(raw)), ""))
  }

  function GetItemId(raw: RawItem): string {
    Js.OrText(raw.resourceId, "unknown")
  }

  function GetItemRequestPath(raw: RawItem): string {
    UriComponent.Encode(Js.OrText(raw.path, ""))
  }

  function GetItemModifiedDate(raw: RawItem): Option<string> {
    Js.TextOrNull(raw.modified)
  }

  function GetItemThumbnailUrl(raw: RawItem): string {
    if IsFolder(raw) then "" else Js.OrText(raw.preview, "")
  }

  /** The object `transformData` pushes for one raw item. */
  function AdaptItem(raw: RawItem, lookup: MimeLookup): (it: Item)
    ensures it.isFolder <==> IsFolder(raw)
    ensures Canonical(it, ICON_FOLDER_PATH)
    ensures !it.isFolder ==>
      it.icon == Js.OrText(raw.preview, "") &&
      it.size == Js.NumberOrNull(raw.size) &&
      it.mimeType == Some(Js.OrText(lookup(it.name), ""))
    ensures it.name == Js.OrText(raw.name, "Unnamed")
    ensures it.id == Js.OrText(raw.resourceId, "unknown")
    ensures it.modifiedDate == Js.TextOrNull(raw.modified)
    ensures it.requestPath == UriComponent.Encode(Js.OrText(raw.path, ""))
    ensures UriComponent.Decode(it.requestPath) == Some(Js.OrText(raw.path, ""))
  {
    UriComponent.DecodeEncode(Js.OrText(raw.path, ""));
    var folderIcon := ICON_FOLDER_PATH;
    Item(
      isFolder := IsFolder(raw),
      icon := if IsFolder(raw) then folderIcon else GetItemIcon(raw),
      name := GetItemName(raw),
      mimeType := GetMimeType(raw, lookup),
      id := GetItemId(raw),
      thumbnail := GetItemThumbnailUrl(raw),
      requestPath := GetItemRequestPath(raw),
      modifiedDate := GetItemModifiedDate(raw),
      size := GetItemSize(raw))
  }

  /**
   * `page` is what `transformData(res, user, dir)` returns: the display name
   * or "Unknown", one item per raw item in the same order, and the cursor.
   */
  predicate IsTransformOf(page: ListingPage, res: RawListing, user: User, dir: string, lookup: MimeLookup) {
    page.username == Js.OrText(user.displayName, "Unknown") &&
    page.nextPagePath == NextPagePath(res, dir) &&
    |page.items| == |RawItems(res)| &&
    forall k :: 0 <= k < |page.items| ==> page.items[k] == AdaptItem(RawItems(res)[k], lookup)
  }

  /** `transformData`: builds the item list by appending one item per raw item. */
  method TransformData(res: RawListing, user: User, directoryPath: string, lookup: MimeLookup)
    returns (page: ListingPage)
    ensures IsTransformOf(page, res, user, directoryPath, lookup)
  {
    var username := Js.OrText(user.displayName, "Unknown");
    var items: seq<Item> := [];
    var nextPagePath := NextPagePath(res, directoryPath);
    if res.embedded.Some? && res.embedded.value.items.Some? {
      var raws := res.embedded.value.items.value;
      var i := 0;
      while i < |raws|
        invariant 0 <= i <= |raws|
        invariant |items| == i
        invariant forall k :: 0 <= k < i ==> items[k] == AdaptItem(raws[k], lookup)
      {
        var item := AdaptItem(raws[i], lookup);
        items := items + [item];
        i := i + 1;
      }
    }
    page := ListingPage(username, items, nextPagePath);
  }

  /** The description fixes the page completely: the transform is deterministic. */
  lemma TransformIsDeterministic(p: ListingPage, q: ListingPage, res: RawListing, user: User, dir: string,
                                 lookup: MimeLookup)
    requires IsTransformOf(p, res, user, dir, lookup) && IsTransformOf(q, res, user, dir, lookup)
    ensures p == q
  {
  }

  /** Every item of a transformed page keeps the canonical invariant with the folder-icon asset. */
  lemma PageIsCanonical(page: ListingPage, res: RawListing, user: User, dir: string, lookup: MimeLookup)
    requires IsTransformOf(page, res, user, dir, lookup)
    ensures forall it :: it in page.items ==> Canonical(it, ICON_FOLDER_PATH)
  {
  }

  /** An item whose name is missing or empty is looked up as "Unnamed". */
  lemma NamelessFileLookup(raw: RawItem, lookup: MimeLookup)
    requires !IsFolder(raw) && (raw.name == None || raw.name == Some(""))
    ensures AdaptItem(raw, lookup).name == "Unnamed"
    ensures AdaptItem(raw, lookup).mimeType == Some(Js.OrText(lookup("Unnamed"), ""))
  {
  }
}
