# Yandex Disk provider for Companion — listing adapter model

A Dafny model of the server side of a Yandex Disk provider for the Uppy
Companion host. It covers:

- the listing adapter: how one page of Yandex Disk `resources` JSON becomes the
  canonical item list the host expects, and how the next-page cursor
  (`nextPagePath`) is computed;
- the `list` methods around it: query defaulting, the request URL, and
  failure on non-ok responses;
- `size`, `downloadLink`, the ok-gating of `download` and `downloadAndSave`,
  and `logout`'s storage update.

The repository has two revisions of the adapter, and both are modelled:

- `server/providers/yandex-disk/` (module `Adapter`, module `Provider`) is the
  newer one. It adds `username`, uses a folder-icon asset, looks MIME types up
  by file extension, and checks every response status.
- `server/providers/YandexDisk.js` (module `LegacyProvider`) is the older one,
  and it is the one `server/index.js` registers. It uses an empty folder icon,
  trusts the remote `mime_type` field, and never checks the listing status.

Their identical parts are modelled once, in module `Listing`: the raw and
canonical records, the cursor (`getNextPagePath`, the same text at
`server/providers/YandexDisk.js:8-20` and
`server/providers/yandex-disk/adapter.js:17-26`), and the query defaulting and
URL of `list`.

Supporting modules:

- `UriComponent` models `encodeURIComponent` (section 15.1.3.4 of ECMA-262
  5.1). This is percent-encoding per section 2.1 of RFC 3986 over UTF-8 bytes,
  leaving letters, digits and `-_.!~*'()` alone. The module also has a strict
  `decodeURIComponent`-style decoder, which refuses overlong UTF-8 forms and
  surrogate code points, proved to undo it exactly. The host's
  query parser also turns `+` into a space and keeps malformed escapes as they
  are; on encoded text, which holds neither, it agrees with this decoder.
- `Decimal` models how an integral number below 10^21 in magnitude is written
  inside a template literal, with a parser proved to read it back.
- `Js` models the `||` operator on optional strings, numbers and query
  values. `x || d` replaces a missing value, `''` and `0` alike, so a raw
  `size` of 0 becomes `null` and a numeric `query.limit` of 0 becomes 20.
- `Http` holds requests, responses and `ok` (a status from 200 to 299).
- `Session` holds the host's token storage.

How the outside world is represented:

- Each `fetch` is replaced by its response, which is an input. Each method
  also returns the requests it issued, in order. That is how the model shows
  that a failed listing never reaches the account-info request.
- A thrown error becomes a `Failure` that carries the status, status text
  and body text the error message reports.
- `mime.lookup` is a function parameter.

## Model

| member | source | states |
|---|---|---|
| `Decimal.NatToString` | server/providers/yandex-disk/adapter.js:22 | a rendered number is a non-empty run of digits with no leading zero |
| `Decimal.ParseIntToString` | server/providers/yandex-disk/adapter.js:22 | the rendered `limit` and `offset` read back as the same integers, so the rendering loses nothing |
| `UriComponent.Encode` | server/providers/yandex-disk/adapter.js:13 | `encodeURIComponent` output holds only unreserved characters, `%` and upper-case hex digits, and is never shorter than its input |
| `UriComponent.NoSeparators` | server/providers/yandex-disk/adapter.js:22 | an encoded path never holds `&`, `=`, `?`, `/`, `+` or `#`, so it stays inside its own query field |
| `UriComponent.DecodeEncode` | server/providers/yandex-disk/adapter.js:13 | percent-decoding an encoded path gives back exactly the original path |
| `UriComponent.EncodeInjective` | server/providers/yandex-disk/adapter.js:13 | two different paths never encode to the same `requestPath` |
| `UriComponent.OverlongRejected` | server/providers/yandex-disk/adapter.js:13 | the decoder refuses the overlong UTF-8 form `%C0%AF` instead of reading it as `/` |
| `UriComponent.Utf8DecodeShortest` | server/providers/yandex-disk/adapter.js:13 | every byte sequence the decoder accepts is the shortest UTF-8 form of its code point, so no overlong form decodes |
| `UriComponent.EncodeUnreserved` | server/providers/YandexDisk.js:16 | a path made only of unreserved characters is sent unchanged |
| `Js.OrText` | server/providers/yandex-disk/adapter.js:10 | the logical-or of an optional string and a default is the value when it is a non-empty string, and the default otherwise |
| `Js.TextOrNull` | server/providers/yandex-disk/adapter.js:14 | the logical-or of an optional string and null is null exactly when the value is missing or empty, and the value otherwise |
| `Js.NumberOrNull` | server/providers/yandex-disk/adapter.js:8 | the logical-or of an optional number and null is null exactly when the number is missing or 0, and the number otherwise |
| `Listing.NextPagePathSpec` | server/providers/yandex-disk/adapter.js:17-26 | the cursor exists iff `_embedded` is present with `offset`, `limit` and `total`, and `offset + limit < total`; it then reads back as the same directory, the same limit and offset `offset + limit` |
| `Listing.PageQueryRoundTrip` | server/providers/YandexDisk.js:16 | the cursor text `?path=…&limit=…&offset=…` reads back as the decoded directory and the two number texts it was built from |
| `Listing.CursorIgnoresItems` | server/providers/YandexDisk.js:26 | the cursor does not depend on the page's items |
| `Listing.ResolveQuery` | server/providers/yandex-disk/index.js:39-41 | limit is `query.limit` or 20, offset is `query.offset` or 0, and the directory is `query.path`, else `directory`, else `/` |
| `Listing.FollowCursor` | server/providers/yandex-disk/index.js:41-42 | for a non-empty directory, the `list` call the host makes from a cursor requests that directory, and its URL is `BASE_URL` followed by the cursor |
| `Listing.PhotosCursor` | server/providers/yandex-disk/adapter.js:17-26 | at `/Photos` with offset 0, limit 20 and total 45, the cursor is `?path=%2FPhotos&limit=20&offset=20` |
| `Adapter.AdaptItem` | server/providers/yandex-disk/adapter.js:7-15 | an item is a folder iff its type is `dir`. A folder has the folder-icon asset, an empty thumbnail, and null `mimeType` and `size`. A file's icon and thumbnail are `preview` or `''`, its size is the raw size or null, and its `mimeType` is the lookup of its defaulted name or `''`. Defaults are "Unnamed", "unknown" and null. `requestPath` is `encodeURIComponent` of the raw path or `''`, and decodes back to it |
| `Adapter.TransformData` | server/providers/yandex-disk/adapter.js:28-54 | `username` is `display_name` or "Unknown". There is one item per raw item, in the same order, and none when `_embedded` or `items` is missing. `nextPagePath` is the cursor |
| `Adapter.TransformIsDeterministic` | server/providers/yandex-disk/adapter.js:28-54 | the transform's description fixes the page completely |
| `Adapter.PageIsCanonical` | server/providers/yandex-disk/adapter.js:37-50 | every item of a transformed page keeps the folder/file invariant with the folder-icon asset |
| `Adapter.NamelessFileLookup` | server/providers/yandex-disk/adapter.js:10-11 | a file without a name is named "Unnamed" and its MIME type is looked up for "Unnamed" |
| `Provider.YandexDisk.GetUserInfo` | server/providers/yandex-disk/index.js:21-35 | one GET of the account-info URL with `OAuth <token>`. An ok response gives its `user` object. Any other fails with the status, status text and body |
| `Provider.YandexDisk.List` | server/providers/yandex-disk/index.js:38-60 | the first request is the listing URL of the resolved query. A non-ok listing fails with status, status text and body, and no second request is made. Otherwise the account-info request follows. The call succeeds iff both are ok and `user` is present. When both are ok but `user` is missing, it fails with a TypeError. On success it returns exactly `transformData` of the body, the user and the resolved directory |
| `Provider.YandexDisk.Size` | server/providers/yandex-disk/index.js:63-76 | the request carries the encoded `id`, which decodes back to `id`. A non-ok response fails with status and status text. An ok response gives exactly the reported size when it is present and non-zero, and null when it is missing or 0 |
| `Provider.YandexDisk.DownloadLink` | server/providers/yandex-disk/index.js:79-93 | the request is `BASE_URL/download?path=` with the encoded `id`. An ok response gives its `href`. Any other fails with status, status text and body |
| `Provider.YandexDisk.Download` | server/providers/yandex-disk/index.js:96-109 | a link failure stops after one request. A missing `href` fails before any second request. Otherwise the link is fetched with the token, and the call returns its stream when ok and fails with the status text otherwise |
| `Provider.YandexDisk.DownloadAndSave` | server/providers/yandex-disk/index.js:112-131 | the same requests and failures as `download`: a link failure stops after one request with status, status text and body; a missing `href` fails with a TypeError before a second request; otherwise the second request fetches `href` with the token, and a non-ok file response fails with its status text. When both responses are ok it fails with a TypeError, so the call never succeeds |
| `Provider.YandexDisk.DownloadAndSaveCorrected` | server/providers/yandex-disk/index.js:124-130 | the same requests and failures as `download` for the link and the file responses. The call succeeds with `{success: true, message}` iff both are ok, `href` is present and the write finishes. A write error fails the call with that error |
| `Provider.YandexDisk.Logout` | server/providers/yandex-disk/index.js:133-141 | always `{success: true}`. When a storage is attached its token entry is removed and nothing else changes. Without one, nothing changes |
| `Session.TokenStorage.RemoveItem` | server/providers/yandex-disk/index.js:137 | the storage loses exactly the given key |
| `LegacyProvider.AdaptLegacyItem` | server/providers/YandexDisk.js:33-47 | a folder has an empty icon and thumbnail, and null `mimeType` and `size`. A file's `mimeType` is the raw `mime_type` or `''`, and its size is the raw size or null. Defaults are as in the newer revision. `requestPath` is `encodeURIComponent` of the raw path or `''`, and decodes back to it |
| `LegacyProvider.AdaptData` | server/providers/YandexDisk.js:23-52 | one item per raw item in the same order, none without `_embedded` or `items`, and the shared cursor |
| `LegacyProvider.RevisionsAgree` | server/providers/YandexDisk.js:29-46 | the two revisions differ only in a folder's icon and a file's MIME type |
| `LegacyProvider.NoEnvelopeGivesEmptyPage` | server/providers/YandexDisk.js:31 | a body without `_embedded`, such as an error body, gives an empty page with no cursor |
| `LegacyProvider.YandexDisk.List` | server/providers/YandexDisk.js:66-83 | one request for the resolved query. The page is `adaptData` of the body whatever the status, with the cursor built from the resolved directory |
| `LegacyProvider.YandexDisk.Logout` | server/providers/YandexDisk.js:86-94 | always `{success: true}`. When a storage is attached its token entry is removed |

## Left out

- Network and stream I/O: `fetch`, `Readable.fromWeb`, `fs.createWriteStream` and `pipe`. Responses are inputs. A download's stream is named by its URL. The end of a file write is an input (`writeError`).
- Network failures and bodies that are not JSON: a rejected `fetch` or `resp.json()` is not modelled. In the older `list`, a non-JSON error body would throw.
- The mime-types library: `mime.lookup` is a parameter.
- Number range: JSON numbers, `offset + limit` included, are modelled as unbounded integers. JavaScript adds them as doubles, exact only up to 2^53, and writes numbers of 10^21 and more in exponent form (`1e+21`); neither is modelled.
- Numbers in JSON are integers. Fractions, NaN, JSON `null` and numbers sent as strings are not modelled. A missing `offset`, `limit` or `total` is modelled, and it yields no cursor, as NaN does.
- Strings are sequences of Unicode scalar values. A lone surrogate, on which `encodeURIComponent` throws `URIError`, cannot be represented.
- Query values are a string or a number. A repeated query parameter, which the host passes as an array, is not modelled.
- Error messages: their fixed Russian prefixes are not modelled. Each error keeps the status, status text and body its message reports.
- Host hooks: `version`, `oauthProvider` and `grantDynamicToUserSession`. These are trivial static members.
- The token storage key is the fixed text `companion-undefined-auth-token`. `this.constructor[0]` is `undefined`, so the key is not scoped per provider.
- The UI plugin (`client/`) and the Express bootstrap (`server/index.js`).
- `downloadAndSave` does not query the file size first, and the model does not add such a query. The registered older revision trusts the remote `mime_type`, while the newer one looks the type up by file extension; both are modelled.
- Provider.YandexDisk.DownloadAndSave: does not model that `fs.createWriteStream` has already created or truncated the file at `savePath` before the throw, because file system effects are not modelled.

## Findings

| source | as written | input that shows it | evidently intended | confidence | as-written member | corrected member |
|---|---|---|---|---|---|---|
| server/providers/yandex-disk/index.js:125 | `response.body.pipe(writeStream)`. The built-in `fetch` returns a web `ReadableStream`, which has no `pipe` method, so the call throws `TypeError`. `download` itself wraps the same body with `Readable.fromWeb` at line 108 | any `id` whose link and file responses are both ok | pipe `Readable.fromWeb(response.body)` into the file, and resolve `{success: true, message}` on `finish` | not executed; medium (assumes the runtime's built-in `fetch`, as `download` does) | `Provider.YandexDisk.DownloadAndSave` | `Provider.YandexDisk.DownloadAndSaveCorrected` |
