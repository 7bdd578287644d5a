/**
 * The newer provider class (`yandex-disk/index.js`). Every `fetch` is
 * replaced by its response, given as an input; each method also returns the
 * requests it issued, in order, so that what is never reached after an early
 * `throw` is visible. A `throw` becomes a `Failure`.
 */
module Provider {
  import opened Wrappers
  import opened Http
  import Js
  import UriComponent
  import opened Listing
  import Adapter
  import Session

  /** The account-info body; its `user` object may be missing. */
  datatype UserInfoJson = UserInfoJson(user: Option<Adapter.User>)

  /** The resource body read by `size`. */
  datatype ResourceJson = ResourceJson(size: Option<int>)

  /** The body of the prepare-download endpoint. */
  datatype LinkJson = LinkJson(href: Option<string>)

  /** The errors the methods throw; each keeps what its message reports. */
  datatype Error =
    | ListingError(status: int, statusText: string, body: string)
    | UserInfoError(status: int, statusText: string, body: string)
    | SizeError(status: int, statusText: string)
    | LinkError(status: int, statusText: string, body: string)
    | DownloadError(statusText: string)
    | WriteError(reason: string)
    | TypeError(reason: string)

  /** The byte stream over the body of the GET of `url`. */
  datatype Stream = Stream(url: string)

  /** `{ success, message }` of `downloadAndSave`. */
  datatype SaveResult = SaveResult(success: bool, message: string)

  const SAVED_MESSAGE := "Файл успешно сохранен"

  function SizeUrl(id: string): string { BASE_URL + "?path=" + UriComponent.Encode(id) }

  function DownloadLinkUrl(id: string): string { BASE_URL + "/download?path=" + UriComponent.Encode(id) }

  class YandexDisk {
    var storage: Session.TokenStorage?

    constructor(storage: Session.TokenStorage?)
      ensures this.storage == storage
    {
      this.storage := storage;
    }

    /** `getUserInfo`: the `user` object of the account info, or a failure carrying the response. */
    method GetUserInfo(token: string, resp: Response<UserInfoJson>)
      returns (request: Request, r: Result<Option<Adapter.User>, Error>)
      ensures request == Get(USER_INFO_URL, token)
      ensures IsOk(resp) ==> r == Success(resp.json.user)
      ensures !IsOk(resp) ==> r == Failure(UserInfoError(resp.status, resp.statusText, resp.text))
    {
      request := Get(USER_INFO_URL, token);
      if !IsOk(resp) {
        return request, Failure(UserInfoError(resp.status, resp.statusText, resp.text));
      }
      r := Success(resp.json.user);
    }

    /**
     * `list`: one listing request for the resolved directory, limit and offset;
     * then, only if it succeeded, one account-info request; then the transform.
     * Any failure aborts the call, so no partial page is ever returned.
     */
    method List(token: string, directory: Option<string>, query: Query,
                listResp: Response<RawListing>, userResp: Response<UserInfoJson>,
                lookup: Adapter.MimeLookup)
      returns (requests: seq<Request>, r: Result<Adapter.ListingPage, Error>)
      ensures |requests| >= 1 && requests[0] == Get(ListUrl(ResolveQuery(directory, query)), token)
      ensures !IsOk(listResp) ==>
        |requests| == 1 && r == Failure(ListingError(listResp.status, listResp.statusText, listResp.text))
      ensures IsOk(listResp) ==> |requests| == 2 && requests[1] == Get(USER_INFO_URL, token)
      ensures IsOk(listResp) && !IsOk(userResp) ==>
        r == Failure(UserInfoError(userResp.status, userResp.statusText, userResp.text))
      ensures r.Success? <==> IsOk(listResp) && IsOk(userResp) && userResp.json.user.Some?
      ensures IsOk(listResp) && IsOk(userResp) && userResp.json.user.None? ==> r.Failure? && r.error.TypeError?
      ensures r.Success? ==>
        Adapter.IsTransformOf(r.value, listResp.json, userResp.json.user.value,
                              ResolveQuery(directory, query).directory, lookup)
    {
      var params := ResolveQuery(directory, query);
      var listRequest := Get(ListUrl(params), token);
      requests := [listRequest];
      if !IsOk(listResp) {
        return requests, Failure(ListingError(listResp.status, listResp.statusText, listResp.text));
      }
      var data := listResp.json;
      var userRequest, userInfo := GetUserInfo(token, userResp);
      requests := requests + [userRequest];
      if userInfo.Failure? {
        return requests, Failure(userInfo.error);
      }
      if userInfo.value.None? {
        // `transformData` reads `userInfo.display_name` of `undefined`
        return requests, Failure(TypeError("Cannot read properties of undefined (reading 'display_name')"));
      }
      var page := Adapter.TransformData(data, userInfo.value.value, params.directory, lookup);
      r := Success(page);
    }

    /** `size`: the reported size, null when it is missing or 0; a failure on a non-ok response. */
    method Size(token: string, id: string, resp: Response<ResourceJson>)
      returns (request: Request, r: Result<Option<int>, Error>)
      ensures request == Get(SizeUrl(id), token)
      ensures UriComponent.Decode(request.url[|BASE_URL + "?path="|..]) == Some(id)
      ensures !IsOk(resp) ==> r == Failure(SizeError(resp.status, resp.statusText))
      ensures IsOk(resp) ==> r == Success(Js.NumberOrNull(resp.json.size))
      ensures IsOk(resp) && r.value.Some? ==> r.value == resp.json.size && r.value.value != 0
      ensures IsOk(resp) && (resp.json.size == None || resp.json.size == Some(0)) ==> r == Success(None)
    {
      request := Get(SizeUrl(id), token);
      assert request.url[|BASE_URL + "?path="|..] == UriComponent.Encode(id);
      UriComponent.DecodeEncode(id);
      if !IsOk(resp) {
        return request, Failure(SizeError(resp.status, resp.statusText));
      }
      r := Success(Js.NumberOrNull(resp.json.size));
    }

    /** `downloadLink`: the `href` of the prepare-download response. */
    method DownloadLink(token: string, id: string, resp: Response<LinkJson>)
      returns (request: Request, r: Result<Option<string>, Error>)
      ensures request == Get(DownloadLinkUrl(id), token)
      ensures UriComponent.Decode(request.url[|BASE_URL + "/download?path="|..]) == Some(id)
      ensures IsOk(resp) ==> r == Success(resp.json.href)
      ensures !IsOk(resp) ==> r == Failure(LinkError(resp.status, resp.statusText, resp.text))
    {
      request := Get(DownloadLinkUrl(id), token);
      assert request.url[|BASE_URL + "/download?path="|..] == UriComponent.Encode(id);
      UriComponent.DecodeEncode(id);
      if !IsOk(resp) {
        return request, Failure(LinkError(resp.status, resp.statusText, resp.text));
      }
      r := Success(resp.json.href);
    }

    /**
     * `download`: resolve the link, then GET it with the token. `fetch` of an
     * `undefined` link rejects before any request is made.
     */
    method Download(token: string, id: string, linkResp: Response<LinkJson>, fileResp: Response<()>)
      returns (requests: seq<Request>, r: Result<Stream, Error>)
      ensures |requests| >= 1 && requests[0] == Get(DownloadLinkUrl(id), token)
      ensures !IsOk(linkResp) ==>
        |requests| == 1 && r == Failure(LinkError(linkResp.status, linkResp.statusText, linkResp.text))
      ensures IsOk(linkResp) && linkResp.json.href.None? ==> |requests| == 1 && r.Failure? && r.error.TypeError?
      ensures IsOk(linkResp) && linkResp.json.href.Some? ==>
        |requests| == 2 && requests[1] == Get(linkResp.json.href.value, token) &&
        r == (if IsOk(fileResp) then Success(Stream(linkResp.json.href.value))
              else Failure(DownloadError(fileResp.statusText)))
    {
      var linkRequest, link := DownloadLink(token, id, linkResp);
      requests := [linkRequest];
      if link.Failure? {
        return requests, Failure(link.error);
      }
      if link.value.None? {
        return requests, Failure(TypeError("Failed to parse URL from undefined"));
      }
      var url := link.value.value;
      requests := requests + [Get(url, token)];
      if !IsOk(fileResp) {
        return requests, Failure(DownloadError(fileResp.statusText));
      }
      r := Success(Stream(url));
    }

    /**
     * `downloadAndSave` as written: after both responses succeed it calls
     * `response.body.pipe(writeStream)`, but the body of the built-in `fetch`
     * is a web `ReadableStream`, which has no `pipe` method; the call throws
     * and the method never reports success.
     */
    method DownloadAndSave(token: string, id: string, savePath: string,
                           linkResp: Response<LinkJson>, fileResp: Response<()>)
      returns (requests: seq<Request>, r: Result<SaveResult, Error>)
      ensures |requests| >= 1 && requests[0] == Get(DownloadLinkUrl(id), token)
      ensures !IsOk(linkResp) ==>
        |requests| == 1 && r == Failure(LinkError(linkResp.status, linkResp.statusText, linkResp.text))
      ensures IsOk(linkResp) && linkResp.json.href.None? ==> |requests| == 1 && r.Failure? && r.error.TypeError?
      ensures IsOk(linkResp) && linkResp.json.href.Some? ==>
        |requests| == 2 && requests[1] == Get(linkResp.json.href.value, token)
      ensures IsOk(linkResp) && linkResp.json.href.Some? && !IsOk(fileResp) ==>
        r == Failure(DownloadError(fileResp.statusText))
      ensures IsOk(linkResp) && linkResp.json.href.Some? && IsOk(fileResp) ==> r.Failure? && r.error.TypeError?
      ensures !r.Success?
    {
      var linkRequest, link := DownloadLink(token, id, linkResp);
      requests := [linkRequest];
      if link.Failure? {
        return requests, Failure(link.error);
      }
      if link.value.None? {
        return requests, Failure(TypeError("Failed to parse URL from undefined"));
      }
      var url := link.value.value;
      requests := requests + [Get(url, token)];
      if !IsOk(fileResp) {
        return requests, Failure(DownloadError(fileResp.statusText));
      }
      r := Failure(TypeError("response.body.pipe is not a function"));
    }

    /**
     * `downloadAndSave` as evidently intended: the web stream is adapted with
     * `Readable.fromWeb` (as `download` does) and piped into the file; the call
     * succeeds once the write stream emits `finish`, and fails with the write
     * stream's `error` otherwise (`writeError`, an input here).
     */
    method DownloadAndSaveCorrected(token: string, id: string, savePath: string,
                                    linkResp: Response<LinkJson>, fileResp: Response<()>,
                                    writeError: Option<string>)
      returns (requests: seq<Request>, r: Result<SaveResult, Error>)
      ensures |requests| >= 1 && requests[0] == Get(DownloadLinkUrl(id), token)
      ensures !IsOk(linkResp) ==>
        |requests| == 1 && r == Failure(LinkError(linkResp.status, linkResp.statusText, linkResp.text))
      ensures IsOk(linkResp) && linkResp.json.href.None? ==> |requests| == 1 && r.Failure? && r.error.TypeError?
      ensures IsOk(linkResp) && linkResp.json.href.Some? ==>
        |requests| == 2 && requests[1] == Get(linkResp.json.href.value, token)
      ensures IsOk(linkResp) && linkResp.json.href.Some? && !IsOk(fileResp) ==>
        r == Failure(DownloadError(fileResp.statusText))
      ensures r.Success? <==>
        IsOk(linkResp) && linkResp.json.href.Some? && IsOk(fileResp) && writeError.None?
      ensures r.Success? ==> r.value == SaveResult(true, SAVED_MESSAGE) && |requests| == 2
      ensures IsOk(linkResp) && linkResp.json.href.Some? && IsOk(fileResp) && writeError.Some? ==>
        r == Failure(WriteError(writeError.value))
    {
      var linkRequest, link := DownloadLink(token, id, linkResp);
      requests := [linkRequest];
      if link.Failure? {
        return requests, Failure(link.error);
      }
      if link.value.None? {
        return requests, Failure(TypeError("Failed to parse URL from undefined"));
      }
      var url := link.value.value;
      requests := requests + [Get(url, token)];
      if !IsOk(fileResp) {
        return requests, Failure(DownloadError(fileResp.statusText));
      }
      if writeError.Some? {
        return requests, Failure(WriteError(writeError.value));
      }
      r := Success(SaveResult(true, SAVED_MESSAGE));
    }

    /** `logout`: removes the token entry when a storage is attached; always reports success. */
    method Logout() returns (r: Session.LogoutResult)
      modifies storage
      ensures r.success
      ensures storage != null ==> storage.entries == old(storage.entries) - {Session.AUTH_TOKEN_KEY}
    {
      if storage != null {
        storage.RemoveItem(Session.AUTH_TOKEN_KEY);
      }
      r := Session.LogoutResult(true);
    }
  }
}
