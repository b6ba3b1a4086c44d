/**
  The OpenLoad client of openload/openload.py: the base URL, the credential
  merge of `_get`, every endpoint's path and parameters, and the two legs
  of `upload_file`. The HTTP GET is the parameter `transport`, the upload
  POST the parameter `post`; both return the decoded response envelope.
*/
module Client {
  import opened Wrappers
  import opened ApiExceptions
  import opened Query
  import opened Status

  /** A format string as `str.format` reads it: literal text and named replacement fields. */
  datatype Piece = Text(text: string) | Field(name: string)

  /** Every replacement field of the template is named `name` (otherwise `format` raises KeyError). */
  predicate OnlyField(template: seq<Piece>, name: string) {
    forall i :: 0 <= i < |template| && template[i].Field? ==> template[i].name == name
  }

  /** The class attributes `api_base_url` and `api_version`. */
  const ApiBaseUrlTemplate: seq<Piece> := [Text("https://api.openload.co/"), Field("api_version"), Text("/")]
  const ApiVersion: string := "1"

  /** `template.format(name=value)`: literal text is copied, each field `{name}` becomes `value`. */
  function Format(template: seq<Piece>, name: string, value: string): (r: string)
    requires OnlyField(template, name)
    ensures template == [] ==> r == []
    ensures |template| == 1 && template[0].Text? ==> r == template[0].text
    ensures |template| == 1 && template[0].Field? ==> r == value
  {
    if template == [] then
      []
    else
      (match template[0]
       case Text(t) => t
       case Field(_) => value)
      + Format(template[1..], name, value)
  }

  /** Formatting a concatenation of templates concatenates the formatted parts. */
  lemma {:induction false} FormatAppend(t1: seq<Piece>, t2: seq<Piece>, name: string, value: string)
    requires OnlyField(t1, name) && OnlyField(t2, name)
    ensures OnlyField(t1 + t2, name)
    ensures Format(t1 + t2, name, value) == Format(t1, name, value) + Format(t2, name, value)
    decreases |t1|
  {
    assert forall i :: 0 <= i < |t1 + t2| ==> (t1 + t2)[i] == if i < |t1| then t1[i] else t2[i - |t1|];
    if t1 == [] {
      assert t1 + t2 == t2;
    } else {
      assert (t1 + t2)[0] == t1[0] && (t1 + t2)[1..] == t1[1..] + t2;
      FormatAppend(t1[1..], t2, name, value);
      var head := match t1[0] case Text(t) => t case Field(_) => value;
      calc {
        Format(t1 + t2, name, value);
        head + Format(t1[1..] + t2, name, value);
        head + (Format(t1[1..], name, value) + Format(t2, name, value));
        (head + Format(t1[1..], name, value)) + Format(t2, name, value);
        Format(t1, name, value) + Format(t2, name, value);
      }
    }
  }

  /** `api_base_url.format(api_version=api_version)` is always the same URL. */
  lemma BaseUrlIsFixed()
    ensures OnlyField(ApiBaseUrlTemplate, "api_version")
    ensures Format(ApiBaseUrlTemplate, "api_version", ApiVersion) == "https://api.openload.co/1/"
  {
  }

  /** `upload_link`'s parameters: each of folder, sha1, httponly only when truthy. */
  function UploadLinkParams(folderId: Value, sha1: Value, httponly: Value): (r: map<string, Value>)
    ensures r.Keys <= {"folder", "sha1", "httponly"}
    ensures ("folder" in r <==> Truthy(folderId)) && ("folder" in r ==> r["folder"] == folderId)
    ensures ("sha1" in r <==> Truthy(sha1)) && ("sha1" in r ==> r["sha1"] == sha1)
    ensures ("httponly" in r <==> Truthy(httponly)) && ("httponly" in r ==> r["httponly"] == httponly)
  {
    KeepTruthy(map["folder" := folderId, "sha1" := sha1, "httponly" := httponly])
  }

  /** `remote_upload_status`'s parameters: limit and id only when truthy. */
  function RemoteUploadStatusParams(limit: Value, remoteUploadId: Value): (r: map<string, Value>)
    ensures r.Keys <= {"limit", "id"}
    ensures ("limit" in r <==> Truthy(limit)) && ("limit" in r ==> r["limit"] == limit)
    ensures ("id" in r <==> Truthy(remoteUploadId)) && ("id" in r ==> r["id"] == remoteUploadId)
  {
    KeepTruthy(map["limit" := limit, "id" := remoteUploadId])
  }

  /** `list_folder`'s and `running_conversions`' parameters: folder only when truthy. */
  function FolderParams(folderId: Value): (r: map<string, Value>)
    ensures r.Keys <= {"folder"}
    ensures ("folder" in r <==> Truthy(folderId)) && ("folder" in r ==> r["folder"] == folderId)
  {
    if Truthy(folderId) then map["folder" := folderId] else map[]
  }

  /** `get_download_link`'s parameters: ticket and file always, captcha_response when truthy. */
  function DownloadLinkParams(fileId: Value, ticket: Value, captchaResponse: Value): (r: map<string, Value>)
    ensures r.Keys == {"ticket", "file"} + (if Truthy(captchaResponse) then {"captcha_response"} else {})
    ensures r["ticket"] == ticket && r["file"] == fileId
    ensures "captcha_response" in r ==> r["captcha_response"] == captchaResponse
  {
    var params := map["ticket" := ticket, "file" := fileId];
    if Truthy(captchaResponse) then params["captcha_response" := captchaResponse] else params
  }

  /** `remote_upload`'s parameters: url always, folder and headers when truthy. */
  function RemoteUploadParams(remoteUrl: Value, folderId: Value, headers: Value): (r: map<string, Value>)
    ensures r.Keys <= {"url", "folder", "headers"}
    ensures "url" in r && r["url"] == remoteUrl
    ensures ("folder" in r <==> Truthy(folderId)) && ("folder" in r ==> r["folder"] == folderId)
    ensures ("headers" in r <==> Truthy(headers)) && ("headers" in r ==> r["headers"] == headers)
  {
    map["url" := remoteUrl] + KeepTruthy(map["folder" := folderId, "headers" := headers])
  }

  class OpenLoad {
    const login: string
    const key: string
    const apiUrl: string

    /** The fields `__init__` sets and nothing changes: the base URL is the formatted constant. */
    ghost predicate Valid() {
      apiUrl == "https://api.openload.co/1/"
    }

    /** `__init__`: keep the credentials and format the base URL from the class constants. */
    constructor (apiLogin: string, apiKey: string)
      ensures Valid()
      ensures login == apiLogin && key == apiKey
    {
      login := apiLogin;
      key := apiKey;
      apiUrl := Format(ApiBaseUrlTemplate, "api_version", ApiVersion);
      BaseUrlIsFixed();
    }

    /** The two authentication parameters `_get` adds to every request. */
    function Credentials(): (r: map<string, Value>)
      ensures r.Keys == {"login", "key"}
      ensures r["login"] == Str(login) && r["key"] == Str(key)
    {
      map["login" := Str(login), "key" := Str(key)]
    }

    /**
      The parameters `_get` sends: the caller's map (none counts as empty)
      with login and key written over it.
    */
    function AuthParams(params: Option<map<string, Value>>): (r: map<string, Value>)
      ensures "login" in r && r["login"] == Str(login) && "key" in r && r["key"] == Str(key)
      ensures params.None? ==> r.Keys == {"login", "key"}
      ensures params.Some? ==> r.Keys == params.value.Keys + {"login", "key"}
      ensures params.Some? ==> forall k :: k in params.value && k != "login" && k != "key" ==>
                r[k] == params.value[k]
    {
      match params
      case None => Credentials()
      case Some(m) => m + Credentials()
    }

    /** A login or key in the caller's map never reaches the request. */
    lemma CallerCannotOverrideCredentials(m: map<string, Value>, login': Value, key': Value)
      ensures AuthParams(Some(m["login" := login']["key" := key'])) == AuthParams(Some(m))
    {
    }

    /** No map and an empty map both send exactly the credentials. */
    lemma NoParamsSendsOnlyCredentials()
      ensures AuthParams(None) == Credentials()
      ensures AuthParams(Some(map[])) == Credentials()
    {
    }

    /** `_get`: merge the credentials into the parameters, GET, process the envelope. */
    method Get<P>(transport: Request -> Envelope<P>, path: string, params: Option<map<string, Value>>)
      returns (r: Result<P, ErrorKind>)
      ensures r == ProcessResponse(transport(Request(apiUrl + path, AuthParams(params))))
    {
      var p: map<string, Value>;
      if params.None? || params.value == map[] {
        p := map[];
      } else {
        p := params.value;
      }
      p := p["login" := Str(login)];
      p := p["key" := Str(key)];
      assert p == AuthParams(params);
      var response := transport(Request(apiUrl + path, p));
      r := ProcessResponse(response);
    }

    /** `account_info`: GET account/info with only the credentials. */
    method AccountInfo<P>(transport: Request -> Envelope<P>) returns (r: Result<P, ErrorKind>)
      requires Valid()
      ensures r == ProcessResponse(transport(Request("https://api.openload.co/1/account/info",
                     map["login" := Str(login), "key" := Str(key)])))
    {
      assert apiUrl + "account/info" == "https://api.openload.co/1/account/info";
      assert AuthParams(None) == map["login" := Str(login), "key" := Str(key)];
      r := Get(transport, "account/info", None);
    }

    /** `prepare_download`: GET file/dlticket with file. */
    method PrepareDownload<P>(transport: Request -> Envelope<P>, fileId: Value) returns (r: Result<P, ErrorKind>)
      requires Valid()
      ensures r == ProcessResponse(transport(Request("https://api.openload.co/1/file/dlticket",
                     map["file" := fileId, "login" := Str(login), "key" := Str(key)])))
    {
      assert apiUrl + "file/dlticket" == "https://api.openload.co/1/file/dlticket";
      assert AuthParams(Some(map["file" := fileId]))
          == map["file" := fileId, "login" := Str(login), "key" := Str(key)];
      r := Get(transport, "file/dlticket", Some(map["file" := fileId]));
    }

    /** `get_download_link`: GET file/dl with ticket, file and a truthy captcha_response. */
    method GetDownloadLink<P>(transport: Request -> Envelope<P>, fileId: Value, ticket: Value, captchaResponse: Value)
      returns (r: Result<P, ErrorKind>)
      requires Valid()
      ensures r == ProcessResponse(transport(Request("https://api.openload.co/1/file/dl",
                     DownloadLinkParams(fileId, ticket, captchaResponse) + Credentials())))
    {
      var params := map["ticket" := ticket, "file" := fileId];
      if Truthy(captchaResponse) {
        params := params["captcha_response" := captchaResponse];
      }
      assert apiUrl + "file/dl" == "https://api.openload.co/1/file/dl";
      r := Get(transport, "file/dl", Some(params));
    }

    /** `file_info`: GET file/info with file (one id or comma-separated ids, passed through). */
    method FileInfo<P>(transport: Request -> Envelope<P>, fileId: Value) returns (r: Result<P, ErrorKind>)
      requires Valid()
      ensures r == ProcessResponse(transport(Request("https://api.openload.co/1/file/info",
                     map["file" := fileId, "login" := Str(login), "key" := Str(key)])))
    {
      assert apiUrl + "file/info" == "https://api.openload.co/1/file/info";
      assert AuthParams(Some(map["file" := fileId]))
          == map["file" := fileId, "login" := Str(login), "key" := Str(key)];
      r := Get(transport, "file/info", Some(map["file" := fileId]));
    }

    /** `upload_link`: GET file/ul with the truthy ones of folder, sha1, httponly. */
    method UploadLink<P>(transport: Request -> Envelope<P>, folderId: Value, sha1: Value, httponly: Value)
      returns (r: Result<P, ErrorKind>)
      requires Valid()
      ensures r == ProcessResponse(transport(Request("https://api.openload.co/1/file/ul",
                     UploadLinkParams(folderId, sha1, httponly) + Credentials())))
    {
      assert apiUrl + "file/ul" == "https://api.openload.co/1/file/ul";
      r := Get(transport, "file/ul", Some(UploadLinkParams(folderId, sha1, httponly)));
    }

    /**
      `upload_file`: obtain an upload URL from `upload_link` (its error
      propagates), POST the file there without credentials, and put the
      POST's envelope through the same status check.
    */
    method UploadFile<P>(transport: Request -> Envelope<P>, post: string -> Envelope<P>, urlOf: P -> string,
                         folderId: Value, sha1: Value, httponly: Value)
      returns (r: Result<P, ErrorKind>)
      requires Valid()
      ensures var link := ProcessResponse(transport(Request("https://api.openload.co/1/file/ul",
                            UploadLinkParams(folderId, sha1, httponly) + Credentials())));
              r == match link
                   case Failure(e) => Failure(e)
                   case Success(info) => ProcessResponse(post(urlOf(info)))
    {
      var link := UploadLink(transport, folderId, sha1, httponly);
      if link.Failure? {
        return Failure(link.error);
      }
      var uploadUrl := urlOf(link.value);
      var response := post(uploadUrl);
      var outcome := CheckStatus(response);
      if outcome.Raise? {
        return Failure(outcome.error);
      }
      r := Success(response.result);
    }

    /** `remote_upload`: GET remotedl/add with url, and folder and headers when truthy. */
    method RemoteUpload<P>(transport: Request -> Envelope<P>, remoteUrl: Value, folderId: Value, headers: Value)
      returns (r: Result<P, ErrorKind>)
      requires Valid()
      ensures r == ProcessResponse(transport(Request("https://api.openload.co/1/remotedl/add",
                     RemoteUploadParams(remoteUrl, folderId, headers) + Credentials())))
    {
      var kwargs := map["folder" := folderId, "headers" := headers];
      var params := map["url" := remoteUrl];
      params := params + KeepTruthy(kwargs);
      assert apiUrl + "remotedl/add" == "https://api.openload.co/1/remotedl/add";
      r := Get(transport, "remotedl/add", Some(params));
    }

    /** `remote_upload_status`: GET remotedl/status with the truthy ones of limit and id. */
    method RemoteUploadStatus<P>(transport: Request -> Envelope<P>, limit: Value, remoteUploadId: Value)
      returns (r: Result<P, ErrorKind>)
      requires Valid()
      ensures r == ProcessResponse(transport(Request("https://api.openload.co/1/remotedl/status",
                     RemoteUploadStatusParams(limit, remoteUploadId) + Credentials())))
    {
      assert apiUrl + "remotedl/status" == "https://api.openload.co/1/remotedl/status";
      r := Get(transport, "remotedl/status", Some(RemoteUploadStatusParams(limit, remoteUploadId)));
    }

    /** `list_folder`: GET file/listfolder, with folder only when truthy. */
    method ListFolder<P>(transport: Request -> Envelope<P>, folderId: Value) returns (r: Result<P, ErrorKind>)
      requires Valid()
      ensures r == ProcessResponse(transport(Request("https://api.openload.co/1/file/listfolder",
                     FolderParams(folderId) + Credentials())))
    {
      assert apiUrl + "file/listfolder" == "https://api.openload.co/1/file/listfolder";
      r := Get(transport, "file/listfolder", Some(FolderParams(folderId)));
    }

    /** `rename_folder`: GET file/renamefolder with folder and name. */
    method RenameFolder<P>(transport: Request -> Envelope<P>, folderId: Value, name: Value)
      returns (r: Result<P, ErrorKind>)
      requires Valid()
      ensures r == ProcessResponse(transport(Request("https://api.openload.co/1/file/renamefolder",
                     map["folder" := folderId, "name" := name, "login" := Str(login), "key" := Str(key)])))
    {
      assert apiUrl + "file/renamefolder" == "https://api.openload.co/1/file/renamefolder";
      assert AuthParams(Some(map["folder" := folderId, "name" := name]))
          == map["folder" := folderId, "name" := name, "login" := Str(login), "key" := Str(key)];
      r := Get(transport, "file/renamefolder", Some(map["folder" := folderId, "name" := name]));
    }

    /** `rename_file`: GET file/rename with file and name. */
    method RenameFile<P>(transport: Request -> Envelope<P>, fileId: Value, name: Value)
      returns (r: Result<P, ErrorKind>)
      requires Valid()
      ensures r == ProcessResponse(transport(Request("https://api.openload.co/1/file/rename",
                     map["file" := fileId, "name" := name, "login" := Str(login), "key" := Str(key)])))
    {
      assert apiUrl + "file/rename" == "https://api.openload.co/1/file/rename";
      assert AuthParams(Some(map["file" := fileId, "name" := name]))
          == map["file" := fileId, "name" := name, "login" := Str(login), "key" := Str(key)];
      r := Get(transport, "file/rename", Some(map["file" := fileId, "name" := name]));
    }

    /** `delete_file`: GET file/delete with file. */
    method DeleteFile<P>(transport: Request -> Envelope<P>, fileId: Value) returns (r: Result<P, ErrorKind>)
      requires Valid()
      ensures r == ProcessResponse(transport(Request("https://api.openload.co/1/file/delete",
                     map["file" := fileId, "login" := Str(login), "key" := Str(key)])))
    {
      assert apiUrl + "file/delete" == "https://api.openload.co/1/file/delete";
      assert AuthParams(Some(map["file" := fileId]))
          == map["file" := fileId, "login" := Str(login), "key" := Str(key)];
      r := Get(transport, "file/delete", Some(map["file" := fileId]));
    }

    /** `convert_file`: GET file/convert with file. */
    method ConvertFile<P>(transport: Request -> Envelope<P>, fileId: Value) returns (r: Result<P, ErrorKind>)
      requires Valid()
      ensures r == ProcessResponse(transport(Request("https://api.openload.co/1/file/convert",
                     map["file" := fileId, "login" := Str(login), "key" := Str(key)])))
    {
      assert apiUrl + "file/convert" == "https://api.openload.co/1/file/convert";
      assert AuthParams(Some(map["file" := fileId]))
          == map["file" := fileId, "login" := Str(login), "key" := Str(key)];
      r := Get(transport, "file/convert", Some(map["file" := fileId]));
    }

    /** `running_conversions`: GET file/runningconverts, with folder only when truthy. */
    method RunningConversions<P>(transport: Request -> Envelope<P>, folderId: Value) returns (r: Result<P, ErrorKind>)
      requires Valid()
      ensures r == ProcessResponse(transport(Request("https://api.openload.co/1/file/runningconverts",
                     FolderParams(folderId) + Credentials())))
    {
      assert apiUrl + "file/runningconverts" == "https://api.openload.co/1/file/runningconverts";
      r := Get(transport, "file/runningconverts", Some(FolderParams(folderId)));
    }

    /** `failed_conversions`: never calls the API and always raises NotImplementedError. */
    method FailedConversions<P>() returns (r: Result<P, ErrorKind>)
      ensures r == Failure(NotImplemented)
    {
      r := Failure(NotImplemented);
    }

    /** `splash_image`: GET file/getsplash with file. */
    method SplashImage<P>(transport: Request -> Envelope<P>, fileId: Value) returns (r: Result<P, ErrorKind>)
      requires Valid()
      ensures r == ProcessResponse(transport(Request("https://api.openload.co/1/file/getsplash",
                     map["file" := fileId, "login" := Str(login), "key" := Str(key)])))
    {
      assert apiUrl + "file/getsplash" == "https://api.openload.co/1/file/getsplash";
      assert AuthParams(Some(map["file" := fileId]))
          == map["file" := fileId, "login" := Str(login), "key" := Str(key)];
      r := Get(transport, "file/getsplash", Some(map["file" := fileId]));
    }
  }
}
