# PyOpenload client, modelled in Dafny

A model of the `OpenLoad` client class of PyOpenload, a thin wrapper around the
openload.co REST API. The client builds one GET request per API call out of a
fixed base URL, a relative path per endpoint and a query-parameter map. It adds the
account's `login` and `key` to every request, sends it, and turns the JSON response
envelope `{status, msg, result}` into a result or one of the library's exceptions.
Uploads take two legs: a GET to `file/ul` for an upload URL, then a multipart POST
to that URL, whose envelope gets the same status check.

Files and modules:

- `wrappers.dfy` (`Wrappers`): `Option` for Python's optional arguments, and
  `Result` for "returns a value or raises".
- `api_exceptions.dfy` (`ApiExceptions`): `ErrorKind` has one constructor per
  exception class in `openload/api_exceptions.py`, each carrying `msg`. It has one
  more constructor, `NotImplemented`, for the `NotImplementedError` that
  `failed_conversions` raises.
- `query.dfy` (`Query`):
  - `Value` stands for a Python argument value: `Str`, `Int`, `Bool`, `Dict`, or
    `Null` for Python's `None`.
  - `Truthy` is Python truthiness.
  - `KeepTruthy` is the dict comprehension `{k: v for k, v in kwargs.items() if v}`.
  - `Request` is a full URL plus a parameter map.
- `status.dfy` (`Status`): the response `Envelope`, `CheckStatus` (`_check_status`)
  and `ProcessResponse` (`_process_response`).
- `client.dfy` (`Client`):
  - `str.format` on the base-URL template;
  - the parameter map of each endpoint;
  - the class `OpenLoad`, whose `login`, `key` and `apiUrl` are set once by
    the constructor and never change.

  Outside parties become parameters of the methods:
  - `transport: Request -> Envelope<P>` is the HTTP GET together with its JSON
    decoding;
  - `post: string -> Envelope<P>` is the multipart upload POST to a URL;
  - `urlOf: P -> string` reads `url` out of the `upload_link` result.

  `P`, the type of `result`, is left abstract because the client passes it
  through untouched.

Python's exceptions become `Result.Failure`. An exception raised by the first leg
of `upload_file` propagates, so the POST never happens.

## Model

| member | source | states |
|---|---|---|
| `Status.CheckStatus` | openload/openload.py:46-62 | Raises exactly when status is one of 400, 403, 404, 429, 451, 509 or is at least 500. A raised error is never NotImplemented and carries `msg` verbatim. A dedicated kind is raised only by its own code. Otherwise the kind is ServerError, for a status of at least 500 other than 509. |
| `Status.ProcessResponse` | openload/openload.py:76-77 | Succeeds exactly when the status check passes, and then returns `result` unchanged. Otherwise it fails with the error that the check raised. |
| `Status.DedicatedStatusRaises` | openload/openload.py:49-60 | Each of BadRequest, PermissionDenied, FileNotFound, TooManyRequests, UnavailableForLegalReasons and BandwidthUsageExceeded is raised by its own code (400, 403, 404, 429, 451, 509), with the message verbatim. |
| `Status.ServerErrorRange` | openload/openload.py:59-62 | Every status of at least 500 except 509 raises ServerError carrying `msg`. |
| `Status.BandwidthBeforeServerError` | openload/openload.py:59-62 | 509 is tested before the catch-all `>= 500`, so it never raises ServerError. |
| `Status.UnmatchedStatusSucceeds` | openload/openload.py:46-77 | Any status outside the six dedicated codes and below 500 (200, 401, 402, ...) raises nothing, and `_process_response` returns `result` unchanged. |
| `Query.KeepTruthy` | openload/openload.py:231 | A key is kept if and only if it was given with a truthy value, and it keeps that value. |
| `Query.KeepTruthyIdempotent` | openload/openload.py:231 | Filtering an already filtered map changes nothing. |
| `Query.KeepTruthyOfTruthy` | openload/openload.py:231 | A map whose values are all truthy passes through the filter unchanged. |
| `Client.Format` | openload/openload.py:33 | `format` on a template with no fields returns the text, and a lone field formats to the value. |
| `Client.FormatAppend` | openload/openload.py:33 | Formatting two templates joined together gives the two formatted parts joined together. |
| `Client.BaseUrlIsFixed` | openload/openload.py:14-15 | Formatting `https://api.openload.co/{api_version}/` with version `1` always gives `https://api.openload.co/1/`. |
| `Client.UploadLinkParams` | openload/openload.py:230-231 | `folder`, `sha1` and `httponly` are each present exactly when the argument is truthy, with its value. No other key appears, so `httponly=False` is absent. |
| `Client.RemoteUploadStatusParams` | openload/openload.py:342-343 | `limit` and `id` are each present exactly when truthy, with its value. No other key appears, so `limit=0` is absent. |
| `Client.FolderParams` | openload/openload.py:391 | `folder` is present exactly when `folder_id` is truthy, and it is the only possible key. |
| `Client.DownloadLinkParams` | openload/openload.py:170-173 | `ticket` and `file` are always present with their values. `captcha_response` is present exactly when truthy, so the empty string is omitted. |
| `Client.RemoteUploadParams` | openload/openload.py:298-300 | `url` is always present with its value. `folder` and `headers` are present exactly when truthy. No other key appears. |
| `Client.OpenLoad.constructor` | openload/openload.py:17-33 | Keeps the given login and key, and the base URL is `https://api.openload.co/1/`. |
| `Client.OpenLoad.Credentials` | openload/openload.py:93 | The map `_get` merges in has exactly the keys `login` and `key`, which hold the client's credentials. |
| `Client.OpenLoad.AuthParams` | openload/openload.py:90-93 | The sent map holds `login` and `key` with the client's values. Its keys are the caller's keys plus those two, or just those two when the caller gave no map. Every other caller key keeps its value. |
| `Client.OpenLoad.CallerCannotOverrideCredentials` | openload/openload.py:93 | A `login` or `key` in the caller's map makes no difference to what is sent. |
| `Client.OpenLoad.NoParamsSendsOnlyCredentials` | openload/openload.py:90-93 | No map and an empty map both send exactly `{login, key}`. |
| `Client.OpenLoad.Get` | openload/openload.py:79-97 | Sends one GET to the base URL plus the path, carrying the credential-merged parameters. It returns the processed envelope of the reply. |
| `Client.OpenLoad.AccountInfo` | openload/openload.py:119 | GET `https://api.openload.co/1/account/info` with exactly `{login, key}`; the reply is processed. |
| `Client.OpenLoad.PrepareDownload` | openload/openload.py:141 | GET `.../file/dlticket` with exactly `{file, login, key}`. |
| `Client.OpenLoad.GetDownloadLink` | openload/openload.py:170-175 | GET `.../file/dl` with the download-link parameters plus the credentials. |
| `Client.OpenLoad.FileInfo` | openload/openload.py:207 | GET `.../file/info` with exactly `{file, login, key}`. |
| `Client.OpenLoad.UploadLink` | openload/openload.py:230-232 | GET `.../file/ul` with the truthy upload options plus the credentials. |
| `Client.OpenLoad.UploadFile` | openload/openload.py:261-275 | If the `file/ul` request fails, that error is the result. Otherwise the result is the status-checked envelope of one POST to the returned URL. The POST is given only that URL, with no credentials. |
| `Client.OpenLoad.RemoteUpload` | openload/openload.py:298-302 | GET `.../remotedl/add` with `url`, the truthy ones of `folder` and `headers`, and the credentials. |
| `Client.OpenLoad.RemoteUploadStatus` | openload/openload.py:342-345 | GET `.../remotedl/status` with the truthy ones of `limit` and `id` plus the credentials. |
| `Client.OpenLoad.ListFolder` | openload/openload.py:391-393 | GET `.../file/listfolder` with `folder` only when truthy, plus the credentials. |
| `Client.OpenLoad.RenameFolder` | openload/openload.py:409 | GET `.../file/renamefolder` with exactly `{folder, name, login, key}`. |
| `Client.OpenLoad.RenameFile` | openload/openload.py:422 | GET `.../file/rename` with exactly `{file, name, login, key}`. |
| `Client.OpenLoad.DeleteFile` | openload/openload.py:434 | GET `.../file/delete` with exactly `{file, login, key}`. |
| `Client.OpenLoad.ConvertFile` | openload/openload.py:446 | GET `.../file/convert` with exactly `{file, login, key}`. |
| `Client.OpenLoad.RunningConversions` | openload/openload.py:475-476 | GET `.../file/runningconverts` with `folder` only when truthy, plus the credentials. |
| `Client.OpenLoad.FailedConversions` | openload/openload.py:478-486 | Always fails with NotImplemented and sends nothing. |
| `Client.OpenLoad.SplashImage` | openload/openload.py:498 | GET `.../file/getsplash` with exactly `{file, login, key}`. |

## Left out

- HTTP I/O and JSON decoding (`requests.get(...).json()`, `requests.post(...).json()`): these are the `transport` and `post` parameters. A reply that is not JSON, or an envelope without `status`, `msg` or `result`, is not modelled. The source does nothing of its own in those cases; Python's own KeyError or decoding error escapes.
- The envelope's `status` is an integer and its `msg` is a string. Python would also accept other JSON types there.
- Local file access and multipart encoding in `upload_file` (`os.path.split`, `open`, `requests_toolbelt.MultipartEncoder`): filesystem I/O and a foreign library. The POST is given only the upload URL.
- Reading `url` out of the `upload_link` result (`upload_url_response_json['url']`, which raises KeyError when it is missing) is the `urlOf` parameter, because the result's JSON shape is opaque.
- The `timeout` float: it is only handed to the transport.
- Payload shapes of the endpoints (account info, folder listings, ...): `result` is the abstract type `P`.
- Client.OpenLoad.Get: does not model that `params.update` changes the caller's own dict in place. Every caller in the source passes a fresh dict, so the change cannot be observed.
- Client.Format: models `str.format` on a template that is already split into text and fields. Parsing braces, `{{` escapes and positional fields are not modelled. A field whose name is not given (a KeyError in Python) is ruled out by a precondition.
- Credentials are strings, as `__init__` documents them. The tests can pass `None` taken from an unset environment variable; that case is not modelled.
- Default arguments (`folder_id=None`, `httponly=False`, `captcha_response=None`, ...) are not separate entry points. A caller passes `Null` or `Bool(false)` for them explicitly.
- A falsy optional argument cannot be forced into a request. This is the source's behaviour and the model keeps it.
- A "full response" mode and a strict "only 200 is success" rule do not exist in the code, so they are not modelled. Any status that no rule matches (200, 401, 402, ...) counts as success, as in the code.
