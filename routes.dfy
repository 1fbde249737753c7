/** studio/routes.rs: the response helpers and the dispatcher, which splits
    the URL at its first `?`, sends the event stream and model downloads
    off first, and looks every other request up in a fixed route table. */
module Routes {
  import opened Base
  import opened Text
  import Sse

  /** A response as the helpers build it: status, headers and body text. */
  datatype Response = Response(status: nat, headers: seq<Sse.Header>, body: string)

  /** `redirect`: 303 See Other to the location, with an empty body. */
  function Redirect(location: string): (r: Response)
    ensures r.status == 303 && |r.body| == 0
    ensures r.headers == [Sse.Header("Location", location), Sse.Header("Content-Length", "0")]
  {
    Response(303, [Sse.Header("Location", location), Sse.Header("Content-Length", "0")], "")
  }

  /** `html_response`: 200 with an HTML body. */
  function HtmlResponse(body: string): (r: Response)
    ensures r.status == 200 && r.body == body
    ensures r.headers == [Sse.Header("Content-Type", "text/html; charset=utf-8")]
  {
    Response(200, [Sse.Header("Content-Type", "text/html; charset=utf-8")], body)
  }

  /** `json_download_response`: 200 with a JSON body offered as a file of
      the given name. */
  function JsonDownload(body: string, filename: string): (r: Response)
    ensures r.status == 200 && r.body == body && |r.headers| == 2
    ensures r.headers[0] == Sse.Header("Content-Type", "application/json")
    ensures r.headers[1].name == "Content-Disposition"
      && r.headers[1].value == "attachment; filename=\"" + filename + "\""
  {
    Response(200, [Sse.Header("Content-Type", "application/json"),
                   Sse.Header("Content-Disposition", "attachment; filename=\"" + filename + "\"")], body)
  }

  /** `not_found`: 404 with a plain-text body. */
  function NotFoundResponse(): (r: Response)
    ensures r.status == 404 && r.body == "404 Not Found"
  {
    Response(404, [Sse.Header("Content-Type", "text/plain")], "404 Not Found")
  }

  /** The path and the query of a URL: the text before and after its first
      `?`, and an empty query without one. */
  function SplitUrl(url: string): (r: (string, string))
    ensures '?' !in r.0
    ensures '?' in url ==> url == r.0 + "?" + r.1
    ensures '?' !in url ==> r == (url, "")
  {
    var kv := SplitOnce(url, '?');
    if kv.1.None? then (url, "") else (kv.0, kv.1.value)
  }

  /** A URL made of a path without `?` and any query splits back into the
      two. */
  lemma {:induction false} SplitUrlOf(path: string, query: string)
    requires '?' !in path
    ensures SplitUrl(path + "?" + query) == (path, query)
    ensures SplitUrl(path) == (path, "")
  {
    var url := path + "?" + query;
    assert url == path + ['?'] + query;
    var r := SplitUrl(url);
    assert r.0 + ['?'] + r.1 == path + ['?'] + query;
    ParenthesesSplit(r.0, r.1, path, query);
  }

  /** Two ways of writing a text as a part without `?`, a `?` and a rest
      are the same way. */
  lemma {:induction false} ParenthesesSplit(a: string, b: string, c: string, d: string)
    requires '?' !in a && '?' !in c && a + ['?'] + b == c + ['?'] + d
    ensures a == c && b == d
  {
    var s := a + ['?'] + b;
    assert s == c + ['?'] + d;
    assert s[|a|] == '?' && s[|c|] == '?';
    assert forall i :: 0 <= i < |a| ==> s[i] == a[i];
    assert forall i :: 0 <= i < |c| ==> s[i] == c[i];
    assert |a| == |c|;
    assert a == s[..|a|] && c == s[..|c|];
    assert b == s[|a| + 1..] && d == s[|c| + 1..];
  }

  const ModelsPrefix: string := "/models/"
  const DownloadSuffix: string := "/download"

  /** The model name of a download path: for a path that starts with
      `/models/` and ends with `/download`, what lies between, or the empty
      name when the two overlap; None for any other path. */
  function DownloadName(path: string): (r: Option<string>)
    ensures r.Some? <==> StartsWith(path, ModelsPrefix) && EndsWith(path, DownloadSuffix)
  {
    if !(StartsWith(path, ModelsPrefix) && EndsWith(path, DownloadSuffix)) then None
    else
      var rest := path[|ModelsPrefix|..];
      if EndsWith(rest, DownloadSuffix) then Some(rest[..|rest| - |DownloadSuffix|]) else Some("")
  }

  /** The name between the two parts comes back out. */
  lemma {:induction false} DownloadNameOf(name: string)
    ensures DownloadName(ModelsPrefix + name + DownloadSuffix) == Some(name)
  {
    var path := ModelsPrefix + name + DownloadSuffix;
    assert path[..|ModelsPrefix|] == ModelsPrefix;
    assert path[|path| - |DownloadSuffix|..] == DownloadSuffix;
    var rest := path[|ModelsPrefix|..];
    assert rest == name + DownloadSuffix;
    assert rest[|rest| - |DownloadSuffix|..] == DownloadSuffix;
  }

  /** `/models/download` is a download of the empty name, which the
      download handler then refuses. */
  lemma DownloadNameOverlap()
    ensures DownloadName("/models/download") == Some("")
  {
    var path := "/models/download";
    assert path[..8] == ModelsPrefix;
    assert path[|path| - 9..] == DownloadSuffix;
    var rest := path[8..];
    assert |rest| == 8;
  }

  datatype HttpMethod = Get | Post | OtherMethod

  /** The handlers of the route table. */
  datatype Handler =
    | RootRedirect
    | ArchitectGet | ArchitectSave
    | DatasetGet | DatasetUpload | DatasetUploadIdx | DatasetBuiltin
    | TrainGet | TrainStart | TrainStop
    | EvaluateGet | EvaluateExport
    | TestGet | TestInfer | TestImport

  /** The method of each handler's route. */
  function MethodOf(h: Handler): HttpMethod
  {
    match h
    case RootRedirect => Get
    case ArchitectGet => Get
    case ArchitectSave => Post
    case DatasetGet => Get
    case DatasetUpload => Post
    case DatasetUploadIdx => Post
    case DatasetBuiltin => Post
    case TrainGet => Get
    case TrainStart => Post
    case TrainStop => Post
    case EvaluateGet => Get
    case EvaluateExport => Get
    case TestGet => Get
    case TestInfer => Post
    case TestImport => Post
  }

  /** The path of each handler's route. */
  function PathOf(h: Handler): string
  {
    match h
    case RootRedirect => "/"
    case ArchitectGet => "/architect"
    case ArchitectSave => "/architect/save"
    case DatasetGet => "/dataset"
    case DatasetUpload => "/dataset/upload"
    case DatasetUploadIdx => "/dataset/upload-idx"
    case DatasetBuiltin => "/dataset/builtin"
    case TrainGet => "/train"
    case TrainStart => "/train/start"
    case TrainStop => "/train/stop"
    case EvaluateGet => "/evaluate"
    case EvaluateExport => "/evaluate/export"
    case TestGet => "/test"
    case TestInfer => "/test/infer"
    case TestImport => "/test/import-model"
  }

  /** The arms of the `match` of `dispatch`, in order. */
  const Table: seq<Handler> := [
    RootRedirect, ArchitectGet, ArchitectSave, DatasetGet, DatasetUpload, DatasetUploadIdx,
    DatasetBuiltin, TrainGet, TrainStart, TrainStop, EvaluateGet, EvaluateExport,
    TestGet, TestInfer, TestImport]

  /** The table has an arm for every handler. */
  lemma TableComplete(h: Handler)
    ensures h in Table
  {
  }

  /** The first arm from i on whose method and path are the request's. */
  function Lookup(m: HttpMethod, path: string, i: nat): (r: Option<Handler>)
    requires i <= |Table|
    ensures r.None? <==> forall k :: i <= k < |Table| ==> !(MethodOf(Table[k]) == m && PathOf(Table[k]) == path)
    ensures r.Some? ==> MethodOf(r.value) == m && PathOf(r.value) == path
    decreases |Table| - i
  {
    if i == |Table| then None
    else if MethodOf(Table[i]) == m && PathOf(Table[i]) == path then Some(Table[i])
    else Lookup(m, path, i + 1)
  }

  /** No arm of the table matches exactly when no handler's route does. */
  lemma {:induction false} LookupNone(m: HttpMethod, path: string)
    ensures Lookup(m, path, 0).None? <==> forall h :: !(MethodOf(h) == m && PathOf(h) == path)
  {
    if Lookup(m, path, 0).None? {
      forall h ensures !(MethodOf(h) == m && PathOf(h) == path) {
        TableComplete(h);
        var k :| 0 <= k < |Table| && Table[k] == h;
      }
    }
  }

  /** Where a request goes. */
  datatype Route =
    | Events
    | Download(name: string)
    | Handled(handler: Handler)
    | TestPage(query: string)
    | Unmatched

  const EventsPath: string := "/train/events"

  /** No two arms of the table share a method and a path. */
  lemma {:induction false} RoutesDistinct(h1: Handler, h2: Handler)
    requires MethodOf(h1) == MethodOf(h2) && PathOf(h1) == PathOf(h2)
    ensures h1 == h2
  {
  }

  /** The route of a request the table serves: the matching arm's handler,
      with the query for GET /test only. */
  function TableRoute(m: HttpMethod, path: string, query: string): (r: Route)
    ensures r == Unmatched <==> forall h :: !(MethodOf(h) == m && PathOf(h) == path)
    ensures forall h :: MethodOf(h) == m && PathOf(h) == path ==>
      r == (if h == TestGet then TestPage(query) else Handled(h))
  {
    LookupNone(m, path);
    match Lookup(m, path, 0)
    case None => Unmatched
    case Some(h) =>
      assert forall h' :: MethodOf(h') == m && PathOf(h') == path ==> h' == h by {
        forall h' | MethodOf(h') == m && PathOf(h') == path { RoutesDistinct(h, h'); }
      }
      if h == TestGet then TestPage(query) else Handled(h)
  }

  /** `dispatch`: the event stream first, then model downloads, then the
      table; only GET /test is handed the query. */
  function Dispatch(m: HttpMethod, url: string): (r: Route)
    ensures m == Get && SplitUrl(url).0 == EventsPath ==> r == Events
    ensures m == Get && SplitUrl(url).0 != EventsPath && DownloadName(SplitUrl(url).0).Some? ==>
      r == Download(DownloadName(SplitUrl(url).0).value)
    ensures !(m == Get && (SplitUrl(url).0 == EventsPath || DownloadName(SplitUrl(url).0).Some?)) ==>
      r == TableRoute(m, SplitUrl(url).0, SplitUrl(url).1)
  {
    var (path, query) := SplitUrl(url);
    if m == Get && path == EventsPath then Events
    else if m == Get && DownloadName(path).Some? then Download(DownloadName(path).value)
    else TableRoute(m, path, query)
  }

  /** A route of the table is reached, with or without a query, by its
      method and path; only GET /test gets the query. */
  lemma {:induction false} TableRouted(h: Handler, query: string)
    ensures Dispatch(MethodOf(h), PathOf(h) + "?" + query) == (if h == TestGet then TestPage(query) else Handled(h))
    ensures Dispatch(MethodOf(h), PathOf(h)) == (if h == TestGet then TestPage("") else Handled(h))
  {
    PathPlain(h);
    SplitUrlOf(PathOf(h), query);
  }

  /** No table path holds a `?`, is the event stream's or is a download. */
  lemma {:induction false} PathPlain(h: Handler)
    ensures '?' !in PathOf(h) && PathOf(h) != EventsPath && DownloadName(PathOf(h)).None?
  {
    var p := PathOf(h);
    assert |p| < 2 || p[1] != ModelsPrefix[1] by {
      match h
      case RootRedirect =>
      case ArchitectGet =>
      case ArchitectSave =>
      case DatasetGet =>
      case DatasetUpload =>
      case DatasetUploadIdx =>
      case DatasetBuiltin =>
      case TrainGet =>
      case TrainStart =>
      case TrainStop =>
      case EvaluateGet =>
      case EvaluateExport =>
      case TestGet =>
      case TestInfer =>
      case TestImport =>
    }
    assert !StartsWith(p, ModelsPrefix);
    match h
    case RootRedirect =>
    case ArchitectGet =>
    case ArchitectSave =>
    case DatasetGet =>
    case DatasetUpload =>
    case DatasetUploadIdx =>
    case DatasetBuiltin =>
    case TrainGet =>
    case TrainStart =>
    case TrainStop =>
    case EvaluateGet =>
    case EvaluateExport =>
    case TestGet =>
    case TestInfer =>
    case TestImport =>
  }

  /** GET / is redirected to the architecture page, and a request that no
      arm matches, such as POST /, is not found. */
  lemma RootIsRedirected()
    ensures Dispatch(Get, "/") == Handled(RootRedirect)
    ensures Dispatch(Post, "/") == Unmatched
  {
    TableRouted(RootRedirect, "");
    SplitUrlOf("/", "");
    assert forall h :: !(MethodOf(h) == Post && PathOf(h) == "/");
  }

  /** Requests other than GET and POST are never served by the table. */
  lemma {:induction false} OtherMethodUnmatched(url: string)
    ensures Dispatch(OtherMethod, url) == Unmatched
  {
  }

  /** A download URL routes to the download of its name, query or not. */
  lemma {:induction false} DownloadRouted(name: string, query: string)
    requires '?' !in name
    ensures Dispatch(Get, ModelsPrefix + name + DownloadSuffix + "?" + query) == Download(name)
  {
    var path := ModelsPrefix + name + DownloadSuffix;
    assert '?' !in path;
    SplitUrlOf(path, query);
    DownloadNameOf(name);
  }
}
