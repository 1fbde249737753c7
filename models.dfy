/** studio/handlers/models.rs: serving a trained model as a JSON download.
    The file system is a parameter: `read` gives a file's text, or None when
    it cannot be read. */
module Models {
  import opened Base
  import opened Text
  import Routes
  import TrainHandler

  /** The name check: non-empty, and no `/`, no `\` and no `..` in it. */
  predicate NameAccepted(name: string)
  {
    |name| > 0 && '/' !in name && '\\' !in name && !Contains(name, "..")
  }

  /** The file name offered to the browser. */
  function DownloadFilename(name: string): (r: string)
    ensures |r| == |name| + 5 && EndsWith(r, ".json") && r[..|name|] == name
  {
    name + ".json"
  }

  /** `handle_download`: 404 for a refused name or an unreadable file,
      otherwise the file's text as an attachment named after the model. */
  function HandleDownload(name: string, read: string -> Option<string>): (r: Routes.Response)
    ensures !NameAccepted(name) ==> r == Routes.NotFoundResponse()
    ensures NameAccepted(name) && read(TrainHandler.ModelPath(name)).None? ==> r == Routes.NotFoundResponse()
    ensures NameAccepted(name) && read(TrainHandler.ModelPath(name)).Some? ==>
      r == Routes.JsonDownload(read(TrainHandler.ModelPath(name)).value, DownloadFilename(name))
  {
    if !NameAccepted(name) then Routes.NotFoundResponse()
    else
      var json := read(TrainHandler.ModelPath(name));
      if json.None? then Routes.NotFoundResponse()
      else Routes.JsonDownload(json.value, DownloadFilename(name))
  }

  /** Only files directly inside `trained_models`, all named `*.json`, are
      ever read: the part of the path after the directory holds no
      separator of either kind. */
  lemma {:induction false} DownloadStaysInDirectory(name: string)
    requires NameAccepted(name)
    ensures var p := TrainHandler.ModelPath(name);
      StartsWith(p, "trained_models/") && EndsWith(p, ".json")
      && '/' !in p[15..] && '\\' !in p[15..]
  {
    var p := TrainHandler.ModelPath(name);
    assert p[15..] == name + ".json";
  }

  /** A download succeeds exactly when the name passes the check and its
      file can be read; the response then carries the file unchanged. */
  lemma {:induction false} DownloadServes(name: string, read: string -> Option<string>)
    ensures HandleDownload(name, read).status == 200
      <==> NameAccepted(name) && read(TrainHandler.ModelPath(name)).Some?
    ensures HandleDownload(name, read).status == 200 ==> HandleDownload(name, read).body == read(TrainHandler.ModelPath(name)).value
  {
  }

  /** `/models/download` routes to the download of the empty name, which is
      refused. */
  lemma EmptyNameDownload(read: string -> Option<string>)
    ensures Routes.DownloadName("/models/download") == Some("")
    ensures HandleDownload("", read) == Routes.NotFoundResponse()
  {
    Routes.DownloadNameOverlap();
  }

  /** A name holding `..` anywhere is refused, so `a..b` is as well as
      `..`. */
  lemma DotDotRefused()
    ensures !NameAccepted("..") && !NameAccepted("a..b")
  {
    assert OccursAt("..", "..", 0);
    assert OccursAt("a..b", "..", 1);
  }
}
