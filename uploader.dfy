/** The image uploader's checks before anything is sent, and the shape of
    what it reports back once every upload of a batch has finished. */
module Uploader {
  import opened Wrappers

  datatype File = File(name: string, mimeType: string, size: nat)

  const ValidTypes: seq<string> := ["image/jpeg", "image/png", "image/webp"]

  /** Five mebibytes; a file of exactly this size is accepted. */
  const MaxBytes: nat := 5 * 1024 * 1024

  datatype Outcome =
    | Ignored                       // nothing was selected
    | NotConfigured                 // no cloud name or upload preset
    | InvalidType(name: string)     // the first file of a type not allowed
    | TooLarge(name: string)        // the first file over the size cap
    | Proceed(preview: bool)        // the batch is uploaded; `preview` when a local preview is set

  /** The first file the checks stop at, type before size, in file order. */
  function FirstRejection(files: seq<File>): (r: Option<Outcome>)
    ensures r.None? <==> forall k :: 0 <= k < |files| ==> files[k].mimeType in ValidTypes && files[k].size <= MaxBytes
    ensures r.Some? ==> r.value.InvalidType? || r.value.TooLarge?
  {
    if files == [] then None
    else if files[0].mimeType !in ValidTypes then Some(InvalidType(files[0].name))
    else if files[0].size > MaxBytes then Some(TooLarge(files[0].name))
    else
      var r := FirstRejection(files[1..]);
      assert r.None? ==> forall k :: 0 <= k < |files| ==> files[k].mimeType in ValidTypes && files[k].size <= MaxBytes by {
        if r.None? {
          forall k | 0 <= k < |files| ensures files[k].mimeType in ValidTypes && files[k].size <= MaxBytes {
            if k > 0 { assert files[k] == files[1..][k - 1]; }
          }
        }
      }
      r
  }

  /** The checks as a whole. */
  function Check(files: seq<File>, configured: bool, multiple: bool): (o: Outcome)
    ensures o.Proceed? <==> files != [] && configured && FirstRejection(files).None?
    ensures o.Proceed? ==> (o.preview <==> !multiple && |files| == 1)
    ensures files == [] <==> o == Ignored
  {
    if files == [] then Ignored
    else if !configured then NotConfigured
    else match FirstRejection(files)
      case Some(rejection) => rejection
      case None => Proceed(!multiple && |files| == 1)
  }

  /** `handleFileChange` up to the upload: the loop over the files returns
      at the first one that fails. */
  method HandleFileChange(files: seq<File>, configured: bool, multiple: bool) returns (o: Outcome)
    ensures o == Check(files, configured, multiple)
  {
    if |files| == 0 {
      return Ignored;
    }
    if !configured {
      return NotConfigured;
    }
    for i := 0 to |files|
      invariant FirstRejection(files) == FirstRejection(files[i..])
    {
      assert files[i..][1..] == files[i + 1..];
      var file := files[i];
      if file.mimeType !in ValidTypes {
        return InvalidType(file.name);
      }
      if file.size > MaxBytes {
        return TooLarge(file.name);
      }
    }
    assert files[|files|..] == [];
    o := Proceed(!multiple && |files| == 1);
  }

  /** The first failing file, by position, stops the batch. */
  lemma FirstFailureWins(files: seq<File>, j: nat)
    requires j < |files|
    requires forall k :: 0 <= k < j ==> files[k].mimeType in ValidTypes && files[k].size <= MaxBytes
    requires files[j].mimeType !in ValidTypes || files[j].size > MaxBytes
    ensures Check(files, true, true) == (if files[j].mimeType !in ValidTypes then InvalidType(files[j].name) else TooLarge(files[j].name))
  {
    if j > 0 {
      FirstFailureWins(files[1..], j - 1);
    }
  }

  /** A single file of exactly five mebibytes goes through with a preview;
      one byte more is refused. */
  lemma SizeCap()
    ensures Check([File("a.png", "image/png", 5242880)], true, false) == Proceed(true)
    ensures Check([File("a.png", "image/png", 5242881)], true, false) == TooLarge("a.png")
    ensures Check([File("a.gif", "image/gif", 1)], true, false) == InvalidType("a.gif")
  {
  }

  /** What the caller receives once the batch settles. */
  datatype Report = NoReport | SingleUrl(url: string) | UrlList(urls: seq<string>)

  /** `uploadFiles`, given each upload's answer (a URL, or None for a failed
      upload) in the order the uploads finish. Each success pushes its URL
      and counts one more completion; any failure means the caller receives
      nothing. */
  method UploadFiles(multiple: bool, answers: seq<Option<string>>) returns (report: Report, completed: nat)
    requires answers != []
    ensures (exists k :: 0 <= k < |answers| && answers[k].None?) <==> report == NoReport
    ensures report.UrlList? ==> multiple && |report.urls| == |answers| && completed == |answers|
    ensures report.UrlList? ==> forall k :: 0 <= k < |answers| ==> answers[k] == Some(report.urls[k])
    ensures report.SingleUrl? ==> !multiple && answers[0] == Some(report.url)
    ensures report != NoReport ==> (multiple <==> report.UrlList?)
  {
    var uploaded: seq<string> := [];
    completed := 0;
    var failed := false;
    for i := 0 to |answers|
      invariant completed == |uploaded| <= i
      invariant !failed ==> completed == i && forall k :: 0 <= k < i ==> answers[k] == Some(uploaded[k])
      invariant failed <==> exists k :: 0 <= k < i && answers[k].None?
    {
      match answers[i] {
        case None => failed := true;
        case Some(url) =>
          uploaded := uploaded + [url];
          completed := completed + 1;
      }
    }
    if failed {
      report := NoReport;
    } else if multiple {
      report := UrlList(uploaded);
    } else {
      report := SingleUrl(uploaded[0]);
    }
  }
}
