/**
 * The upload checks of the cricket analysis web service: the extension
 * predicate and the validation and naming steps of the /analyze handler.
 * The timestamp text and werkzeug's secure_filename are parameters; saving
 * the file, running the analysis and building the URL are not modelled.
 */
module VideoUpload {
  import opened Common
  import opened PyBuiltins

  /** ALLOWED_EXTENSIONS. */
  const AllowedExtensions: set<string> := {"mp4", "avi", "mov", "mkv"}

  /** Index i holds the last '.' of the name and the text after it, lower-cased, is allowed. */
  predicate AllowedAfterLastDot(filename: string, i: int)
  {
    && 0 <= i < |filename| && filename[i] == '.'
    && (forall j :: i < j < |filename| ==> filename[j] != '.')
    && Lower(filename[i + 1..]) in AllowedExtensions
  }

  /**
   * allowed_file: the name has a '.' and the text after the last '.',
   * lower-cased, is an allowed extension.
   */
  function AllowedFile(filename: string): (ok: bool)
    ensures ok <==> exists i :: AllowedAfterLastDot(filename, i)
    ensures (forall i :: 0 <= i < |filename| ==> filename[i] != '.') ==> !ok
  {
    LastDotUnique(filename);
    var dot := LastIndexOf(filename, '.');
    dot >= 0 && Lower(filename[dot + 1..]) in AllowedExtensions
  }

  /** Only one index can hold the last '.'; rsplit('.', 1) splits there. */
  lemma LastDotUnique(filename: string)
    ensures forall i :: AllowedAfterLastDot(filename, i) ==> i == LastIndexOf(filename, '.')
    ensures LastIndexOf(filename, '.') >= 0 && Lower(filename[LastIndexOf(filename, '.') + 1..]) in AllowedExtensions
      ==> AllowedAfterLastDot(filename, LastIndexOf(filename, '.'))
  {
    var dot := LastIndexOf(filename, '.');
    forall i | AllowedAfterLastDot(filename, i) ensures i == dot {
      assert dot >= 0;
    }
  }

  /** Upper case extensions and extra dots before the last one are accepted. */
  lemma AllowedFileAccepts()
    ensures AllowedFile("a.MP4")
    ensures AllowedFile("x.tar.mp4")
  {
    assert "a.MP4"[2..] == "MP4" && Lower("MP4") == "mp4";
    assert AllowedAfterLastDot("a.MP4", 1);
    assert "x.tar.mp4"[6..] == "mp4" && Lower("mp4") == "mp4";
    assert AllowedAfterLastDot("x.tar.mp4", 5);
  }

  /** Another extension after the last dot, an empty one and a name without a dot are refused. */
  lemma AllowedFileRejects()
    ensures !AllowedFile("a.mp4.txt")
    ensures !AllowedFile("video.")
    ensures !AllowedFile("mp4")
  {
    assert "a.mp4.txt"[5] == '.';
    assert LastIndexOf("a.mp4.txt", '.') == 5;
    assert Lower("txt") == "txt";
    assert LastIndexOf("video.", '.') == 5;
    assert Lower("") == "";
  }

  /** request.files['video']; the browser may send no file name at all. */
  datatype Upload = Upload(filename: Option<string>)

  /** The names the upload is saved under and the processed video is written to. */
  datatype SavedNames = SavedNames(input: string, output: string)

  const NoVideo := "No video file provided"
  const NoSelection := "No selected file"
  const Unsupported := "Unsupported file type"

  /**
   * The checks of handle_analysis_request, each a 400 reply with its
   * message, and then the two file names built from the timestamp and the
   * sanitised original name.
   */
  function UploadNames(files: map<string, Upload>, timestamp: string, secure: string -> string): (r: Result<SavedNames, string>)
    ensures "video" !in files ==> r == Err(NoVideo)
    ensures "video" in files && files["video"].filename == Some("") ==> r == Err(NoSelection)
    ensures r.Ok? <==> "video" in files && files["video"].filename.Some? && AllowedFile(files["video"].filename.value)
  {
    if "video" !in files then Err(NoVideo)
    else
      var video := files["video"];
      if video.filename == Some("") then Err(NoSelection)
      else if video.filename.None? || !AllowedFile(video.filename.value) then Err(Unsupported)
      else
        var original := secure(video.filename.value);
        Ok(SavedNames(timestamp + "_" + original, timestamp + "_processed_" + original))
  }

  /**
   * Both names start with the timestamp and end with the sanitised name;
   * the output name differs from the input name by "processed_" after the
   * timestamp's underscore, so the two never coincide.
   */
  lemma SavedNamesShape(files: map<string, Upload>, timestamp: string, secure: string -> string)
    requires UploadNames(files, timestamp, secure).Ok?
    ensures IsPrefix(timestamp + "_", UploadNames(files, timestamp, secure).value.input)
    ensures IsPrefix(timestamp + "_", UploadNames(files, timestamp, secure).value.output)
    ensures UploadNames(files, timestamp, secure).value.output ==
      timestamp + "_" + "processed_" + UploadNames(files, timestamp, secure).value.input[|timestamp| + 1..]
    ensures UploadNames(files, timestamp, secure).value.input != UploadNames(files, timestamp, secure).value.output
  {
    var names := UploadNames(files, timestamp, secure).value;
    var original := secure(files["video"].filename.value);
    assert names.input == (timestamp + "_") + original;
    assert names.output == (timestamp + "_") + ("processed_" + original);
    assert names.input[|timestamp| + 1..] == original;
    assert |names.output| == |names.input| + 10;
  }
}
