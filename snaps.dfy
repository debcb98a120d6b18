/**
 * The Snap entity of SnapWrap/snap.py: which fields the keyword constructor assigns, the
 * uploaded flag that upload flips, and the media-type dispatch of from_file. Temporary-file
 * names, uuid ids, the mimetypes lookup and the ffprobe reading are parameters; writing,
 * resizing and transcoding the media are recorded as what the file was filled with.
 */
module Snaps {
  import opened Common
  import Utils

  /** How the temporary file of a snap built from data was filled. */
  datatype Content = Written(data: Value) | Resized(source: Value)

  /** The file object a snap holds: a fresh temporary file, or a file opened at a path. */
  datatype SnapFile = TempFile(name: string, content: Content) | OpenedFile(path: Value)

  /**
   * Every attribute of a snap. `sender` is None while the attribute was never assigned, and
   * so is `mediaId` until the snap is uploaded; `storyId` holds Python's None as Null.
   */
  datatype Fields = Fields(
    uploaded: bool,
    duration: Value,
    mediaType: Value,
    storyId: Value,
    sender: Option<Value>,
    fromMe: bool,
    snapId: Value,
    mediaId: Option<Value>,
    file: SnapFile)

  /** `opts[key]`, raising KeyError when the keyword was not passed. */
  function Opt(opts: map<string, Value>, key: string): Result<Value>
  {
    if key in opts then Ok(opts[key]) else Err(KeyError(Str(key)))
  }

  /** The keywords __init__ reads unconditionally, and those it reads because of another one. */
  predicate HasRequiredKeywords(opts: map<string, Value>)
  {
    && "duration" in opts && "media_type" in opts
    && ("self_post" in opts ==> "username" in opts)
    && ("sender" in opts ==> "snap_id" in opts)
    && ("data" in opts || "path" in opts)
  }

  /** Whether the media type selects the write branch (compared with `is`). */
  predicate IsVideoCode(mediaType: Value)
  {
    mediaType == Int(MediaTypeVideo) || mediaType == Int(MediaTypeVideoNoAudio)
  }

  /**
   * Snap.__init__(**opts): the attributes it assigns, or the KeyError of the first keyword it
   * reads and was not given. `freshId` is the hex uuid it draws, `tempStem` the name the
   * temporary file gets before its suffix.
   */
  function InitFields(opts: map<string, Value>, freshId: string, tempStem: string): (r: Result<Fields>)
    ensures r.Ok? <==> HasRequiredKeywords(opts)
    ensures r.Ok? ==> !r.value.uploaded && r.value.storyId == Null && r.value.mediaId.None?
    ensures r.Ok? ==> r.value.duration == opts["duration"] && r.value.mediaType == opts["media_type"]
    ensures "duration" !in opts ==> r == Err(KeyError(Str("duration")))
    ensures "duration" in opts && "media_type" !in opts ==> r == Err(KeyError(Str("media_type")))
    ensures r.Ok? ==> (r.value.fromMe <==> "sender" !in opts)
    ensures r.Ok? && "sender" in opts ==> r.value.sender == Some(opts["sender"]) && r.value.snapId == opts["snap_id"]
    ensures r.Ok? && "sender" !in opts ==> r.value.snapId == Str(freshId)
    ensures r.Ok? && "sender" !in opts && "self_post" in opts ==> r.value.sender == Some(opts["username"])
    ensures r.Ok? && "sender" !in opts && "self_post" !in opts ==> r.value.sender.None?
    ensures r.Ok? && "data" in opts ==>
              && r.value.file.TempFile? && r.value.file.name == tempStem + "." + Utils.FileExtensionForType(opts["media_type"])
              && r.value.file.content == (if IsVideoCode(opts["media_type"]) then Written(opts["data"]) else Resized(opts["data"]))
    ensures r.Ok? && "data" !in opts ==> r.value.file == OpenedFile(opts["path"])
    ensures "duration" in opts && "media_type" in opts && "self_post" in opts && "username" !in opts ==>
              r == Err(KeyError(Str("username")))
    ensures && "duration" in opts && "media_type" in opts && ("self_post" in opts ==> "username" in opts)
            && "sender" in opts && "snap_id" !in opts ==>
              r == Err(KeyError(Str("snap_id")))
    ensures && "duration" in opts && "media_type" in opts && ("self_post" in opts ==> "username" in opts)
            && ("sender" in opts ==> "snap_id" in opts) && "data" !in opts && "path" !in opts ==>
              r == Err(KeyError(Str("path")))
  {
    var duration :- Opt(opts, "duration");
    var mediaType :- Opt(opts, "media_type");
    var selfSender :- SelfPostSender(opts);
    var identity :- SenderAndId(opts, selfSender, freshId);
    var file :- FileOf(opts, mediaType, tempStem);
    Ok(Fields(false, duration, mediaType, Null, identity.0, "sender" !in opts, identity.1, None, file))
  }

  /** The sender a self_post assigns: opts['username'], read only when self_post was passed. */
  function SelfPostSender(opts: map<string, Value>): Result<Option<Value>>
  {
    if "self_post" !in opts then Ok(None)
    else if "username" in opts then Ok(Some(opts["username"]))
    else Err(KeyError(Str("username")))
  }

  /** An explicit sender overrides the self_post one and brings its snap_id; otherwise the id is fresh. */
  function SenderAndId(opts: map<string, Value>, selfSender: Option<Value>, freshId: string): Result<(Option<Value>, Value)>
  {
    if "sender" in opts then
      if "snap_id" in opts then Ok((Some(opts["sender"]), opts["snap_id"])) else Err(KeyError(Str("snap_id")))
    else Ok((selfSender, Str(freshId)))
  }

  /** The temporary file for data (written for a video code, resized otherwise), or the file at opts['path']. */
  function FileOf(opts: map<string, Value>, mediaType: Value, tempStem: string): Result<SnapFile>
  {
    if "data" in opts then
      var name := tempStem + "." + Utils.FileExtensionForType(mediaType);
      Ok(TempFile(name, if IsVideoCode(mediaType) then Written(opts["data"]) else Resized(opts["data"])))
    else if "path" in opts then Ok(OpenedFile(opts["path"]))
    else Err(KeyError(Str("path")))
  }

  /** The name the file object of a snap reports: the temporary name, or the path it was opened at. */
  function FileName(file: SnapFile): Value
  {
    match file
    case TempFile(name, _) => Str(name)
    case OpenedFile(path) => path
  }

  /**
   * The name save_snap gives the copy of a snap in `dir`: AttributeError for a snap whose
   * sender was never assigned, TypeError for a sender or id that is not a string, and
   * otherwise a name that starts with the directory, the sender, '_' and the id. A file name
   * that is not a string is outside the model.
   */
  function SaveName(f: Fields, dir: string): (r: Result<string>)
    requires FileName(f.file).Str?
    ensures f.sender.None? ==> r == Err(AttributeError)
    ensures f.sender.Some? && (!f.sender.value.Str? || !f.snapId.Str?) ==> r == Err(TypeError)
    ensures r.Ok? ==> f.sender.Some? && f.sender.value.Str? && f.snapId.Str? &&
                      StartsWith(r.value, dir + f.sender.value.s + "_" + f.snapId.s + ".")
  {
    Utils.SaveSnapTarget(FileName(f.file).s, dir, f.sender, f.snapId)
  }

  /**
   * A snap received with data and a string sender and id is saved as sender_id.jpg or
   * sender_id.mp4, whatever its temporary file was called.
   */
  lemma ReceivedSnapSaveName(opts: map<string, Value>, freshId: string, folder: string, stem: string, dir: string)
    requires HasRequiredKeywords(opts) && "data" in opts
    requires "sender" in opts && opts["sender"].Str? && opts["snap_id"].Str?
    requires folder == [] || folder[|folder| - 1] == '\\'
    requires '.' !in stem && '\\' !in stem
    ensures var f := InitFields(opts, freshId, folder + stem).value;
      SaveName(f, dir) ==
        Ok(dir + opts["sender"].s + "_" + opts["snap_id"].s + "." +
           (if opts["media_type"] == Int(MediaTypeImage) then "jpg" else "mp4"))
  {
    Utils.SaveReceivedSnap(folder, stem, opts["media_type"], dir, opts["sender"].s, opts["snap_id"].s);
  }

  // ---------------------------------------------------------------------------------------
  // from_file

  /**
   * The media type, duration and temporary-file suffix from_file settles on, given what the
   * mimetypes lookup answered for the path and, for a video, the "H:M:S" text that
   * get_video_duration captured from ffprobe's output (or the exception of finding it).
   */
  function FromFileChoice(mime: Option<string>, duration: Value, captured: Result<string>): (r: Result<(int, Value, string)>)
    ensures Utils.GuessType(mime).Err? ==> r == Err(AttributeError)
    ensures Utils.GuessType(mime) == Ok(MediaTypeUnknown) ==> r == Err(UnknownMediaType)
    ensures r.Ok? ==> Utils.GuessType(mime) == Ok(r.value.0)
    ensures r.Ok? ==> r.value.0 == MediaTypeVideo || r.value.0 == MediaTypeImage
    ensures r.Ok? && r.value.0 == MediaTypeImage ==>
              r.value.2 == ".jpg" && r.value.1 == (if duration == Null then Int(DefaultDuration) else duration)
    ensures r.Ok? && r.value.0 == MediaTypeVideo ==>
              && r.value.2 == ".snap.mp4"
              && (duration != Null ==> r.value.1 == duration)
              && (duration == Null ==> captured.Ok? && Utils.VideoDuration(captured.value).Ok? &&
                                       r.value.1 == Int(Utils.VideoDuration(captured.value).value))
    ensures Utils.GuessType(mime) == Ok(MediaTypeVideo) && duration == Null && captured.Err? ==> r == Err(captured.error)
    ensures Utils.GuessType(mime) == Ok(MediaTypeVideo) && duration == Null && captured.Ok? &&
              Utils.VideoDuration(captured.value).Err? ==>
                r == Err(Utils.VideoDuration(captured.value).error)
  {
    var mediaType :- Utils.GuessType(mime);
    if mediaType == MediaTypeVideo || mediaType == MediaTypeVideoNoAudio then
      if duration == Null then
        var text :- captured;
        var seconds :- Utils.VideoDuration(text);
        Ok((mediaType, Int(seconds), ".snap.mp4"))
      else Ok((mediaType, duration, ".snap.mp4"))
    else if mediaType == MediaTypeImage then
      Ok((mediaType, if duration == Null then Int(DefaultDuration) else duration, ".jpg"))
    else Err(UnknownMediaType)
  }

  /** A file-based image snap is stored under stem + ".jpg", a name save_snap cannot split into three pieces. */
  lemma FromFileImageCannotBeSaved(mime: string, duration: Value, captured: Result<string>, stem: string,
                                   username: string, freshId: string, dir: string)
    requires StartsWith(mime, "image") && !StartsWith(mime, "video")
    requires '.' !in stem && '\\' !in stem
    ensures var choice := FromFileChoice(Some(mime), duration, captured);
      && choice.Ok? && choice.value.2 == ".jpg"
      && Utils.SaveSnapTarget(stem + choice.value.2, dir, Some(Str(username)), Str(freshId)) == Err(IndexError)
  {
    Utils.SaveFileImageSnapFails(stem, dir, username, freshId);
  }

  /**
   * A snap made by from_image has no sender, so save_snap raises AttributeError before it
   * splits the file name; one made by from_file with the default username None raises
   * TypeError when the directory and the sender are concatenated.
   */
  lemma {:induction false} SavingSnapsWithoutSender(duration: Value, stem: string, freshId: string, dir: string,
                                                     mediaType: int, suffix: string)
    ensures SaveName(Fields(false, duration, Int(MediaTypeImage), Null, None, true, Str(freshId), None,
                            OpenedFile(Str(stem + ".jpg"))), dir) == Err(AttributeError)
    ensures SaveName(Fields(false, duration, Int(mediaType), Null, Some(Null), true, Str(freshId), None,
                            OpenedFile(Str(stem + suffix))), dir) == Err(TypeError)
  {
  }

  // ---------------------------------------------------------------------------------------
  // The snap object

  class Snap {
    var uploaded: bool
    var duration: Value
    var mediaType: Value
    var storyId: Value
    var sender: Option<Value>
    var fromMe: bool
    var snapId: Value
    var mediaId: Option<Value>
    var file: SnapFile

    function State(): Fields
      reads this
    {
      Fields(uploaded, duration, mediaType, storyId, sender, fromMe, snapId, mediaId, file)
    }

    /** An uploaded snap carries the media id its upload returned. */
    predicate Valid()
      reads this
    {
      uploaded ==> mediaId.Some?
    }

    /** Snap(**opts), for keyword arguments that hold every keyword __init__ reads. */
    constructor (opts: map<string, Value>, freshId: string, tempStem: string)
      requires HasRequiredKeywords(opts)
      ensures State() == InitFields(opts, freshId, tempStem).value
      ensures Valid()
    {
      uploaded := false;
      duration := opts["duration"];
      mediaType := opts["media_type"];
      storyId := Null;
      mediaId := None;
      sender := None;
      if "self_post" in opts {
        sender := Some(opts["username"]);
        fromMe := true;
      }
      if "sender" in opts {
        sender := Some(opts["sender"]);
        snapId := opts["snap_id"];
        fromMe := false;
      } else {
        snapId := Str(freshId);
        fromMe := true;
      }
      if "data" in opts {
        var name := tempStem + "." + Utils.FileExtensionForType(opts["media_type"]);
        if IsVideoCode(opts["media_type"]) {
          file := TempFile(name, Written(opts["data"]));
        } else {
          file := TempFile(name, Resized(opts["data"]));
        }
      } else {
        file := OpenedFile(opts["path"]);
      }
    }

    /** Snap(**opts) for any keyword arguments: a new snap, or the KeyError __init__ raises. */
    static method Create(opts: map<string, Value>, freshId: string, tempStem: string) returns (r: Result<Snap>)
      ensures r.Ok? <==> HasRequiredKeywords(opts)
      ensures r.Ok? ==> fresh(r.value) && r.value.Valid() && r.value.State() == InitFields(opts, freshId, tempStem).value
      ensures r.Err? ==> r.error == InitFields(opts, freshId, tempStem).error
    {
      if !HasRequiredKeywords(opts) {
        return Err(InitFields(opts, freshId, tempStem).error);
      }
      var snap := new Snap(opts, freshId, tempStem);
      r := Ok(snap);
    }

    /**
     * upload, given what the client's upload answered for the snap's file: the media id is
     * stored and the snap counts as uploaded, even when that id is None; an exception from
     * the client leaves the snap as it was.
     */
    method Upload(outcome: Result<Value>) returns (err: Option<Error>)
      modifies this
      ensures outcome.Ok? ==> err.None? && State() == old(State()).(uploaded := true, mediaId := Some(outcome.value))
      ensures outcome.Err? ==> err == Some(outcome.error) && State() == old(State())
      ensures old(Valid()) ==> Valid()
      ensures outcome.Ok? ==> Valid()
    {
      match outcome
      case Err(e) =>
        err := Some(e);
      case Ok(id) =>
        mediaId := Some(id);
        uploaded := true;
        err := None;
    }

    /**
     * from_file, given the MIME type guessed for the path, the duration text ffprobe gives a video,
     * the stem of the temporary file and the uuid the constructor draws.
     */
    static method FromFile(duration: Value, username: Value, mime: Option<string>, captured: Result<string>,
                           tempStem: string, freshId: string) returns (r: Result<Snap>)
      ensures FromFileChoice(mime, duration, captured).Err? ==> r == Err(FromFileChoice(mime, duration, captured).error)
      ensures FromFileChoice(mime, duration, captured).Ok? ==>
                var c := FromFileChoice(mime, duration, captured).value;
                && r.Ok? && fresh(r.value) && r.value.Valid()
                && r.value.State() ==
                     Fields(false, c.1, Int(c.0), Null, Some(username), true, Str(freshId), None, OpenedFile(Str(tempStem + c.2)))
    {
      var choice := FromFileChoice(mime, duration, captured);
      if choice.Err? {
        return Err(choice.error);
      }
      var opts := map["path" := Str(tempStem + choice.value.2), "media_type" := Int(choice.value.0),
                      "duration" := choice.value.1, "self_post" := Bool(true), "username" := username];
      var snap := new Snap(opts, freshId, tempStem);
      r := Ok(snap);
    }

    /** from_image: an image snap over a fresh temporary ".jpg" file, with no sender. */
    static method FromImage(duration: Value, tempStem: string, freshId: string) returns (snap: Snap)
      ensures fresh(snap) && snap.Valid()
      ensures snap.State() ==
                Fields(false, duration, Int(MediaTypeImage), Null, None, true, Str(freshId), None, OpenedFile(Str(tempStem + ".jpg")))
    {
      var opts := map["path" := Str(tempStem + ".jpg"), "media_type" := Int(MediaTypeImage), "duration" := duration];
      snap := new Snap(opts, freshId, tempStem);
    }
  }
}
