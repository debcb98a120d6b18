/**
 * The pure helpers of SnapWrap/utils.py: the extension for a media type, the order of the
 * type guess, the parsing of an "H:M:S" duration and the name save_snap gives a copied file.
 * The mimetypes lookup, ffprobe and the file system are parameters or left out.
 */
module Utils {
  import opened Common
  import Client

  /** file_extension_for_type: ".jpg" for the image code (compared with `is`), ".mp4" for anything else. */
  function FileExtensionForType(mediaType: Value): (r: string)
    ensures r == ".jpg" <==> mediaType == Int(MediaTypeImage)
    ensures r == ".jpg" || r == ".mp4"
  {
    if mediaType == Int(MediaTypeImage) then ".jpg" else ".mp4"
  }

  /**
   * The two extension rules agree on the three media codes; they part on everything else,
   * where this one answers ".mp4" and the client's answers nothing, and on False, which `==`
   * takes for the image code 0 but `is` does not.
   */
  lemma ExtensionRulesAgree(mediaType: Value)
    ensures mediaType in {Int(MediaTypeImage), Int(MediaTypeVideo), Int(MediaTypeVideoNoAudio)} ==>
              FileExtensionForType(mediaType) == "." + Client.GetFileExtension(mediaType)
    ensures mediaType == Int(MediaTypeUnknown) ==>
              FileExtensionForType(mediaType) == ".mp4" && Client.GetFileExtension(mediaType) == ""
    ensures mediaType == Bool(false) ==>
              FileExtensionForType(mediaType) == ".mp4" && Client.GetFileExtension(mediaType) == "jpg"
  {
  }

  /**
   * guess_type, given what the mimetypes lookup answered for the path: video is tried
   * before image, and a path with no known MIME type raises AttributeError (the lookup's
   * None has no startswith) before MEDIA_TYPE_UNKNOWN can be returned.
   */
  function GuessType(mime: Option<string>): (r: Result<int>)
    ensures mime.None? <==> r == Err(AttributeError)
    ensures r == Ok(MediaTypeVideo) <==> mime.Some? && StartsWith(mime.value, "video")
    ensures r == Ok(MediaTypeImage) <==> mime.Some? && StartsWith(mime.value, "image")
    ensures r == Ok(MediaTypeUnknown) <==>
              mime.Some? && !StartsWith(mime.value, "video") && !StartsWith(mime.value, "image")
  {
    match mime
    case None => Err(AttributeError)
    case Some(m) =>
      if StartsWith(m, "video") then Ok(MediaTypeVideo)
      else if StartsWith(m, "image") then Ok(MediaTypeImage)
      else Ok(MediaTypeUnknown)
  }

  // ---------------------------------------------------------------------------------------
  // int() on a string

  /** The characters str.strip() removes. */
  predicate IsWhitespace(c: char)
  {
    c == ' ' || c == '\t' || c == '\n' || c == '\r' || c as int == 11 || c as int == 12
  }

  function TrimLeft(s: string): string
  {
    if s != [] && IsWhitespace(s[0]) then TrimLeft(s[1..]) else s
  }

  function TrimRight(s: string): string
  {
    if s != [] && IsWhitespace(s[|s| - 1]) then TrimRight(s[..|s| - 1]) else s
  }

  predicate IsDigit(c: char)
  {
    '0' <= c <= '9'
  }

  predicate AllDigits(s: string)
  {
    forall i :: 0 <= i < |s| ==> IsDigit(s[i])
  }

  /** The value of a run of decimal digits. */
  function DigitsValue(ds: string): nat
    requires AllDigits(ds)
  {
    if ds == [] then 0 else DigitsValue(ds[..|ds| - 1]) * 10 + (ds[|ds| - 1] as int - '0' as int)
  }

  /** int(s): surrounding whitespace, an optional sign, then at least one decimal digit. */
  function ParseInt(s: string): (r: Option<int>)
    ensures r.Some? ==> TrimRight(TrimLeft(s)) != []
    ensures ':' in TrimRight(TrimLeft(s)) ==> r.None?
  {
    var t := TrimRight(TrimLeft(s));
    if t != [] && (t[0] == '-' || t[0] == '+') then
      var ds := t[1..];
      if ds != [] && AllDigits(ds) then
        var magnitude: int := DigitsValue(ds);
        Some(if t[0] == '-' then -magnitude else magnitude)
      else None
    else if t != [] && AllDigits(t) then Some(DigitsValue(t))
    else None
  }

  /** The decimal digits of a natural number, as str() writes them. */
  function ShowNat(n: nat): string
  {
    if n < 10 then [('0' as int + n) as char]
    else ShowNat(n / 10) + [('0' as int + n % 10) as char]
  }

  lemma {:induction false} ShowNatDigits(n: nat)
    ensures ShowNat(n) != [] && AllDigits(ShowNat(n)) && DigitsValue(ShowNat(n)) == n
    ensures ShowNat(n)[0] != '-' && ShowNat(n)[0] != '+' && !IsWhitespace(ShowNat(n)[0])
    ensures !IsWhitespace(ShowNat(n)[|ShowNat(n)| - 1])
  {
    if n >= 10 {
      ShowNatDigits(n / 10);
      var s := ShowNat(n);
      assert s[..|s| - 1] == ShowNat(n / 10);
      assert s[0] == ShowNat(n / 10)[0];
    }
  }

  /** int() reads back what str() writes. */
  lemma ParseShowNat(n: nat)
    ensures ParseInt(ShowNat(n)) == Some(n)
  {
    ShowNatDigits(n);
    var s := ShowNat(n);
    assert TrimLeft(s) == s;
    assert TrimRight(s) == s;
  }

  /** int() reads any run of decimal digits as its value, leading zeros included. */
  lemma ParseDigits(s: string)
    requires s != [] && AllDigits(s)
    ensures ParseInt(s) == Some(DigitsValue(s))
  {
    assert TrimLeft(s) == s;
    assert TrimRight(s) == s;
  }

  /** A leading zero does not change the value of a run of digits. */
  lemma {:induction false} LeadingZero(s: string)
    requires AllDigits(s)
    ensures AllDigits("0" + s) && DigitsValue("0" + s) == DigitsValue(s)
    decreases |s|
  {
    if s != [] {
      var t := "0" + s;
      assert t[..|t| - 1] == "0" + s[..|s| - 1];
      LeadingZero(s[..|s| - 1]);
    }
  }

  // ---------------------------------------------------------------------------------------
  // Durations

  /** The largest number of days a timedelta holds. */
  const MaxDays: int := 999999999

  /**
   * duration_string_to_timedelta, as the total number of seconds of the timedelta: the
   * string must split on ':' into exactly three fields that int() accepts, and the total
   * must fit a timedelta.
   */
  function DurationSeconds(s: string): (r: Result<int>)
    ensures |Split(s, ':')| != 3 ==> r == Err(ValueError)
    ensures r.Ok? ==> var parts := Split(s, ':');
      |parts| == 3 && ParseInt(parts[0]).Some? && ParseInt(parts[1]).Some? && ParseInt(parts[2]).Some?
    ensures r.Err? ==> r.error == ValueError || r.error == OverflowError
  {
    var parts := Split(s, ':');
    if exists i | 0 <= i < |parts| :: ParseInt(parts[i]).None? then Err(ValueError)
    else if |parts| != 3 then Err(ValueError)
    else
      var total := ParseInt(parts[2]).value + ParseInt(parts[1]).value * 60 + ParseInt(parts[0]).value * 3600;
      // total // 86400 must lie within [-MaxDays, MaxDays]
      if total >= 86400 * (MaxDays + 1) || total < -86400 * MaxDays then Err(OverflowError)
      else Ok(total)
  }

  /** Three colon-free fields joined by colons split back into those fields. */
  lemma SplitClock(a: string, b: string, c: string)
    requires ':' !in a && ':' !in b && ':' !in c
    ensures Split(a + ":" + b + ":" + c, ':') == [a, b, c]
  {
    assert a + ":" + b + ":" + c == a + [':'] + (b + [':'] + c);
    SplitPrefix(a, b + [':'] + c, ':');
    SplitPrefix(b, c, ':');
    SplitNoSep(c, ':');
  }

  lemma ShowNatHasNoColon(n: nat)
    ensures ':' !in ShowNat(n)
  {
    ShowNatDigits(n);
    var s := ShowNat(n);
    assert forall k | 0 <= k < |s| :: s[k] != ':' by {
      forall k | 0 <= k < |s| ensures s[k] != ':' {
        assert IsDigit(s[k]);
      }
    }
  }

  /** Three fields int() reads as h, m and sec make a duration of that many hours, minutes, seconds. */
  lemma DurationOfFields(s: string, h: int, m: int, sec: int)
    requires |Split(s, ':')| == 3
    requires ParseInt(Split(s, ':')[0]) == Some(h)
    requires ParseInt(Split(s, ':')[1]) == Some(m)
    requires ParseInt(Split(s, ':')[2]) == Some(sec)
    requires -86400 * MaxDays <= h * 3600 + m * 60 + sec < 86400 * (MaxDays + 1)
    ensures DurationSeconds(s) == Ok(h * 3600 + m * 60 + sec)
  {
    var parts := Split(s, ':');
    assert forall i | 0 <= i < |parts| :: ParseInt(parts[i]).Some?;
  }

  /** Colon-free fields a, b, c that int() reads as h, m and sec: "a:b:c" lasts that long. */
  lemma DurationOfParts(a: string, b: string, c: string, h: int, m: int, sec: int)
    requires ':' !in a && ':' !in b && ':' !in c
    requires ParseInt(a) == Some(h) && ParseInt(b) == Some(m) && ParseInt(c) == Some(sec)
    requires -86400 * MaxDays <= h * 3600 + m * 60 + sec < 86400 * (MaxDays + 1)
    ensures DurationSeconds(a + ":" + b + ":" + c) == Ok(h * 3600 + m * 60 + sec)
  {
    SplitClock(a, b, c);
    DurationOfFields(a + ":" + b + ":" + c, h, m, sec);
  }

  /** A clock reading H:M:S written with str() lasts H hours, M minutes and S seconds. */
  lemma {:induction false} DurationOfClock(h: nat, m: nat, sec: nat)
    requires h * 3600 + m * 60 + sec < 86400 * (MaxDays + 1)
    ensures DurationSeconds(ShowNat(h) + ":" + ShowNat(m) + ":" + ShowNat(sec)) == Ok(h * 3600 + m * 60 + sec)
  {
    ShowNatHasNoColon(h);
    ShowNatHasNoColon(m);
    ShowNatHasNoColon(sec);
    ParseShowNat(h);
    ParseShowNat(m);
    ParseShowNat(sec);
    DurationOfParts(ShowNat(h), ShowNat(m), ShowNat(sec), h, m, sec);
  }

  /** Three runs of digits joined by colons last as many hours, minutes and seconds as they read. */
  lemma {:induction false} DurationOfDigits(h: string, m: string, sec: string)
    requires h != [] && m != [] && sec != [] && AllDigits(h) && AllDigits(m) && AllDigits(sec)
    requires DigitsValue(h) * 3600 + DigitsValue(m) * 60 + DigitsValue(sec) < 86400 * (MaxDays + 1)
    ensures DurationSeconds(h + ":" + m + ":" + sec) == Ok(DigitsValue(h) * 3600 + DigitsValue(m) * 60 + DigitsValue(sec))
  {
    DigitsHaveNoColon(h);
    DigitsHaveNoColon(m);
    DigitsHaveNoColon(sec);
    ParseDigits(h);
    ParseDigits(m);
    ParseDigits(sec);
    DurationOfParts(h, m, sec, DigitsValue(h), DigitsValue(m), DigitsValue(sec));
  }

  lemma DigitsHaveNoColon(s: string)
    requires AllDigits(s)
    ensures ':' !in s
  {
  }

  /** A number below 100 written with two digits, as ffprobe writes each field of a duration. */
  function TwoDigits(n: nat): (r: string)
    requires n < 100
    ensures |r| == 2 && AllDigits(r)
  {
    [('0' as int + n / 10) as char, ('0' as int + n % 10) as char]
  }

  lemma {:induction false} TwoDigitsValue(n: nat)
    requires n < 100
    ensures DigitsValue(TwoDigits(n)) == n
  {
    var t := TwoDigits(n);
    assert t[..1][..0] == [];
    assert DigitsValue(t[..1]) == n / 10;
    assert DigitsValue(t) == DigitsValue(t[..1]) * 10 + n % 10;
  }

  /**
   * ffprobe's zero-padded "HH:MM:SS" lasts HH hours, MM minutes and SS seconds, and
   * get_video_duration reports that many seconds, whole days dropped.
   */
  lemma {:induction false} DurationOfPaddedClock(h: nat, m: nat, sec: nat)
    requires h < 100 && m < 100 && sec < 100
    ensures DurationSeconds(TwoDigits(h) + ":" + TwoDigits(m) + ":" + TwoDigits(sec)) == Ok(h * 3600 + m * 60 + sec)
    ensures VideoDuration(TwoDigits(h) + ":" + TwoDigits(m) + ":" + TwoDigits(sec)) == Ok((h * 3600 + m * 60 + sec) % 86400)
  {
    TwoDigitsValue(h);
    TwoDigitsValue(m);
    TwoDigitsValue(sec);
    DurationOfDigits(TwoDigits(h), TwoDigits(m), TwoDigits(sec));
  }

  /** "00:01:05" is a clip of 65 seconds. */
  lemma SixtyFiveSeconds()
    ensures VideoDuration("00:01:05") == Ok(65)
  {
    assert TwoDigits(0) == "00";
    assert TwoDigits(1) == "01";
    assert TwoDigits(5) == "05";
    assert TwoDigits(0) + ":" + TwoDigits(1) + ":" + TwoDigits(5) == "00:01:05";
    DurationOfPaddedClock(0, 1, 5);
    assert (0 * 3600 + 1 * 60 + 5) % 86400 == 65;
  }

  /**
   * get_video_duration after ffprobe: the `.seconds` of the timedelta read from the
   * captured "Duration: H:M:S" text, i.e. the total modulo one day.
   */
  function VideoDuration(captured: string): (r: Result<int>)
    ensures r.Ok? ==> 0 <= r.value < 86400
    ensures r.Ok? <==> DurationSeconds(captured).Ok?
    ensures r.Ok? ==> r.value == DurationSeconds(captured).value % 86400
  {
    var total :- DurationSeconds(captured);
    Ok(total % 86400)
  }

  /** A clip shorter than a day reports its length; a longer one loses its whole days. */
  lemma VideoDurationWithinDay(captured: string)
    requires DurationSeconds(captured).Ok?
    ensures 0 <= DurationSeconds(captured).value < 86400 ==>
              VideoDuration(captured) == DurationSeconds(captured)
    ensures DurationSeconds(captured).value >= 86400 ==>
              VideoDuration(captured).value < DurationSeconds(captured).value
  {
  }

  // ---------------------------------------------------------------------------------------
  // save_snap

  function Last(pieces: seq<string>): string
    requires pieces != []
  {
    pieces[|pieces| - 1]
  }

  /**
   * The name save_snap renames the copied file to: the directory, the sender, '_', the snap
   * id, '.', and the third '.'-separated piece of the last '\'-separated segment of the file
   * name. A snap without a sender raises AttributeError, a sender or id that is not a string
   * TypeError, and a segment with fewer than three pieces IndexError.
   */
  function SaveSnapTarget(fileName: string, dir: string, sender: Option<Value>, snapId: Value): (r: Result<string>)
    ensures sender.None? ==> r == Err(AttributeError)
    ensures r.Ok? ==>
              (&& sender.Some? && sender.value.Str? && snapId.Str?
               && |Split(Last(Split(fileName, '\\')), '.')| >= 3
               && r.value == dir + sender.value.s + "_" + snapId.s + "." + Split(Last(Split(fileName, '\\')), '.')[2])
  {
    var base := Last(Split(fileName, '\\'));
    match sender
    case None => Err(AttributeError)
    case Some(who) =>
      if !who.Str? || !snapId.Str? then Err(TypeError)
      else
        var pieces := Split(base, '.');
        if |pieces| < 3 then Err(IndexError)
        else Ok(dir + who.s + "_" + snapId.s + "." + pieces[2])
  }

  /** Whatever precedes the last separator does not change the last piece. */
  lemma {:induction false} SplitLastAfterSep(a: string, b: string, sep: char)
    ensures |Split(a + [sep] + b, sep)| >= 2
    ensures Last(Split(a + [sep] + b, sep)) == Last(Split(b, sep))
    decreases |a|
  {
    if a == [] {
      assert a + [sep] + b == [sep] + b;
      assert ([sep] + b)[1..] == b;
    } else {
      assert (a + [sep] + b)[1..] == a[1..] + [sep] + b;
      SplitLastAfterSep(a[1..], b, sep);
    }
  }

  /** Behind a directory prefix ending in '\', a segment free of '\' is the last one. */
  lemma {:induction false} LastSegment(folder: string, base: string)
    requires folder == [] || folder[|folder| - 1] == '\\'
    requires '\\' !in base
    ensures Last(Split(folder + base, '\\')) == base
  {
    SplitNoSep(base, '\\');
    if folder == [] {
      assert folder + base == base;
    } else {
      var f := folder[..|folder| - 1];
      assert folder + base == f + ['\\'] + base;
      SplitLastAfterSep(f, base, '\\');
    }
  }

  /** stem + "." + "." + bare splits on '.' into the stem, an empty piece and bare. */
  lemma SplitDoubleDot(stem: string, bare: string)
    requires '.' !in stem && '.' !in bare
    ensures Split(stem + "." + "." + bare, '.') == [stem, "", bare]
  {
    assert stem + "." + "." + bare == stem + ['.'] + ("" + ['.'] + bare);
    SplitPrefix(stem, "" + ['.'] + bare, '.');
    SplitPrefix("", bare, '.');
    SplitNoSep(bare, '.');
  }

  /** The target save_snap computes from a segment that splits into stem, "" and bare. */
  lemma TargetOfSegment(fileName: string, stem: string, bare: string, dir: string, sender: string, snapId: string)
    requires Split(Last(Split(fileName, '\\')), '.') == [stem, "", bare]
    ensures SaveSnapTarget(fileName, dir, Some(Str(sender)), Str(snapId)) == Ok(dir + sender + "_" + snapId + "." + bare)
  {
  }

  /**
   * A received snap is stored in a temporary file named stem + "." + file_extension_for_type,
   * so its segment splits into the stem, an empty piece and the bare extension: save_snap
   * names it sender_id.jpg or sender_id.mp4.
   */
  lemma SaveReceivedSnap(folder: string, stem: string, mediaType: Value, dir: string, sender: string, snapId: string)
    requires folder == [] || folder[|folder| - 1] == '\\'
    requires '.' !in stem && '\\' !in stem
    ensures SaveSnapTarget(folder + stem + "." + FileExtensionForType(mediaType), dir, Some(Str(sender)), Str(snapId)) ==
              Ok(dir + sender + "_" + snapId + "." + (if mediaType == Int(MediaTypeImage) then "jpg" else "mp4"))
  {
    var bare := if mediaType == Int(MediaTypeImage) then "jpg" else "mp4";
    assert FileExtensionForType(mediaType) == "." + bare;
    var base := stem + "." + "." + bare;
    assert folder + stem + "." + FileExtensionForType(mediaType) == folder + base;
    assert '\\' !in base;
    LastSegment(folder, base);
    SplitDoubleDot(stem, bare);
    TargetOfSegment(folder + base, stem, bare, dir, sender, snapId);
  }

  /**
   * A snap made by from_file from an image is stored under stem + ".jpg", whose segment has
   * only two pieces: save_snap raises IndexError for it.
   */
  lemma SaveFileImageSnapFails(stem: string, dir: string, sender: string, snapId: string)
    requires '.' !in stem && '\\' !in stem
    ensures SaveSnapTarget(stem + ".jpg", dir, Some(Str(sender)), Str(snapId)) == Err(IndexError)
  {
    var base := stem + ".jpg";
    assert '\\' !in base;
    SplitNoSep(base, '\\');
    assert base == stem + ['.'] + "jpg";
    SplitPrefix(stem, "jpg", '.');
    SplitNoSep("jpg", '.');
  }
}
