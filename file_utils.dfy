/** Naming and storing the generated audio artifacts (apps/libs/fileUtils.ts). */
module FileUtils {
  import opened Js

  // ---------------------------------------------------------------------------
  // Character classes (ASCII code units)
  // ---------------------------------------------------------------------------

  const UNDERSCORE: CodeUnit := 95
  const DASH: CodeUnit := 45
  const COLON: CodeUnit := 58
  const DOT: CodeUnit := 46

  predicate IsAsciiUpper(c: CodeUnit) { 65 <= c <= 90 }
  predicate IsAsciiLower(c: CodeUnit) { 97 <= c <= 122 }

  /** The class `[a-zA-Z0-9]`. */
  predicate IsAsciiAlnum(c: CodeUnit) { IsDigitUnit(c) || IsAsciiUpper(c) || IsAsciiLower(c) }

  /** What may appear in the zone part of a filename. */
  predicate IsZoneSafe(c: CodeUnit) { IsDigitUnit(c) || IsAsciiLower(c) || c == UNDERSCORE }

  // ---------------------------------------------------------------------------
  // generateAudioFilename
  // ---------------------------------------------------------------------------

  /** `s.replace(/[^a-zA-Z0-9]/g, '_')`: without the `u` flag every code unit
      outside the class, each half of a surrogate pair included, becomes `_`. */
  function ReplaceNonAlnum(s: JsString): (r: JsString)
    ensures |r| == |s|
    ensures forall i :: 0 <= i < |s| ==> r[i] == if IsAsciiAlnum(s[i]) then s[i] else UNDERSCORE
  {
    if s == [] then [] else [if IsAsciiAlnum(s[0]) then s[0] else UNDERSCORE] + ReplaceNonAlnum(s[1..])
  }

  function LowerUnit(c: CodeUnit): CodeUnit {
    if IsAsciiUpper(c) then c + 32 else c
  }

  /** `s.toLowerCase()` on a string that holds only ASCII code units, which is
      all that is left after ReplaceNonAlnum; there it maps `A`-`Z` to `a`-`z`
      one code unit for one and leaves everything else alone. */
  function LowerAscii(s: JsString): (r: JsString)
    ensures |r| == |s|
    ensures forall i :: 0 <= i < |s| ==> r[i] == LowerUnit(s[i])
  {
    if s == [] then [] else [LowerUnit(s[0])] + LowerAscii(s[1..])
  }

  /** The zone part of the filename: replace first, then lower-case. */
  function CleanZone(zone: JsString): JsString {
    LowerAscii(ReplaceNonAlnum(zone))
  }

  /** `iso.replace(/[:.]/g, '-')`. */
  function CleanTimestamp(iso: JsString): (r: JsString)
    ensures |r| == |iso|
    ensures forall i :: 0 <= i < |iso| ==> r[i] == if iso[i] == COLON || iso[i] == DOT then DASH else iso[i]
  {
    if iso == [] then []
    else [if iso[0] == COLON || iso[0] == DOT then DASH else iso[0]] + CleanTimestamp(iso[1..])
  }

  const MP3_SUFFIX: JsString := Ascii(".mp3")

  /** The template literal `${cleanZone}_${cleanTimestamp}.mp3`, given the
      string `new Date(timestamp).toISOString()` produced. */
  function AudioFilename(zone: JsString, iso: JsString): JsString {
    CleanZone(zone) + [UNDERSCORE] + CleanTimestamp(iso) + MP3_SUFFIX
  }

  /** The message of the `RangeError` that `toISOString` throws on an invalid date. */
  const INVALID_TIME_VALUE: JsString := Ascii("Invalid time value")

  /** `generateAudioFilename(zone, timestamp)`. `dateToIso` stands for
      `new Date(timestamp).toISOString()`, which depends on the time zone of
      the process; `None` is an invalid date, on which `toISOString` throws. */
  function GenerateAudioFilename(zone: JsString, timestamp: JsString, dateToIso: JsString -> Option<JsString>): (r: Result<JsString>)
    ensures dateToIso(timestamp).None? <==> r.Err?
    ensures r.Err? ==> r.error == ErrorObject(INVALID_TIME_VALUE)
    ensures r.Ok? ==> r.value == AudioFilename(zone, dateToIso(timestamp).value)
  {
    match dateToIso(timestamp)
    case None => Err(ErrorObject(INVALID_TIME_VALUE))
    case Some(iso) => Ok(AudioFilename(zone, iso))
  }

  // ---------------------------------------------------------------------------
  // Properties of the filename
  // ---------------------------------------------------------------------------

  /** The zone part keeps the length of the zone; an ASCII letter or digit
      becomes its lower-case self and every other code unit becomes `_`, so
      only lower-case letters, digits and `_` remain. */
  lemma CleanZoneAt(zone: JsString)
    ensures |CleanZone(zone)| == |zone|
    ensures forall i :: 0 <= i < |zone| && IsAsciiAlnum(zone[i]) ==>
      CleanZone(zone)[i] == (if IsAsciiUpper(zone[i]) then zone[i] + 32 else zone[i])
    ensures forall i :: 0 <= i < |zone| && !IsAsciiAlnum(zone[i]) ==> CleanZone(zone)[i] == UNDERSCORE
    ensures forall i :: 0 <= i < |zone| ==> IsZoneSafe(CleanZone(zone)[i])
  {
    var r := ReplaceNonAlnum(zone);
    forall i | 0 <= i < |zone|
      ensures IsZoneSafe(CleanZone(zone)[i])
    {
      assert CleanZone(zone)[i] == LowerUnit(r[i]);
    }
  }

  /** Two zones give the same zone part exactly when they have the same length
      and agree, position by position, up to ASCII case or on both being
      outside `[a-zA-Z0-9]`: there is no de-duplication. */
  lemma CleanZoneCollision(z1: JsString, z2: JsString)
    ensures CleanZone(z1) == CleanZone(z2) <==>
      |z1| == |z2| && forall i :: 0 <= i < |z1| ==>
        (!IsAsciiAlnum(z1[i]) && !IsAsciiAlnum(z2[i])) ||
        (IsAsciiAlnum(z1[i]) && IsAsciiAlnum(z2[i]) && LowerUnit(z1[i]) == LowerUnit(z2[i]))
  {
    CleanZoneAt(z1);
    CleanZoneAt(z2);
    if |z1| == |z2| && CleanZone(z1) != CleanZone(z2) {
      var i :| 0 <= i < |z1| && CleanZone(z1)[i] != CleanZone(z2)[i];
      assert CleanZone(z1)[i] == LowerAscii(ReplaceNonAlnum(z1))[i];
    }
  }

  /** The timestamp part keeps the length, maps `:` and `.` to `-` and leaves
      every other code unit (the upper-case `T` and `Z` included) as it is. */
  lemma CleanTimestampAt(iso: JsString)
    ensures |CleanTimestamp(iso)| == |iso|
    ensures forall i :: 0 <= i < |iso| ==> CleanTimestamp(iso)[i] != COLON && CleanTimestamp(iso)[i] != DOT
    ensures forall i :: 0 <= i < |iso| && iso[i] != COLON && iso[i] != DOT ==> CleanTimestamp(iso)[i] == iso[i]
  {
  }

  /** The filename is the zone part, `_`, the timestamp part and `.mp3`, in
      that order, so it always ends in `.mp3`. */
  lemma AudioFilenameLayout(zone: JsString, iso: JsString)
    ensures var name := AudioFilename(zone, iso);
      && |name| == |zone| + 1 + |iso| + 4
      && name[..|zone|] == CleanZone(zone)
      && name[|zone|] == UNDERSCORE
      && name[|zone| + 1..|zone| + 1 + |iso|] == CleanTimestamp(iso)
      && name[|name| - 4..] == Ascii(".mp3")
  {
    var name, cz, ct := AudioFilename(zone, iso), CleanZone(zone), CleanTimestamp(iso);
    var tail := [UNDERSCORE] + ct + MP3_SUFFIX;
    assert |cz| == |zone| && |ct| == |iso|;
    assert name == cz + tail;
    assert name[..|zone|] == cz;
    assert name[|zone|..] == tail;
    assert tail[1..1 + |iso|] == ct;
    assert tail[|tail| - 4..] == MP3_SUFFIX;
  }

  // ---------------------------------------------------------------------------
  // Canonical ISO strings and when two filenames coincide
  // ---------------------------------------------------------------------------

  /** `s` follows `template`, where `d` stands for any ASCII digit, `s` for a
      sign and every other character for itself. */
  predicate Matches(s: JsString, template: string) {
    && |s| == |template|
    && forall i :: 0 <= i < |s| ==>
         if template[i] == 'd' then IsDigitUnit(s[i])
         else if template[i] == 's' then s[i] == 43 || s[i] == 45
         else s[i] as int == template[i] as int
  }

  const ISO_TEMPLATE := "dddd-dd-ddTdd:dd:dd.dddZ"
  const ISO_EXTENDED_TEMPLATE := "sdddddd-dd-ddTdd:dd:dd.dddZ"

  /** The two shapes `Date.prototype.toISOString` produces: a four-digit year,
      or a signed six-digit year outside 0000-9999. */
  predicate IsCanonicalIso(iso: JsString) {
    Matches(iso, ISO_TEMPLATE) || Matches(iso, ISO_EXTENDED_TEMPLATE)
  }

  /** No `_` can come out of a canonical ISO string. */
  lemma CanonicalIsoHasNoUnderscore(iso: JsString)
    requires IsCanonicalIso(iso)
    ensures forall i :: 0 <= i < |iso| ==> CleanTimestamp(iso)[i] != UNDERSCORE
  {
    TemplatesHaveNoUnderscore();
    if Matches(iso, ISO_TEMPLATE) {
      MatchedHasNoUnderscore(iso, ISO_TEMPLATE);
    } else {
      MatchedHasNoUnderscore(iso, ISO_EXTENDED_TEMPLATE);
    }
  }

  lemma TemplatesHaveNoUnderscore()
    ensures forall i :: 0 <= i < |ISO_TEMPLATE| ==> ISO_TEMPLATE[i] != '_'
    ensures forall i :: 0 <= i < |ISO_EXTENDED_TEMPLATE| ==> ISO_EXTENDED_TEMPLATE[i] != '_'
  {
  }

  /** A string that follows a template without `_` holds no `_`. */
  lemma MatchedHasNoUnderscore(s: JsString, template: string)
    requires Matches(s, template)
    requires forall i :: 0 <= i < |template| ==> template[i] != '_'
    ensures forall i :: 0 <= i < |s| ==> s[i] != UNDERSCORE
  {
  }

  /** On canonical ISO strings the rewriting of `:` and `.` loses nothing: the
      separators sit at positions the length determines. */
  lemma CleanTimestampInjective(i1: JsString, i2: JsString)
    requires IsCanonicalIso(i1) && IsCanonicalIso(i2)
    requires CleanTimestamp(i1) == CleanTimestamp(i2)
    ensures i1 == i2
  {
    assert |i1| == |i2|;
    var t := if |i1| == |ISO_TEMPLATE| then ISO_TEMPLATE else ISO_EXTENDED_TEMPLATE;
    assert Matches(i1, t) && Matches(i2, t);
    forall k | 0 <= k < |i1|
      ensures i1[k] == i2[k]
    {
      assert CleanTimestamp(i1)[k] == CleanTimestamp(i2)[k];
      if t[k] == ':' {
        assert i1[k] == COLON && i2[k] == COLON;
      } else if t[k] == '.' {
        assert i1[k] == DOT && i2[k] == DOT;
      } else {
        assert i1[k] != COLON && i1[k] != DOT && i2[k] != COLON && i2[k] != DOT;
      }
    }
  }

  /** When the timestamp part holds no `_`, the last `_` of a filename is the
      separator, so equal filenames have equal zone and timestamp parts. */
  lemma AudioFilenameSplits(z1: JsString, t1: JsString, z2: JsString, t2: JsString)
    requires forall i :: 0 <= i < |t1| ==> CleanTimestamp(t1)[i] != UNDERSCORE
    requires forall i :: 0 <= i < |t2| ==> CleanTimestamp(t2)[i] != UNDERSCORE
    requires AudioFilename(z1, t1) == AudioFilename(z2, t2)
    ensures CleanZone(z1) == CleanZone(z2) && CleanTimestamp(t1) == CleanTimestamp(t2)
  {
    AudioFilenameLayout(z1, t1);
    AudioFilenameLayout(z2, t2);
    if |z1| < |z2| {
      NoUnderscoreAfterSeparator(z1, t1);
      assert false;
    }
    if |z2| < |z1| {
      NoUnderscoreAfterSeparator(z2, t2);
      assert false;
    }
  }

  /** After the separator a filename holds no `_` when the timestamp part
      holds none. */
  lemma NoUnderscoreAfterSeparator(zone: JsString, iso: JsString)
    requires forall i :: 0 <= i < |iso| ==> CleanTimestamp(iso)[i] != UNDERSCORE
    ensures forall k :: |zone| < k < |AudioFilename(zone, iso)| ==> AudioFilename(zone, iso)[k] != UNDERSCORE
  {
    var name, ct := AudioFilename(zone, iso), CleanTimestamp(iso);
    AudioFilenameLayout(zone, iso);
    assert MP3_SUFFIX == [DOT, 109, 112, 51];
    forall k | |zone| < k < |name|
      ensures name[k] != UNDERSCORE
    {
      if k < |zone| + 1 + |iso| {
        assert name[k] == name[|zone| + 1..|zone| + 1 + |iso|][k - |zone| - 1];
      } else {
        assert name[k] == name[|name| - 4..][k - (|name| - 4)];
      }
    }
  }

  /** For the strings `toISOString` produces, two calls give the same filename
      exactly when the instants are the same and the zones clean to the same
      zone part: distinct zones such as `Cafe!` and `cafe?` collide. */
  lemma AudioFilenameCollision(z1: JsString, iso1: JsString, z2: JsString, iso2: JsString)
    requires IsCanonicalIso(iso1) && IsCanonicalIso(iso2)
    ensures AudioFilename(z1, iso1) == AudioFilename(z2, iso2) <==> CleanZone(z1) == CleanZone(z2) && iso1 == iso2
  {
    if AudioFilename(z1, iso1) == AudioFilename(z2, iso2) {
      CanonicalIsoHasNoUnderscore(iso1);
      CanonicalIsoHasNoUnderscore(iso2);
      AudioFilenameSplits(z1, iso1, z2, iso2);
      CleanTimestampInjective(iso1, iso2);
    }
  }

  /** A worked example: `Cafe!` and `cafe?` both become `cafe_`. */
  lemma CleanZoneExample()
    ensures CleanZone(Ascii("Cafe!")) == Ascii("cafe_")
    ensures CleanZone(Ascii("cafe?")) == Ascii("cafe_")
  {
    CafeLiterals();
    CleanZoneOf([67, 97, 102, 101, 33]);
    CleanZoneOf([99, 97, 102, 101, 63]);
  }

  /** The code units of the literals used in CleanZoneExample. */
  lemma CafeLiterals()
    ensures Ascii("Cafe!") == [67, 97, 102, 101, 33]
    ensures Ascii("cafe?") == [99, 97, 102, 101, 63]
    ensures Ascii("cafe_") == [99, 97, 102, 101, 95]
  {
  }

  /** The zone part of a five-unit zone, written out. */
  lemma CleanZoneOf(zone: JsString)
    requires |zone| == 5
    ensures CleanZone(zone) == [CleanUnit(zone[0]), CleanUnit(zone[1]), CleanUnit(zone[2]), CleanUnit(zone[3]), CleanUnit(zone[4])]
  {
    var r := ReplaceNonAlnum(zone);
    forall i | 0 <= i < 5
      ensures CleanZone(zone)[i] == CleanUnit(zone[i])
    {
      assert CleanZone(zone)[i] == LowerUnit(r[i]);
    }
  }

  /** What one code unit of a zone becomes. */
  function CleanUnit(c: CodeUnit): CodeUnit {
    if IsAsciiAlnum(c) then LowerUnit(c) else UNDERSCORE
  }

  /** Zones that differ only in case and punctuation share a filename. */
  lemma ZonesDifferingInCaseCollide(iso: JsString)
    ensures AudioFilename(Ascii("Cafe!"), iso) == AudioFilename(Ascii("cafe?"), iso)
  {
    CleanZoneExample();
  }

  // ---------------------------------------------------------------------------
  // The audio directory
  // ---------------------------------------------------------------------------

  /** The `public/audio` directory and the files in it. A file name maps to the
      bytes last written under it. */
  class AudioStore {
    /** `AUDIO_DIR`, an absolute path fixed when the module loads. */
    const audioDir: JsString
    var directoryExists: bool
    var files: map<JsString, Bytes>

    /** A file can only exist inside the audio directory. */
    ghost predicate Valid()
      reads this
    {
      !directoryExists ==> files == map[]
    }

    constructor (audioDir: JsString, directoryExists: bool, files: map<JsString, Bytes>)
      requires !directoryExists ==> files == map[]
      ensures Valid()
      ensures this.audioDir == audioDir && this.directoryExists == directoryExists && this.files == files
    {
      this.audioDir := audioDir;
      this.directoryExists := directoryExists;
      this.files := files;
    }

    /** `ensureAudioDirectory()`: afterwards the directory exists and no file
        has changed; when it existed already nothing changed at all. */
    method EnsureAudioDirectory()
      requires Valid()
      modifies this
      ensures Valid()
      ensures directoryExists && files == old(files)
      ensures old(directoryExists) ==> unchanged(this)
    {
      if !directoryExists {
        directoryExists := true;
      }
    }

    /** `saveAudioFile(audioBuffer, filename)`. The directory is ensured first;
        `writeError` is the outcome of `fs.promises.writeFile`, which the file
        system decides. On success the bytes are stored unchanged under
        `filename` and the servable path `/audio/<filename>` is returned. */
    method SaveAudioFile(audio: Bytes, filename: JsString, writeError: Option<Thrown>) returns (r: Result<JsString>)
      requires Valid()
      modifies this
      ensures Valid() && directoryExists
      ensures writeError.None? ==> r == Ok(Ascii("/audio/") + filename) && files == old(files)[filename := audio]
      ensures writeError.None? ==> AudioFileExists(filename) && files[filename] == audio
      ensures writeError.Some? ==> r == Err(writeError.value) && files == old(files)
    {
      EnsureAudioDirectory();
      if writeError.Some? {
        return Err(writeError.value);
      }
      files := files[filename := audio];
      r := Ok(Ascii("/audio/") + filename);
    }

    /** `getAudioFilePath(filename)`: the name inside the audio directory. */
    function GetAudioFilePath(filename: JsString): (p: JsString)
      reads this
      ensures |p| == |audioDir| + 1 + |filename|
      ensures p[..|audioDir|] == audioDir && p[|audioDir|] == 47 && p[|audioDir| + 1..] == filename
    {
      audioDir + [47] + filename
    }

    /** Distinct names get distinct paths, so each stored name has its own
        file. */
    lemma GetAudioFilePathInjective(a: JsString, b: JsString)
      ensures GetAudioFilePath(a) == GetAudioFilePath(b) <==> a == b
    {
      if GetAudioFilePath(a) == GetAudioFilePath(b) {
        assert a == GetAudioFilePath(a)[|audioDir| + 1..];
      }
    }

    /** `audioFileExists(filename)`. */
    predicate AudioFileExists(filename: JsString)
      reads this
    {
      filename in files
    }

    /** No file exists while the audio directory does not: the invariant the
        constructor establishes and every operation keeps. */
    lemma NoFileWithoutDirectory(filename: JsString)
      requires Valid()
      ensures !directoryExists ==> !AudioFileExists(filename)
    {
    }
  }

  /** Saving twice under one name keeps only the second buffer (last write
      wins), and both calls report the same path. */
  method SaveTwiceLastWins(store: AudioStore, name: JsString, first: Bytes, second: Bytes)
    returns (p1: Result<JsString>, p2: Result<JsString>)
    requires store.Valid()
    modifies store
    ensures p1 == p2 == Ok(Ascii("/audio/") + name)
    ensures store.files == old(store.files)[name := second]
  {
    p1 := store.SaveAudioFile(first, name, None);
    p2 := store.SaveAudioFile(second, name, None);
  }
}
