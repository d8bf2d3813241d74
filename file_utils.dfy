/**
 * The string handling in the file helpers: a file's extension, the name
 * fallback for a URI, the path of an external-storage document, and the
 * storage-state checks. Content-resolver queries and the platform's
 * storage state are parameters.
 */
module FileUtils {
  import opened Wrappers
  import opened KotlinText

  /** `getFileExtension`: the text after the last dot, or "" when there is none. */
  function FileExtension(name: string): (r: string)
    ensures '.' !in name ==> r == ""
    ensures '.' in name ==> '.' !in r && exists i :: 0 <= i < |name| && name[i] == '.' && name[i + 1..] == r
  {
    var lastDot := LastIndexOf(name, '.');
    if lastDot == -1 then "" else name[lastDot + 1..]
  }

  /** Appending a dot and an extension without dots makes that extension the file's. */
  lemma {:induction false} ExtensionOfJoinedName(base: string, ext: string)
    requires '.' !in ext
    ensures FileExtension(base + "." + ext) == ext
  {
    var name := base + "." + ext;
    assert name[|base|] == '.';
    assert name[|base| + 1..] == ext;
  }

  /** A name ending in a dot has the empty extension. */
  lemma TrailingDotEmptyExtension(base: string)
    ensures FileExtension(base + ".") == ""
  {
    ExtensionOfJoinedName(base, "");
    assert base + "." + "" == base + ".";
  }

  /** The fallback of `getFileName`: the path's text after its last slash, or the whole path. */
  function LastSegment(path: Option<string>): (r: Option<string>)
    ensures r.None? <==> path.None?
    ensures r.Some? ==> '/' !in r.value && EndsWith(path.value, r.value)
    ensures r.Some? && '/' !in path.value ==> r.value == path.value
    ensures r.Some? && '/' in path.value ==>
              exists i :: 0 <= i < |path.value| && path.value[i] == '/' && path.value[i + 1..] == r.value
  {
    match path
    case None => None
    case Some(p) =>
      var cut := LastIndexOf(p, '/');
      if cut == -1 then Some(p) else Some(p[cut + 1..])
  }

  /**
   * `getFileName`. `scheme` is the URI's scheme and `path` its path (either
   * may be null); `displayName` is what the content query yields, None when
   * there is no cursor, no row, no display-name column or a null value.
   */
  method GetFileName(scheme: Option<string>, displayName: Option<string>, path: Option<string>)
    returns (result: Option<string>)
    ensures scheme == Some("content") && displayName.Some? ==> result == displayName
    ensures !(scheme == Some("content") && displayName.Some?) ==> result == LastSegment(path)
  {
    result := None;
    if scheme == Some("content") {
      if displayName.Some? {
        result := displayName;
      }
    }
    if result.None? {
      result := path;
      var cut := if result.Some? then LastIndexOf(result.value, '/') else -1;
      if cut != -1 {
        result := Some(result.value[cut + 1..]);
      }
    }
  }

  /** The SD-card branch of `getPath`: the document id under `/storage/`, with every colon made a slash. */
  function SdCardPath(docId: string): (r: string)
    ensures ':' !in r
    ensures |r| == |"/storage/"| + |docId|
    ensures r[..9] == "/storage/"
    ensures forall i :: 0 <= i < |docId| ==> r[9 + i] == if docId[i] == ':' then '/' else docId[i]
  {
    ReplaceChar("/storage/" + docId, ':', '/')
  }

  /**
   * The external-storage branch of `getPath`. The document id is split at
   * colons: a first part equal to "primary" (ignoring case) selects the
   * device's storage directory followed by the second part, and any other
   * first part selects the SD-card path. None is the exception thrown when a
   * "primary" id has no second part.
   */
  function ExternalStorageDocumentPath(docId: string, externalStorageDirectory: string): (r: Option<string>)
    ensures !EqualsIgnoreCase(SubstringBefore(docId, ":"), "primary") ==> r == Some(SdCardPath(docId))
    ensures EqualsIgnoreCase(SubstringBefore(docId, ":"), "primary") ==>
              (r.None? <==> ':' !in docId)
    ensures r.Some? && EqualsIgnoreCase(SubstringBefore(docId, ":"), "primary") ==>
              r.value == externalStorageDirectory + "/" + SubstringBefore(SubstringAfter(docId, ":"), ":")
  {
    var kind := SubstringBefore(docId, ":");
    if EqualsIgnoreCase(kind, "primary") then
      ContainsChar(docId, ':');
      if ':' in docId then Some(externalStorageDirectory + "/" + SubstringBefore(SubstringAfter(docId, ":"), ":"))
      else None
    else Some(SdCardPath(docId))
  }

  /**
   * A "primary" document `kind:relative[:...]` resolves to the relative part
   * under the storage directory.
   */
  lemma {:induction false} PrimaryDocumentPath(kind: string, relative: string, tail: string, dir: string)
    requires EqualsIgnoreCase(kind, "primary") && ':' !in kind && ':' !in relative
    requires tail == [] || tail[0] == ':'
    ensures ExternalStorageDocumentPath(kind + ":" + relative + tail, dir) == Some(dir + "/" + relative)
  {
    var docId := kind + ":" + relative + tail;
    assert docId == kind + [':'] + (relative + tail);
    BeforeFirst(kind, ':', relative + tail);
    AfterFirst(kind, ":", relative + tail);
    assert docId[|kind|] == ':';
    if tail == [] {
      assert relative + tail == relative;
      ContainsChar(relative, ':');
    } else {
      assert relative + tail == relative + [':'] + tail[1..];
      BeforeFirst(relative, ':', tail[1..]);
    }
  }

  /** The SD-card path of `volume:relative` is `/storage/volume/relative` with the relative part's colons made slashes. */
  lemma {:induction false} SdCardPathOfVolume(volume: string, relative: string)
    requires ':' !in volume
    ensures SdCardPath(volume + ":" + relative) == "/storage/" + volume + "/" + ReplaceChar(relative, ':', '/')
  {
    var docId := volume + ":" + relative;
    var r := SdCardPath(docId);
    var rel := ReplaceChar(relative, ':', '/');
    var expected := "/storage/" + volume + "/" + rel;
    assert |r| == |expected|;
    forall i | 0 <= i < |r| ensures r[i] == expected[i] {
      if i < 9 {
        assert r[..9][i] == r[i];
      } else if i < 9 + |volume| {
        assert docId[i - 9] == volume[i - 9];
        assert expected[i] == volume[i - 9];
      } else if i == 9 + |volume| {
        assert docId[i - 9] == ':';
        assert expected[i] == '/';
      } else {
        var k := i - 10 - |volume|;
        assert docId[i - 9] == relative[k];
        assert expected[i] == rel[k];
      }
    }
  }

  /** Any other document `volume:relative` resolves to its SD-card path. */
  lemma {:induction false} SdCardDocumentPath(volume: string, relative: string, dir: string)
    requires !EqualsIgnoreCase(volume, "primary") && ':' !in volume
    ensures ExternalStorageDocumentPath(volume + ":" + relative, dir)
            == Some("/storage/" + volume + "/" + ReplaceChar(relative, ':', '/'))
  {
    var docId := volume + ":" + relative;
    assert docId == volume + [':'] + relative;
    BeforeFirst(volume, ':', relative);
    SdCardPathOfVolume(volume, relative);
  }

  /** The values `Environment.getExternalStorageState` reports for mounted storage. */
  const MediaMounted: string := "mounted"
  const MediaMountedReadOnly: string := "mounted_ro"

  predicate IsExternalStorageWritable(state: string) {
    state == MediaMounted
  }

  predicate IsExternalStorageReadable(state: string) {
    state in {MediaMounted, MediaMountedReadOnly}
  }

  /** Writable storage is readable, and read-only storage is readable but not writable. */
  lemma WritableImpliesReadable(state: string)
    ensures IsExternalStorageWritable(state) ==> IsExternalStorageReadable(state)
    ensures state == MediaMountedReadOnly ==> IsExternalStorageReadable(state) && !IsExternalStorageWritable(state)
  {
  }
}
