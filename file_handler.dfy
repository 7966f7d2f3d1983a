/** src/utils/fileHandler.js: the temp-root sweep `emptyTempDir`, the segment upload
    `uploadVideoSegment` and the variant-playlist rewriter `generateModifiedPlaylist`. */
module FileHandler {

  import opened Errors
  import opened Text
  import opened Host

  /** The placeholder that keeps the temp root in version control; the sweep never touches it. */
  const Marker: string := ".gitkeep"

  /** The single error every sweep failure becomes. */
  const SweepError: ApiError := ApiError("Error while deleting local files", Some(500))

  /** The entries a sweep leaves: the ones it skips (`keep`) and the ones the OS refuses to
      remove; every other entry, file or directory, is gone. */
  function Swept(entries: map<string, Entry>, keep: set<string>, locked: set<string>): (r: map<string, Entry>)
    ensures forall n :: n in r <==> n in entries && (n in keep || n in locked)
    ensures forall n :: n in r ==> r[n] == entries[n]
  {
    map n | n in entries && (n in keep || n in locked) :: entries[n]
  }

  /** A sweep fails iff some entry it must remove is refused by the OS. */
  predicate SweepFails(entries: map<string, Entry>, keep: set<string>, locked: set<string>) {
    exists n :: n in entries && n !in keep && n in locked
  }

  /** Every effect in `log` is the removal of a temp entry. */
  predicate Removals(log: seq<Effect>) {
    forall j :: 0 <= j < |log| ==> log[j].Removed?
  }

  /** The loop of `emptyTempDir`, with the set of names it skips as a parameter: removes every
      other top-level entry (`rm -r` for directories, `unlink` for files) and reports any
      failure, after trying every entry, as the single `SweepError`. When the root does not
      exist nothing happens. */
  method Sweep(h: Host, keep: set<string>) returns (failure: Option<ApiError>)
    requires h.Valid()
    modifies h
    ensures h.Valid() && h.rootExists == old(h.rootExists) && h.assets == old(h.assets)
    ensures h.entries == Swept(old(h.entries), keep, h.locked)
    ensures failure == (if SweepFails(old(h.entries), keep, h.locked) then Some(SweepError) else None)
    ensures |h.log| >= |old(h.log)| && h.log[..|old(h.log)|] == old(h.log)
    ensures Removals(h.log[|old(h.log)|..])
    ensures !old(h.rootExists) ==> h.log == old(h.log)
  {
    var present := h.ExistsSync();
    if !present {
      assert h.entries == map[];
      return None;
    }
    var items := h.Readdir();
    ghost var e0 := h.entries;
    ghost var log0 := h.log;
    var pending := items;
    var failed := false;
    while pending != {}
      invariant pending <= items && items == e0.Keys
      invariant h.Valid() && h.rootExists && h.assets == old(h.assets)
      invariant h.entries == map n | n in e0 && (n in keep || n in h.locked || n in pending) :: e0[n]
      invariant failed <==> exists n :: n in items && n !in pending && n !in keep && n in h.locked
      invariant |h.log| >= |log0| && h.log[..|log0|] == log0 && Removals(h.log[|log0|..])
      decreases pending
    {
      var item :| item in pending;
      ghost var before := h.log;
      if item !in keep {
        var stats := h.Lstat(item);
        match stats
        case Failure(_) =>
          failed := true;
        case Success(isDirectory) =>
          var err: Option<ApiError>;
          if isDirectory {
            err := h.Rm(item);
          } else {
            err := h.Unlink(item);
          }
          if err.Some? {
            failed := true;
          }
      }
      assert h.log[|log0|..] == before[|log0|..] + h.log[|before|..];
      pending := pending - {item};
    }
    if failed {
      failure := Some(SweepError);
    } else {
      failure := None;
    }
  }

  /** `emptyTempDir`: the sweep that skips only `.gitkeep`. */
  method EmptyTempDir(h: Host) returns (failure: Option<ApiError>)
    requires h.Valid()
    modifies h
    ensures h.Valid() && h.rootExists == old(h.rootExists) && h.assets == old(h.assets)
    ensures h.entries == Swept(old(h.entries), {Marker}, h.locked)
    ensures failure == (if SweepFails(old(h.entries), {Marker}, h.locked) then Some(SweepError) else None)
    ensures |h.log| >= |old(h.log)| && h.log[..|old(h.log)|] == old(h.log)
    ensures Removals(h.log[|old(h.log)|..])
    ensures !old(h.rootExists) ==> h.log == old(h.log)
  {
    failure := Sweep(h, {Marker});
  }

  /** After a sweep that did not fail, nothing but the skipped names is left. */
  lemma SweptLeavesOnlyKept(entries: map<string, Entry>, keep: set<string>, locked: set<string>)
    requires !SweepFails(entries, keep, locked)
    ensures Swept(entries, keep, locked).Keys == entries.Keys * keep
  {
  }

  /** A sweep never removes or changes a skipped entry, in particular `.gitkeep`. */
  lemma KeptUntouched(entries: map<string, Entry>, keep: set<string>, locked: set<string>, n: string)
    requires n in keep && n in entries
    ensures n in Swept(entries, keep, locked) && Swept(entries, keep, locked)[n] == entries[n]
  {
  }

  /** Sweeping twice is sweeping once: the second sweep removes nothing, and fails exactly
      when the first did (a refused entry is still there). */
  lemma SweepIdempotent(entries: map<string, Entry>, keep: set<string>, locked: set<string>)
    ensures Swept(Swept(entries, keep, locked), keep, locked) == Swept(entries, keep, locked)
    ensures SweepFails(Swept(entries, keep, locked), keep, locked) == SweepFails(entries, keep, locked)
  {
    var s := Swept(entries, keep, locked);
    if SweepFails(entries, keep, locked) {
      var n :| n in entries && n !in keep && n in locked;
      assert n in s;
    }
  }

  /** `uploadVideoSegment`: uploads a local file as a Cloudinary video asset under
      `folder/publicId` (overwriting) and returns its `secure_url`. */
  method UploadVideoSegment(h: Host, dir: string, rel: seq<string>, folder: string, publicId: string)
    returns (r: Result<string, ApiError>)
    modifies h
    ensures h.rootExists == old(h.rootExists) && h.entries == old(h.entries)
    ensures h.log == old(h.log) + [Uploaded(Video, folder, publicId)]
    ensures var key := AssetKey(Video, RemoteId(folder, publicId));
      var ok := FileAt(h.entries, dir, rel).Some? && UploadCall(Video, folder, publicId) !in h.refused;
      && (r.Success? <==> ok)
      && (ok ==> r.value == h.secureUrl(key) && h.assets == old(h.assets)[key := FileAt(h.entries, dir, rel).value])
      && (!ok ==> h.assets == old(h.assets))
  {
    r := h.UploadFile(Video, dir, rel, folder, publicId);
  }

  /** One line of `generateModifiedPlaylist`: a line whose trimmed text is a key of the map is
      replaced by the mapped URL; any other line is kept as it is. */
  function RewriteLine(line: string, urlMap: map<string, string>): string {
    var trimmed := Trim(line);
    if trimmed in urlMap then urlMap[trimmed] else line
  }

  /** `lines.map(...)`: one rewritten line per input line, in order. */
  function RewriteLines(lines: seq<string>, urlMap: map<string, string>): (r: seq<string>)
    ensures |r| == |lines|
    ensures forall i :: 0 <= i < |lines| ==> r[i] == RewriteLine(lines[i], urlMap)
  {
    if |lines| == 0 then [] else [RewriteLine(lines[0], urlMap)] + RewriteLines(lines[1..], urlMap)
  }

  /** `generateModifiedPlaylist`: the rewritten lines joined with newlines. */
  function GenerateModifiedPlaylist(lines: seq<string>, urlMap: map<string, string>): string {
    Join(RewriteLines(lines, urlMap), '\n')
  }

  /** No value of the map contains a newline (Cloudinary URLs do not). */
  predicate OneLineValues(urlMap: map<string, string>) {
    forall k :: k in urlMap ==> Free(urlMap[k], '\n')
  }

  /** Every element is a single line. */
  predicate OneLineEach(lines: seq<string>) {
    forall i :: 0 <= i < |lines| ==> Free(lines[i], '\n')
  }

  /** Read back line by line, the rewritten playlist has exactly as many lines as the input,
      in the same order: line `i` is the mapped URL when the trimmed input line is a key, and
      the input line itself, unchanged, otherwise (blank lines and `#` tags included). */
  lemma LineByLine(lines: seq<string>, urlMap: map<string, string>)
    requires |lines| >= 1 && OneLineEach(lines) && OneLineValues(urlMap)
    ensures var out := Split(GenerateModifiedPlaylist(lines, urlMap), '\n');
      && |out| == |lines|
      && (forall i :: 0 <= i < |lines| && Trim(lines[i]) in urlMap ==> out[i] == urlMap[Trim(lines[i])])
      && (forall i :: 0 <= i < |lines| && Trim(lines[i]) !in urlMap ==> out[i] == lines[i])
  {
    RewrittenOneLineEach(lines, urlMap);
    SplitJoin(RewriteLines(lines, urlMap), '\n');
  }

  lemma RewrittenOneLineEach(lines: seq<string>, urlMap: map<string, string>)
    requires OneLineEach(lines) && OneLineValues(urlMap)
    ensures OneLineEach(RewriteLines(lines, urlMap))
  {
    var r := RewriteLines(lines, urlMap);
    forall i | 0 <= i < |r| ensures Free(r[i], '\n') {
      assert r[i] == RewriteLine(lines[i], urlMap);
    }
  }

  /** A replaced line loses its surrounding whitespace, a trailing carriage return included:
      the URL stands alone on its line. */
  lemma PaddingDropped(pre: string, name: string, post: string, urlMap: map<string, string>)
    requires AllSpace(pre) && AllSpace(post) && Trimmed(name) && name in urlMap
    ensures RewriteLine(pre + name + post, urlMap) == urlMap[name]
  {
    TrimPadded(pre, name, post);
  }

  /** The common case of a playlist written with CRLF line ends. */
  lemma CarriageReturnDropped(name: string, urlMap: map<string, string>)
    requires Trimmed(name) && name in urlMap
    ensures RewriteLine(name + "\r", urlMap) == urlMap[name]
  {
    var pre: string := [];
    assert AllSpace("\r") by {
      assert IsJsSpace('\r');
    }
    assert pre + name + "\r" == name + "\r";
    PaddingDropped(pre, name, "\r", urlMap);
  }

  /** With an empty map nothing changes: splitting a playlist on newlines and rewriting gives
      back the very text that was read. */
  lemma EmptyMapRoundTrip(text: string)
    ensures GenerateModifiedPlaylist(Split(text, '\n'), map[]) == text
  {
    var lines := Split(text, '\n');
    assert RewriteLines(lines, map[]) == lines;
    JoinSplit(text, '\n');
  }

  /** If no mapped URL is itself (after trimming) a key, rewriting is idempotent: splitting
      the output and rewriting it again gives the same text. */
  lemma RewriteIdempotent(lines: seq<string>, urlMap: map<string, string>)
    requires |lines| >= 1 && OneLineEach(lines) && OneLineValues(urlMap)
    requires forall k :: k in urlMap ==> Trim(urlMap[k]) !in urlMap
    ensures var once := GenerateModifiedPlaylist(lines, urlMap);
      GenerateModifiedPlaylist(Split(once, '\n'), urlMap) == once
  {
    var r := RewriteLines(lines, urlMap);
    RewrittenOneLineEach(lines, urlMap);
    SplitJoin(r, '\n');
    RewrittenUnmapped(lines, urlMap);
    UnmappedUnchanged(r, urlMap);
  }

  /** When no mapped URL is a key, no rewritten line is a key either. */
  lemma RewrittenUnmapped(lines: seq<string>, urlMap: map<string, string>)
    requires forall k :: k in urlMap ==> Trim(urlMap[k]) !in urlMap
    ensures forall i :: 0 <= i < |lines| ==> Trim(RewriteLines(lines, urlMap)[i]) !in urlMap
  {
    var r := RewriteLines(lines, urlMap);
    forall i | 0 <= i < |lines| ensures Trim(r[i]) !in urlMap {
      var t := Trim(lines[i]);
      if t in urlMap {
        assert r[i] == urlMap[t];
      } else {
        assert r[i] == lines[i];
      }
    }
  }

  /** Lines none of which is a key are left as they are. */
  lemma UnmappedUnchanged(lines: seq<string>, urlMap: map<string, string>)
    requires forall i :: 0 <= i < |lines| ==> Trim(lines[i]) !in urlMap
    ensures RewriteLines(lines, urlMap) == lines
  {
    var r := RewriteLines(lines, urlMap);
    assert forall i :: 0 <= i < |lines| ==> r[i] == RewriteLine(lines[i], urlMap) == lines[i];
  }
}
