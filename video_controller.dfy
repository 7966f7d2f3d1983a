/** src/controllers/video.controller.js: the pure parts of `processAndUploadHLS` (predicted
    URLs, segment selection, public ids, the name-to-URL map, the published variant playlist)
    and the order of the effects of both handlers. */
module VideoController {

  import opened Errors
  import opened Text
  import opened Host
  import opened FileHandler
  import opened Ffmpeg
  import Multer

  /** `CLOUDINARY_CLOUD_NAME` and `CLOUDINARY_FOLDER_NAME`. */
  datatype Config = Config(cloudName: string, folder: string)

  /** What a handler passes to `next`, if anything. */
  datatype Outcome = Done | Forwarded(error: ApiError)

  function BaseUrl(cfg: Config): string {
    "https://res.cloudinary.com/" + cfg.cloudName + "/raw/upload"
  }

  /** `videoPathCloud`: the Cloudinary folder of one video. */
  function VideoPathCloud(cfg: Config, videoId: string): string {
    cfg.folder + "/" + videoId
  }

  /** The Cloudinary folder of variant `i` of a video. */
  function VariantFolder(cfg: Config, videoId: string, i: nat): string {
    VideoPathCloud(cfg, videoId) + "/" + StreamName(i)
  }

  const Qualities: seq<string> := ["360p", "480p", "720p"]

  function MasterUrl(cfg: Config, videoId: string): string {
    BaseUrl(cfg) + "/" + VideoPathCloud(cfg, videoId) + "/" + "master.m3u8"
  }

  function VariantUrl(cfg: Config, videoId: string, i: nat): string {
    BaseUrl(cfg) + "/" + VideoPathCloud(cfg, videoId) + "/" + StreamName(i) + "/index.m3u8"
  }

  /** The body of the 200 response, sent before any transcoding. */
  function AcceptedReply(cfg: Config, videoId: string): Reply {
    HlsAccepted("HLS video will be processed and uploaded shortly",
                MasterUrl(cfg, videoId),
                [(Qualities[0], VariantUrl(cfg, videoId, 0)),
                 (Qualities[1], VariantUrl(cfg, videoId, 1)),
                 (Qualities[2], VariantUrl(cfg, videoId, 2))],
                videoId, VideoPathCloud(cfg, videoId))
  }

  /** The asset `public_id: "index"` of variant `i` becomes. */
  function IndexKey(cfg: Config, videoId: string, i: nat): AssetKey {
    AssetKey(Raw, RemoteId(VariantFolder(cfg, videoId, i), "index"))
  }

  /** The asset `public_id: "master"` becomes. */
  function MasterKey(cfg: Config, videoId: string): AssetKey {
    AssetKey(Raw, RemoteId(VideoPathCloud(cfg, videoId), "master"))
  }

  /** The URLs in the response are predicted, not taken from Cloudinary: each is the base URL
      followed by the public id its playlist is uploaded under and `.m3u8`, listed 360p, 480p,
      720p for `stream_0`..`stream_2`. */
  lemma PredictedUrls(cfg: Config, videoId: string)
    ensures var reply := AcceptedReply(cfg, videoId);
      && reply.masterUrl == BaseUrl(cfg) + "/" + MasterKey(cfg, videoId).publicId + ".m3u8"
      && |reply.variantUrls| == 3
      && (forall i :: 0 <= i < 3 ==>
            reply.variantUrls[i] == (Qualities[i], BaseUrl(cfg) + "/" + IndexKey(cfg, videoId, i).publicId + ".m3u8"))
      && reply.videoId == videoId && reply.videoPath == cfg.folder + "/" + videoId
  {
    var x, p := BaseUrl(cfg) + "/", VideoPathCloud(cfg, videoId);
    UrlOfPublicId(x, p, "master", ".m3u8");
    assert "master.m3u8" == "master" + ".m3u8";
    forall i | 0 <= i < 3
      ensures VariantUrl(cfg, videoId, i) == BaseUrl(cfg) + "/" + IndexKey(cfg, videoId, i).publicId + ".m3u8"
    {
      UrlOfPublicId(x, p + "/" + StreamName(i), "index", ".m3u8");
      assert "/index.m3u8" == "/" + ("index" + ".m3u8");
      UrlOfPublicId(x, p, StreamName(i), "/index.m3u8");
    }
  }

  lemma UrlOfPublicId(x: string, folder: string, name: string, ext: string)
    ensures x + folder + "/" + (name + ext) == x + (folder + "/" + name) + ext
  {
  }

  /** `line.trim().endsWith(".ts")`: the lines whose segments are uploaded. */
  predicate IsSegmentLine(line: string) {
    EndsWith(Trim(line), ".ts")
  }

  /** `lines.filter(...)`: the segment lines, in playlist order. */
  function SegmentLines(lines: seq<string>): (segs: seq<string>)
    ensures |segs| <= |lines|
    ensures forall l :: l in segs <==> l in lines && IsSegmentLine(l)
  {
    if |lines| == 0 then []
    else (if IsSegmentLine(lines[0]) then [lines[0]] else []) + SegmentLines(lines[1..])
  }

  /** `segmentFile.replace(".ts", "")`: the name with its first `.ts` removed. */
  function PublicId(segmentFile: string): string {
    ReplaceFirst(segmentFile, ".ts", "")
  }

  /** The public id `name.ts` gets when its name has no earlier dot: the name without `.ts`. */
  lemma PublicIdOfPlainName(stem: string)
    requires forall j :: 0 <= j < |stem| ==> stem[j] != '.'
    ensures PublicId(stem + ".ts") == stem
  {
    ReplaceFirstAtEnd(stem, ".ts");
  }

  /** The public id is taken at the FIRST `.ts`, wherever it is. */
  lemma PublicIdAtFirstOccurrence()
    ensures PublicId("a.tsb.ts") == "ab.ts"
  {
    ReplaceFirstAfter("a", ".ts", "b.ts", "");
    assert "a" + ".ts" + "b.ts" == "a.tsb.ts";
  }

  /** Every segment ffmpeg names is selected, and its public id is its stem. */
  lemma GeneratedSegmentUploaded(n: nat)
    ensures IsSegmentLine(SegmentName(n))
    ensures PublicId(SegmentName(n)) == SegmentStem(n)
  {
    SegmentNameSelected(n);
    TrimOfTrimmed(SegmentName(n));
  }

  /** The asset the segment file `name` of variant `i` is uploaded as. */
  function SegmentKey(cfg: Config, videoId: string, i: nat, name: string): AssetKey {
    AssetKey(Video, RemoteId(VariantFolder(cfg, videoId, i), PublicId(name)))
  }

  /** The URL of a segment's asset, as a function of its file name. */
  function SegmentUrls(secureUrl: AssetKey -> string, cfg: Config, videoId: string, i: nat): string -> string {
    name => secureUrl(SegmentKey(cfg, videoId, i, name))
  }

  /** `uploadResults`: for each segment line, its trimmed name and the URL of that file. */
  function SegmentResults(urlOf: string -> string, segs: seq<string>): (r: seq<(string, string)>)
    ensures |r| == |segs|
    ensures forall j :: 0 <= j < |segs| ==> r[j] == (Trim(segs[j]), urlOf(Trim(segs[j])))
  {
    seq(|segs|, j requires 0 <= j < |segs| => (Trim(segs[j]), urlOf(Trim(segs[j]))))
  }

  /** No later pair has the same name as pair `j`. */
  predicate LastWith(pairs: seq<(string, string)>, j: int)
    requires 0 <= j < |pairs|
  {
    forall l :: j < l < |pairs| ==> pairs[l].0 != pairs[j].0
  }

  /** `new Map(pairs)`: its keys are the names of the pairs (`LastPairWins` says which value
      a repeated name keeps). */
  function UrlMap(pairs: seq<(string, string)>): (m: map<string, string>)
    ensures forall k :: k in m <==> exists j :: 0 <= j < |pairs| && pairs[j].0 == k
  {
    if |pairs| == 0 then map[]
    else
      var last := pairs[|pairs| - 1];
      var front := pairs[..|pairs| - 1];
      assert forall j :: 0 <= j < |front| ==> front[j] == pairs[j];
      UrlMap(front)[last.0 := last.1]
  }

  /** The keys of a variant's urlMap are the trimmed names of its segment lines: every such
      name is a key, and every key ends in `.ts`. */
  lemma UrlMapKeys(urlOf: string -> string, lines: seq<string>)
    ensures var m := UrlMap(SegmentResults(urlOf, SegmentLines(lines)));
      && (forall l :: l in lines && IsSegmentLine(l) ==> Trim(l) in m)
      && (forall k :: k in m ==> EndsWith(k, ".ts"))
  {
    SegmentNamesAreKeys(urlOf, SegmentLines(lines));
    KeysAreSegmentNames(urlOf, SegmentLines(lines));
  }

  lemma SegmentNamesAreKeys(urlOf: string -> string, segs: seq<string>)
    ensures forall l :: l in segs ==> Trim(l) in UrlMap(SegmentResults(urlOf, segs))
  {
    var pairs := SegmentResults(urlOf, segs);
    forall l | l in segs ensures Trim(l) in UrlMap(pairs) {
      var j :| 0 <= j < |segs| && segs[j] == l;
      assert pairs[j].0 == Trim(l);
    }
  }

  lemma KeysAreSegmentNames(urlOf: string -> string, segs: seq<string>)
    ensures forall k :: k in UrlMap(SegmentResults(urlOf, segs)) ==> exists l :: l in segs && k == Trim(l)
  {
    var pairs := SegmentResults(urlOf, segs);
    forall k | k in UrlMap(pairs) ensures exists l :: l in segs && k == Trim(l) {
      var j :| 0 <= j < |pairs| && pairs[j].0 == k;
      assert segs[j] in segs;
    }
  }

  /** When every pair maps its name through one function, so does the map built from them. */
  lemma {:induction false} UrlMapOfFunction(pairs: seq<(string, string)>, urlOf: string -> string)
    requires forall j :: 0 <= j < |pairs| ==> pairs[j].1 == urlOf(pairs[j].0)
    ensures forall k :: k in UrlMap(pairs) ==> UrlMap(pairs)[k] == urlOf(k)
  {
    var m := UrlMap(pairs);
    forall k | k in m ensures m[k] == urlOf(k) {
      var j :| 0 <= j < |pairs| && pairs[j].0 == k;
      var last := LastIndexWith(pairs, j);
      LastPairWins(pairs, last);
    }
  }

  /** Each key of a variant's urlMap is mapped to the URL of that segment file. */
  lemma UrlMapValues(urlOf: string -> string, segs: seq<string>)
    ensures var m := UrlMap(SegmentResults(urlOf, segs));
      forall k :: k in m ==> m[k] == urlOf(k)
  {
    UrlMapOfFunction(SegmentResults(urlOf, segs), urlOf);
  }

  /** For a repeated name, the map keeps the value of the last pair with that name. */
  lemma {:induction false} LastPairWins(pairs: seq<(string, string)>, j: int)
    requires 0 <= j < |pairs| && LastWith(pairs, j)
    ensures pairs[j].0 in UrlMap(pairs) && UrlMap(pairs)[pairs[j].0] == pairs[j].1
    decreases |pairs|
  {
    var n := |pairs| - 1;
    var front := pairs[..n];
    if j < n {
      assert pairs[n].0 != pairs[j].0;
      assert front[j] == pairs[j];
      assert LastWith(front, j) by {
        forall l | j < l < |front| ensures front[l].0 != front[j].0 {
          assert front[l] == pairs[l];
        }
      }
      LastPairWins(front, j);
    }
  }

  /** The last pair at or after `j` with the same name as pair `j`. */
  lemma LastIndexWith(pairs: seq<(string, string)>, j: int) returns (last: int)
    requires 0 <= j < |pairs|
    ensures j <= last < |pairs| && pairs[last].0 == pairs[j].0 && LastWith(pairs, last)
    decreases |pairs| - j
  {
    if LastWith(pairs, j) {
      last := j;
    } else {
      var l :| j < l < |pairs| && pairs[l].0 == pairs[j].0;
      last := LastIndexWith(pairs, l);
    }
  }

  /** Within a variant, every segment line is replaced by the URL of its segment's asset and
      every other line is left as it is. */
  lemma SelectedLinesReplaced(urlOf: string -> string, lines: seq<string>)
    ensures var m := UrlMap(SegmentResults(urlOf, SegmentLines(lines)));
      forall k :: 0 <= k < |lines| ==>
        RewriteLine(lines[k], m) ==
          (if IsSegmentLine(lines[k]) then urlOf(Trim(lines[k])) else lines[k])
  {
    UrlMapKeys(urlOf, lines);
    UrlMapValues(urlOf, SegmentLines(lines));
  }

  /** The local path of the playlist ffmpeg writes for variant `i`, relative to the job's
      directory. */
  function PlaylistPath(i: nat): seq<string> {
    [StreamName(i), "prog_index.m3u8"]
  }

  /** The local path the rewritten playlist of variant `i` is written to. */
  function ModifiedPath(i: nat): seq<string> {
    [StreamName(i), "modified.m3u8"]
  }

  /** The playlist published for variant `i`, given the text ffmpeg wrote. */
  function VariantPlaylist(urlOf: string -> string, content: string): string
  {
    var lines := Split(content, '\n');
    GenerateModifiedPlaylist(lines, UrlMap(SegmentResults(urlOf, SegmentLines(lines))))
  }

  /** The published variant playlist, read back line by line, has the lines of the playlist
      ffmpeg wrote, in order: each segment line replaced by its segment's URL, every other
      line (tags, blank lines) unchanged. */
  lemma VariantPlaylistLines(urlOf: string -> string, content: string)
    requires forall name :: Free(urlOf(name), '\n')
    ensures var lines := Split(content, '\n');
      var out := Split(VariantPlaylist(urlOf, content), '\n');
      && |out| == |lines|
      && (forall k :: 0 <= k < |lines| && IsSegmentLine(lines[k]) ==> out[k] == urlOf(Trim(lines[k])))
      && (forall k :: 0 <= k < |lines| && !IsSegmentLine(lines[k]) ==> out[k] == lines[k])
  {
    var lines := Split(content, '\n');
    var m := UrlMap(SegmentResults(urlOf, SegmentLines(lines)));
    var out := Split(VariantPlaylist(urlOf, content), '\n');
    assert out == RewriteLines(lines, m) by {
      VariantPlaylistSplit(urlOf, content);
    }
    forall k | 0 <= k < |lines|
      ensures out[k] == (if IsSegmentLine(lines[k]) then urlOf(Trim(lines[k])) else lines[k])
    {
      assert out[k] == RewriteLine(lines[k], m);
      SelectedLinesReplaced(urlOf, lines);
    }
  }

  /** Splitting the published playlist gives back the rewritten lines. */
  lemma VariantPlaylistSplit(urlOf: string -> string, content: string)
    requires forall name :: Free(urlOf(name), '\n')
    ensures var lines := Split(content, '\n');
      Split(VariantPlaylist(urlOf, content), '\n') == RewriteLines(lines, UrlMap(SegmentResults(urlOf, SegmentLines(lines))))
  {
    var lines := Split(content, '\n');
    var m := UrlMap(SegmentResults(urlOf, SegmentLines(lines)));
    var r := RewriteLines(lines, m);
    assert OneLineEach(r) && |r| >= 1 by {
      UrlMapValues(urlOf, SegmentLines(lines));
      RewrittenOneLineEach(lines, m);
    }
    SplitJoin(r, '\n');
  }

  /** `variantPlaylists` after the loop, as `createMasterPlaylist` reads it. */
  function PlaylistUrls(secureUrl: AssetKey -> string, cfg: Config, videoId: string): map<string, string> {
    map["stream_0" := secureUrl(IndexKey(cfg, videoId, 0)),
        "stream_1" := secureUrl(IndexKey(cfg, videoId, 1)),
        "stream_2" := secureUrl(IndexKey(cfg, videoId, 2))]
  }

  // ---------------------------------------------------------------------------------------
  // The order of effects.

  /** The stage of a variant directory name: 3, 4, 5 for `stream_0`..`stream_2`. */
  function VariantStage(name: string): Option<nat> {
    if name == "stream_0" then Some(3)
    else if name == "stream_1" then Some(4)
    else if name == "stream_2" then Some(5)
    else None
  }

  /** The stage of a Cloudinary folder under the video's folder `cloudPath`. */
  function FolderStage(folder: string, cloudPath: string): Option<nat> {
    if folder == cloudPath then Some(6)
    else if |folder| > |cloudPath| + 1 && folder[..|cloudPath| + 1] == cloudPath + "/"
    then VariantStage(folder[|cloudPath| + 1..])
    else None
  }

  /** Where an effect of `processAndUploadHLS` belongs in its intended order: the workspace
      directory (0), the response (1), the transcoding (2), the files and uploads of variant
      `i` (3 + i), the master playlist (6). Sweeps have no stage: they may come anywhere. */
  function Stage(e: Effect, cloudPath: string): Option<nat> {
    match e
    case Removed(_) => None
    case MadeDir(_) => Some(0)
    case Responded(_, _) => Some(1)
    case Transcoded(_, _) => Some(2)
    case Read(_, rel) => if |rel| == 2 then VariantStage(rel[0]) else None
    case Wrote(_, rel) =>
      if rel == ["master.m3u8"] then Some(6) else if |rel| == 2 then VariantStage(rel[0]) else None
    case Uploaded(_, folder, _) => FolderStage(folder, cloudPath)
    case DeletedByPrefix(_, _) => None
    case DeletedFolder(_) => None
  }

  /** From position `start` on, the staged effects of `log` come in stage order. */
  predicate OrderedFrom(log: seq<Effect>, start: nat, cloudPath: string) {
    forall a, b :: start <= a < b < |log| && Stage(log[a], cloudPath).Some? && Stage(log[b], cloudPath).Some? ==>
      Stage(log[a], cloudPath).value <= Stage(log[b], cloudPath).value
  }

  /** From position `start` on, every staged effect of `log` has a stage in `lo..hi`. */
  predicate StagesWithin(log: seq<Effect>, start: nat, cloudPath: string, lo: nat, hi: nat) {
    forall a :: start <= a < |log| && Stage(log[a], cloudPath).Some? ==>
      lo <= Stage(log[a], cloudPath).value <= hi
  }

  /** `log` extends `before`. */
  predicate Grows(before: seq<Effect>, log: seq<Effect>) {
    |before| <= |log| && log[..|before|] == before
  }

  lemma GrowsTransitive(a: seq<Effect>, b: seq<Effect>, c: seq<Effect>)
    requires Grows(a, b) && Grows(b, c)
    ensures Grows(a, c)
  {
    assert c[..|a|] == c[..|b|][..|a|];
  }

  /** Appending effects grows a log. */
  lemma GrowsByAppend(log: seq<Effect>, tail: seq<Effect>)
    ensures Grows(log, log + tail)
  {
    assert (log + tail)[..|log|] == log;
  }

  /** Two ordered runs, the second at stages no lower than the first, make an ordered run. */
  lemma Chain(log1: seq<Effect>, log2: seq<Effect>, start: nat, cloudPath: string,
              lo: nat, mid: nat, next: nat, hi: nat)
    requires start <= |log1| && Grows(log1, log2) && mid <= next && lo <= next && mid <= hi
    requires OrderedFrom(log1, start, cloudPath) && StagesWithin(log1, start, cloudPath, lo, mid)
    requires OrderedFrom(log2, |log1|, cloudPath) && StagesWithin(log2, |log1|, cloudPath, next, hi)
    ensures OrderedFrom(log2, start, cloudPath) && StagesWithin(log2, start, cloudPath, lo, hi)
  {
    forall a | start <= a < |log1| ensures log2[a] == log1[a] {
      assert log2[a] == log2[..|log1|][a];
    }
  }

  /** A run whose staged effects all share one stage is ordered. */
  lemma Uniform(log: seq<Effect>, start: nat, cloudPath: string, k: nat)
    requires StagesWithin(log, start, cloudPath, k, k)
    ensures OrderedFrom(log, start, cloudPath)
  {
  }

  /** Sweeps are unstaged. */
  lemma RemovalsUnstaged(log: seq<Effect>, start: nat, cloudPath: string, lo: nat, hi: nat)
    requires start <= |log| && Removals(log[start..])
    ensures OrderedFrom(log, start, cloudPath) && StagesWithin(log, start, cloudPath, lo, hi)
  {
    forall a | start <= a < |log| ensures Stage(log[a], cloudPath).None? {
      assert log[start..][a - start] == log[a];
    }
  }

  /** The files and uploads of variant `i` are at stage `3 + i`. */
  lemma VariantStages(cfg: Config, videoId: string, i: nat)
    requires i < 3
    ensures VariantStage(StreamName(i)) == Some(3 + i)
    ensures FolderStage(VariantFolder(cfg, videoId, i), VideoPathCloud(cfg, videoId)) == Some(3 + i)
  {
    StreamNames();
    var cp := VideoPathCloud(cfg, videoId);
    var f := VariantFolder(cfg, videoId, i);
    assert f == (cp + "/") + StreamName(i);
    assert f[..|cp| + 1] == cp + "/" && f[|cp| + 1..] == StreamName(i);
  }

  /** The master playlist's upload is at stage 6. */
  lemma MasterStage(cfg: Config, videoId: string)
    ensures FolderStage(VideoPathCloud(cfg, videoId), VideoPathCloud(cfg, videoId)) == Some(6)
  {
  }

  // ---------------------------------------------------------------------------------------
  // processAndUploadHLS.

  /** One call of `uploadVideoSegment`: the file's path under the job directory and the
      public id it is stored under. */
  datatype Job = Job(rel: seq<string>, publicId: string)

  /** The uploads the segment lines of variant `i` ask for, in line order. */
  function SegmentJobs(i: nat, segs: seq<string>): (jobs: seq<Job>)
    ensures |jobs| == |segs|
    ensures forall j :: 0 <= j < |segs| ==>
      jobs[j] == Job([StreamName(i), Trim(segs[j])], PublicId(Trim(segs[j])))
  {
    seq(|segs|, j requires 0 <= j < |segs| => Job([StreamName(i), Trim(segs[j])], PublicId(Trim(segs[j]))))
  }

  /** Whether a job can succeed: its file exists and Cloudinary accepts the call. */
  predicate JobOk(entries: map<string, Entry>, refused: map<CloudCall, Option<int>>,
                  dir: string, folder: string, job: Job)
  {
    FileAt(entries, dir, job.rel).Some? && UploadCall(Video, folder, job.publicId) !in refused
  }

  /** Among the first `n` jobs, none after job `j` has the same public id. */
  predicate LastJob(jobs: seq<Job>, n: nat, j: int)
    requires 0 <= j < n <= |jobs|
  {
    forall l :: j < l < n ==> jobs[l].publicId != jobs[j].publicId
  }

  /** After the first `n` jobs ran in order, the asset of each job that is the last with its
      public id holds that job's file: later uploads overwrite earlier ones. */
  predicate AllStored(assets: map<AssetKey, string>, entries: map<string, Entry>,
                      dir: string, folder: string, jobs: seq<Job>, n: nat)
    requires n <= |jobs|
  {
    forall j :: 0 <= j < n && LastJob(jobs, n, j) ==>
      var key := AssetKey(Video, RemoteId(folder, jobs[j].publicId));
      var file := FileAt(entries, dir, jobs[j].rel);
      key in assets && file.Some? && assets[key] == file.value
  }

  lemma {:induction false} AllStoredStep(assets: map<AssetKey, string>, entries: map<string, Entry>,
                                         dir: string, folder: string, jobs: seq<Job>, n: nat)
    requires n < |jobs| && AllStored(assets, entries, dir, folder, jobs, n)
    requires FileAt(entries, dir, jobs[n].rel).Some?
    ensures var key := AssetKey(Video, RemoteId(folder, jobs[n].publicId));
      AllStored(assets[key := FileAt(entries, dir, jobs[n].rel).value], entries, dir, folder, jobs, n + 1)
  {
    var key := AssetKey(Video, RemoteId(folder, jobs[n].publicId));
    var a := assets[key := FileAt(entries, dir, jobs[n].rel).value];
    forall j | 0 <= j < n + 1 && LastJob(jobs, n + 1, j)
      ensures var k := AssetKey(Video, RemoteId(folder, jobs[j].publicId));
        k in a && FileAt(entries, dir, jobs[j].rel).Some? && a[k] == FileAt(entries, dir, jobs[j].rel).value
    {
      if j < n {
        assert jobs[n].publicId != jobs[j].publicId;
        assert LastJob(jobs, n, j);
        assert RemoteId(folder, jobs[n].publicId) != RemoteId(folder, jobs[j].publicId) by {
          RemoteIdInjective(folder, jobs[n].publicId, jobs[j].publicId);
        }
      }
    }
  }

  /** Within one folder, the public id determines the asset. */
  lemma RemoteIdInjective(folder: string, p: string, q: string)
    ensures RemoteId(folder, p) == RemoteId(folder, q) ==> p == q
  {
    if RemoteId(folder, p) == RemoteId(folder, q) {
      assert p == RemoteId(folder, p)[|folder| + 1..];
      assert q == RemoteId(folder, q)[|folder| + 1..];
    }
  }

  /** Whether `key` is a video asset inside `folder`. */
  predicate InFolder(key: AssetKey, folder: string) {
    key.kind == Video && StartsWith(key.publicId, folder + "/")
  }

  /** A video asset stored under `folder` is inside it. */
  lemma RemoteIdInFolder(folder: string, p: string)
    ensures InFolder(AssetKey(Video, RemoteId(folder, p)), folder)
  {
    assert RemoteId(folder, p)[..|folder| + 1] == folder + "/";
  }

  /** The `Promise.all` of a variant's segment uploads, taken one upload at a time in line
      order and stopping at the first failure: each job's file is stored as a video asset
      under `folder/publicId`, and on success the `secure_url`s come back in job order. */
  method UploadAll(h: Host, dir: string, folder: string, jobs: seq<Job>)
    returns (r: Result<seq<string>, ApiError>)
    modifies h
    ensures h.rootExists == old(h.rootExists) && h.entries == old(h.entries)
    ensures Grows(old(h.log), h.log)
    ensures forall a :: |old(h.log)| <= a < |h.log| ==>
      h.log[a].Uploaded? && h.log[a].kind == Video && h.log[a].folder == folder
    ensures old(h.assets).Keys <= h.assets.Keys
    ensures forall key :: key in old(h.assets) && !InFolder(key, folder) ==> h.assets[key] == old(h.assets)[key]
    ensures r.Success? <==> forall j :: 0 <= j < |jobs| ==> JobOk(h.entries, h.refused, dir, folder, jobs[j])
    ensures r.Success? ==> |r.value| == |jobs|
    ensures r.Success? ==> forall j :: 0 <= j < |jobs| ==> r.value[j] == h.secureUrl(AssetKey(Video, RemoteId(folder, jobs[j].publicId)))
    ensures r.Success? ==> AllStored(h.assets, h.entries, dir, folder, jobs, |jobs|)
  {
    ghost var entries := h.entries;
    var urls: seq<string> := [];
    var k := 0;
    while k < |jobs|
      invariant 0 <= k <= |jobs|
      invariant h.rootExists == old(h.rootExists) && h.entries == entries
      invariant Grows(old(h.log), h.log)
      invariant forall a :: |old(h.log)| <= a < |h.log| ==>
        h.log[a].Uploaded? && h.log[a].kind == Video && h.log[a].folder == folder
      invariant old(h.assets).Keys <= h.assets.Keys
      invariant forall key :: key in old(h.assets) && !InFolder(key, folder) ==> h.assets[key] == old(h.assets)[key]
      invariant forall j :: 0 <= j < k ==> JobOk(entries, h.refused, dir, folder, jobs[j])
      invariant |urls| == k
      invariant forall j :: 0 <= j < k ==> urls[j] == h.secureUrl(AssetKey(Video, RemoteId(folder, jobs[j].publicId)))
      invariant AllStored(h.assets, entries, dir, folder, jobs, k)
    {
      ghost var before := h.log;
      ghost var assets0 := h.assets;
      var url := UploadVideoSegment(h, dir, jobs[k].rel, folder, jobs[k].publicId);
      RemoteIdInFolder(folder, jobs[k].publicId);
      GrowsTransitive(old(h.log), before, h.log);
      if url.Failure? {
        assert !JobOk(entries, h.refused, dir, folder, jobs[k]);
        return Failure(url.error);
      }
      AllStoredStep(assets0, entries, dir, folder, jobs, k);
      urls := urls + [url.value];
      k := k + 1;
    }
    r := Success(urls);
  }

  /** `uploadResults`, from the URLs the uploads returned. */
  function Pairs(segs: seq<string>, urls: seq<string>): (r: seq<(string, string)>)
    requires |urls| == |segs|
    ensures |r| == |segs| && forall j :: 0 <= j < |segs| ==> r[j] == (Trim(segs[j]), urls[j])
  {
    seq(|segs|, j requires 0 <= j < |segs| => (Trim(segs[j]), urls[j]))
  }

  /** The index playlists of the three variants, and the master playlist, are distinct assets. */
  lemma PlaylistKeysDistinct(cfg: Config, videoId: string, i: nat, j: nat)
    requires i < 3 && j < 3
    ensures i != j ==> IndexKey(cfg, videoId, i) != IndexKey(cfg, videoId, j)
    ensures MasterKey(cfg, videoId) != IndexKey(cfg, videoId, i)
  {
    StreamNames();
    var cp := VideoPathCloud(cfg, videoId);
    var a := IndexKey(cfg, videoId, i).publicId;
    var b := IndexKey(cfg, videoId, j).publicId;
    assert a == (cp + "/") + StreamName(i) + "/index";
    assert b == (cp + "/") + StreamName(j) + "/index";
    assert a[|cp| + 8] == StreamName(i)[7];
    assert b[|cp| + 8] == StreamName(j)[7];
    assert |MasterKey(cfg, videoId).publicId| == |cp| + 7;
  }

  /** The uploads the segment lines of variant `i`'s playlist `content` ask for. */
  function VariantJobs(i: nat, content: string): seq<Job> {
    SegmentJobs(i, SegmentLines(Split(content, '\n')))
  }

  /** Every segment the playlist `content` of variant `i` names is stored as a video asset of
      the variant's folder, holding the file of that name under the job directory of
      `entries` (of segments sharing a public id, the last one's file). */
  predicate SegmentsStored(assets: map<AssetKey, string>, entries: map<string, Entry>,
                           cfg: Config, videoId: string, i: nat, content: string)
  {
    var jobs := VariantJobs(i, content);
    AllStored(assets, entries, videoId, VariantFolder(cfg, videoId, i), jobs, |jobs|)
  }

  /** Variant `i` is on Cloudinary: its segments are stored and its index playlist holds the
      published form of the playlist ffmpeg wrote at `entries`. */
  predicate Published(assets: map<AssetKey, string>, entries: map<string, Entry>,
                      secureUrl: AssetKey -> string, cfg: Config, videoId: string, i: nat)
  {
    var playlist := FileAt(entries, videoId, PlaylistPath(i));
    var key := IndexKey(cfg, videoId, i);
    playlist.Some? && key in assets &&
    assets[key] == VariantPlaylist(SegmentUrls(secureUrl, cfg, videoId, i), playlist.value) &&
    SegmentsStored(assets, entries, cfg, videoId, i, playlist.value)
  }

  /** In a published variant, the URL that replaces a segment line (see
      `VariantPlaylistLines`) names a video asset holding the file of that segment, unless a
      later segment line shares its public id (ffmpeg's own names never do). */
  lemma PublishedSegmentHolds(assets: map<AssetKey, string>, entries: map<string, Entry>,
                              secureUrl: AssetKey -> string, cfg: Config, videoId: string, i: nat, j: nat)
    requires Published(assets, entries, secureUrl, cfg, videoId, i)
    requires var segs := SegmentLines(Split(FileAt(entries, videoId, PlaylistPath(i)).value, '\n'));
      && j < |segs|
      && forall l :: j < l < |segs| ==> PublicId(Trim(segs[l])) != PublicId(Trim(segs[j]))
    ensures var segs := SegmentLines(Split(FileAt(entries, videoId, PlaylistPath(i)).value, '\n'));
      var key := SegmentKey(cfg, videoId, i, Trim(segs[j]));
      key in assets && FileAt(entries, videoId, [StreamName(i), Trim(segs[j])]) == Some(assets[key])
  {
    var segs := SegmentLines(Split(FileAt(entries, videoId, PlaylistPath(i)).value, '\n'));
    var jobs := SegmentJobs(i, segs);
    assert LastJob(jobs, |jobs|, j);
  }

  /** Segment assets stay stored while the assets of their folder are left alone. */
  lemma AllStoredFrame(before: map<AssetKey, string>, after: map<AssetKey, string>, entries: map<string, Entry>,
                       dir: string, folder: string, jobs: seq<Job>, n: nat)
    requires n <= |jobs| && AllStored(before, entries, dir, folder, jobs, n)
    requires forall k :: k in before && InFolder(k, folder) ==> k in after && after[k] == before[k]
    ensures AllStored(after, entries, dir, folder, jobs, n)
  {
    forall j | 0 <= j < n && LastJob(jobs, n, j)
      ensures AssetKey(Video, RemoteId(folder, jobs[j].publicId)) in after
    {
      RemoteIdInFolder(folder, jobs[j].publicId);
    }
  }

  /** The folders of two different variants share no asset. */
  lemma VariantFoldersDisjoint(cfg: Config, videoId: string, i: nat, j: nat, key: AssetKey)
    requires i < 3 && j < 3 && i != j
    ensures !(InFolder(key, VariantFolder(cfg, videoId, i)) && InFolder(key, VariantFolder(cfg, videoId, j)))
  {
    StreamNames();
    var cp := VideoPathCloud(cfg, videoId);
    var a, b := VariantFolder(cfg, videoId, i) + "/", VariantFolder(cfg, videoId, j) + "/";
    assert a == (cp + "/") + StreamName(i) + "/" && b == (cp + "/") + StreamName(j) + "/";
    assert a[|cp| + 8] != b[|cp| + 8];
    var s := key.publicId;
    if StartsWith(s, a) {
      assert s[|cp| + 8] == a[|cp| + 8];
      assert s[..|b|][|cp| + 8] != b[|cp| + 8];
    }
  }

  /** An effect of the pass for variant `i`: reading its playlist, writing its rewritten
      playlist, or an upload into its folder. */
  predicate VariantEffect(e: Effect, cfg: Config, videoId: string, i: nat) {
    e == Read(videoId, PlaylistPath(i)) || e == Wrote(videoId, ModifiedPath(i)) ||
    (e.Uploaded? && e.folder == VariantFolder(cfg, videoId, i))
  }

  /** Every effect of `log` from `start` on belongs to the pass for variant `i`. */
  predicate VariantEffects(log: seq<Effect>, start: nat, cfg: Config, videoId: string, i: nat) {
    forall a :: start <= a < |log| ==> VariantEffect(log[a], cfg, videoId, i)
  }

  /** Two runs of effects of the pass for variant `i` make one. */
  lemma VariantEffectsJoin(log1: seq<Effect>, log2: seq<Effect>, start: nat, cfg: Config, videoId: string, i: nat)
    requires start <= |log1| && Grows(log1, log2)
    requires VariantEffects(log1, start, cfg, videoId, i) && VariantEffects(log2, |log1|, cfg, videoId, i)
    ensures VariantEffects(log2, start, cfg, videoId, i)
  {
    forall a | start <= a < |log1| ensures log2[a] == log1[a] {
      assert log2[a] == log2[..|log1|][a];
    }
  }

  /** The middle of a variant pass: upload the segments the playlist `content` names and
      rewrite it with their URLs; on success, the published form of the playlist. */
  method UploadAndRewrite(h: Host, cfg: Config, videoId: string, i: nat, content: string)
    returns (r: Result<string, ApiError>)
    modifies h
    ensures h.rootExists == old(h.rootExists) && h.entries == old(h.entries)
    ensures Grows(old(h.log), h.log)
    ensures VariantEffects(h.log, |old(h.log)|, cfg, videoId, i)
    ensures forall k :: k in old(h.assets) && !InFolder(k, VariantFolder(cfg, videoId, i)) ==>
      k in h.assets && h.assets[k] == old(h.assets)[k]
    ensures r.Success? ==> r.value == VariantPlaylist(SegmentUrls(h.secureUrl, cfg, videoId, i), content)
    ensures r.Success? ==> SegmentsStored(h.assets, h.entries, cfg, videoId, i, content)
  {
    var lines := Split(content, '\n');
    var segs := SegmentLines(lines);
    var uploads := UploadAll(h, videoId, VariantFolder(cfg, videoId, i), SegmentJobs(i, segs));
    if uploads.Failure? {
      return Failure(uploads.error);
    }
    var results := Pairs(segs, uploads.value);
    UploadedResults(h.secureUrl, cfg, videoId, i, segs, uploads.value);
    r := Success(GenerateModifiedPlaylist(lines, UrlMap(results)));
  }

  /** The URLs the segment jobs return, paired with the trimmed lines, are `uploadResults`. */
  lemma UploadedResults(secureUrl: AssetKey -> string, cfg: Config, videoId: string, i: nat,
                        segs: seq<string>, urls: seq<string>)
    requires |urls| == |segs|
    requires forall j :: 0 <= j < |segs| ==>
      urls[j] == secureUrl(AssetKey(Video, RemoteId(VariantFolder(cfg, videoId, i), SegmentJobs(i, segs)[j].publicId)))
    ensures Pairs(segs, urls) == SegmentResults(SegmentUrls(secureUrl, cfg, videoId, i), segs)
  {
    var urlOf := SegmentUrls(secureUrl, cfg, videoId, i);
    forall j | 0 <= j < |segs| ensures urls[j] == urlOf(Trim(segs[j])) {
      var name := Trim(segs[j]);
      assert SegmentJobs(i, segs)[j].publicId == PublicId(name);
      assert urlOf(name) == secureUrl(SegmentKey(cfg, videoId, i, name));
    }
    PairsOfFunction(segs, urls, urlOf);
  }

  /** Pairing each trimmed line with `urlOf` of it, in order, is `SegmentResults`. */
  lemma PairsOfFunction(segs: seq<string>, urls: seq<string>, urlOf: string -> string)
    requires |urls| == |segs|
    requires forall j :: 0 <= j < |segs| ==> urls[j] == urlOf(Trim(segs[j]))
    ensures Pairs(segs, urls) == SegmentResults(urlOf, segs)
  {
    var a, b := Pairs(segs, urls), SegmentResults(urlOf, segs);
    forall j | 0 <= j < |segs| ensures a[j] == b[j] {
      assert a[j] == (Trim(segs[j]), urls[j]);
    }
  }

  /** A published variant stays published while its index and the assets of its folder are
      left alone. */
  lemma PublishedFrame(before: map<AssetKey, string>, after: map<AssetKey, string>, entries: map<string, Entry>,
                       secureUrl: AssetKey -> string, cfg: Config, videoId: string, j: nat)
    requires Published(before, entries, secureUrl, cfg, videoId, j)
    requires IndexKey(cfg, videoId, j) in after
    requires after[IndexKey(cfg, videoId, j)] == before[IndexKey(cfg, videoId, j)]
    requires forall k :: k in before && InFolder(k, VariantFolder(cfg, videoId, j)) ==> k in after && after[k] == before[k]
    ensures Published(after, entries, secureUrl, cfg, videoId, j)
  {
    var content := FileAt(entries, videoId, PlaylistPath(j)).value;
    var jobs := VariantJobs(j, content);
    AllStoredFrame(before, after, entries, videoId, VariantFolder(cfg, videoId, j), jobs, |jobs|);
  }

  /** A rewritten playlist's path, `stream_?/modified.m3u8`: the only local files a variant
      pass writes. */
  predicate Rewritten(rel: seq<string>) {
    |rel| == 2 && rel[1] == "modified.m3u8"
  }

  /** A published variant stays published against entries that differ only at rewritten
      playlists: neither ffmpeg's playlist nor a segment file is at such a path. */
  lemma PublishedEntries(assets: map<AssetKey, string>, entries0: map<string, Entry>, entries1: map<string, Entry>,
                         secureUrl: AssetKey -> string, cfg: Config, videoId: string, i: nat)
    requires Published(assets, entries0, secureUrl, cfg, videoId, i)
    requires forall rel :: !Rewritten(rel) ==> FileAt(entries0, videoId, rel) == FileAt(entries1, videoId, rel)
    ensures Published(assets, entries1, secureUrl, cfg, videoId, i)
  {
    assert !Rewritten(PlaylistPath(i));
    var content := FileAt(entries0, videoId, PlaylistPath(i)).value;
    var jobs := VariantJobs(i, content);
    forall j | 0 <= j < |jobs| ensures FileAt(entries1, videoId, jobs[j].rel) == FileAt(entries0, videoId, jobs[j].rel) {
      SegmentNotRewritten(i, content, j);
    }
    AllStoredEntries(assets, entries0, entries1, videoId, VariantFolder(cfg, videoId, i), jobs, |jobs|);
  }

  /** No segment file is at a rewritten playlist's path: a segment's name ends in `.ts`. */
  lemma SegmentNotRewritten(i: nat, content: string, j: nat)
    requires j < |VariantJobs(i, content)|
    ensures !Rewritten(VariantJobs(i, content)[j].rel)
  {
    var segs := SegmentLines(Split(content, '\n'));
    assert segs[j] in segs;
    SegmentNameNotModified(Trim(segs[j]));
  }

  /** A name ending in `.ts` is not `modified.m3u8`. */
  lemma SegmentNameNotModified(name: string)
    requires EndsWith(name, ".ts")
    ensures name != "modified.m3u8"
  {
    assert name[|name| - 1] == name[|name| - 3..][2] == 's';
  }

  /** Segment assets stay stored against entries that keep the segments' files. */
  lemma AllStoredEntries(assets: map<AssetKey, string>, entries0: map<string, Entry>, entries1: map<string, Entry>,
                         dir: string, folder: string, jobs: seq<Job>, n: nat)
    requires n <= |jobs| && AllStored(assets, entries0, dir, folder, jobs, n)
    requires forall j :: 0 <= j < n ==> FileAt(entries1, dir, jobs[j].rel) == FileAt(entries0, dir, jobs[j].rel)
    ensures AllStored(assets, entries1, dir, folder, jobs, n)
  {
  }

  /** The end of a variant pass: write the rewritten playlist `text` as `modified.m3u8` and
      upload it as the raw asset `index` of the variant's folder, returning its URL. */
  method PublishIndex(h: Host, cfg: Config, videoId: string, i: nat, text: string)
    returns (r: Result<string, ApiError>)
    requires h.Valid()
    modifies h
    ensures h.Valid() && h.rootExists == old(h.rootExists)
    ensures Grows(old(h.log), h.log) && VariantEffects(h.log, |old(h.log)|, cfg, videoId, i)
    ensures forall rel :: rel != ModifiedPath(i) ==>
      FileAt(h.entries, videoId, rel) == FileAt(old(h.entries), videoId, rel)
    ensures r.Failure? ==> h.assets == old(h.assets)
    ensures r.Success? ==>
      && r.value == h.secureUrl(IndexKey(cfg, videoId, i))
      && h.assets == old(h.assets)[IndexKey(cfg, videoId, i) := text]
      && FileAt(h.entries, videoId, ModifiedPath(i)) == Some(text)
  {
    ghost var log0 := h.log;
    var failed := h.WriteFile(videoId, ModifiedPath(i), text);
    if failed.Some? {
      GrowsByAppend(log0, [Wrote(videoId, ModifiedPath(i))]);
      return Failure(failed.value);
    }
    r := h.UploadFile(Raw, videoId, ModifiedPath(i), VariantFolder(cfg, videoId, i), "index");
    GrowsByAppend(log0, [Wrote(videoId, ModifiedPath(i)), Uploaded(Raw, VariantFolder(cfg, videoId, i), "index")]);
  }

  /** One pass of the variant loop for `stream_i`: read ffmpeg's playlist, upload its
      segments, write the rewritten playlist as `modified.m3u8`, and upload that as the raw
      asset `index` of the variant's folder, whose URL is returned. */
  method ProcessVariant(h: Host, cfg: Config, videoId: string, i: nat) returns (r: Result<string, ApiError>)
    requires h.Valid() && i < 3
    modifies h
    ensures h.Valid() && h.rootExists == old(h.rootExists)
    ensures Grows(old(h.log), h.log) && VariantEffects(h.log, |old(h.log)|, cfg, videoId, i)
    ensures forall rel :: rel != ModifiedPath(i) ==>
      FileAt(h.entries, videoId, rel) == FileAt(old(h.entries), videoId, rel)
    ensures forall k :: k in old(h.assets) && k != IndexKey(cfg, videoId, i) && !InFolder(k, VariantFolder(cfg, videoId, i)) ==>
      k in h.assets && h.assets[k] == old(h.assets)[k]
    ensures FileAt(old(h.entries), videoId, PlaylistPath(i)).None? ==> r.Failure? && h.assets == old(h.assets)
    ensures r.Success? ==>
      && r.value == h.secureUrl(IndexKey(cfg, videoId, i))
      && Published(h.assets, old(h.entries), h.secureUrl, cfg, videoId, i)
      && FileAt(h.entries, videoId, ModifiedPath(i)) == Some(h.assets[IndexKey(cfg, videoId, i)])
  {
    ghost var log0 := h.log;
    var read := h.ReadFile(videoId, PlaylistPath(i));
    GrowsByAppend(log0, [Read(videoId, PlaylistPath(i))]);
    ghost var log1 := h.log;
    assert VariantEffects(log1, |log0|, cfg, videoId, i) by {
      assert log1[|log0|] == Read(videoId, PlaylistPath(i));
    }
    if read.Failure? {
      return Failure(read.error);
    }
    var modified := UploadAndRewrite(h, cfg, videoId, i, read.value);
    GrowsTransitive(log0, log1, h.log);
    VariantEffectsJoin(log1, h.log, |log0|, cfg, videoId, i);
    if modified.Failure? {
      return Failure(modified.error);
    }
    ghost var log2, assets2 := h.log, h.assets;
    r := PublishIndex(h, cfg, videoId, i, modified.value);
    GrowsTransitive(log0, log2, h.log);
    VariantEffectsJoin(log2, h.log, |log0|, cfg, videoId, i);
    if r.Success? {
      var jobs := VariantJobs(i, read.value);
      AllStoredFrame(assets2, h.assets, old(h.entries), videoId, VariantFolder(cfg, videoId, i), jobs, |jobs|);
    }
  }

  /** The effects of the pass for variant `i` are at stage `3 + i`. */
  lemma VariantEffectsStage(log: seq<Effect>, start: nat, cfg: Config, videoId: string, i: nat)
    requires i < 3 && VariantEffects(log, start, cfg, videoId, i)
    ensures StagesWithin(log, start, VideoPathCloud(cfg, videoId), 3 + i, 3 + i)
  {
    VariantStages(cfg, videoId, i);
  }

  /** A pass for variant `i` after the passes for the variants before it keeps the run in
      stage order. */
  lemma PassOrdered(log0: seq<Effect>, log1: seq<Effect>, start: nat, cfg: Config, videoId: string, i: nat)
    requires i < 3 && start <= |log0| && Grows(log0, log1)
    requires OrderedFrom(log0, start, VideoPathCloud(cfg, videoId))
    requires StagesWithin(log0, start, VideoPathCloud(cfg, videoId), 3, 2 + i)
    requires VariantEffects(log1, |log0|, cfg, videoId, i)
    ensures OrderedFrom(log1, start, VideoPathCloud(cfg, videoId))
    ensures StagesWithin(log1, start, VideoPathCloud(cfg, videoId), 3, 3 + i)
  {
    var cp := VideoPathCloud(cfg, videoId);
    VariantEffectsStage(log1, |log0|, cfg, videoId, i);
    Uniform(log1, |log0|, cp, 3 + i);
    Chain(log0, log1, start, cp, 3, 2 + i, 3 + i, 3 + i);
  }

  /** `variantPlaylists` after the first `n` passes of the loop. */
  function PartialUrls(secureUrl: AssetKey -> string, cfg: Config, videoId: string, n: nat): map<string, string>
    decreases n
  {
    if n == 0 then map[]
    else PartialUrls(secureUrl, cfg, videoId, n - 1)[StreamName(n - 1) := secureUrl(IndexKey(cfg, videoId, n - 1))]
  }

  /** After the three passes, `variantPlaylists` maps each `stream_i` to the URL of its index. */
  lemma {:induction false} AllPasses(secureUrl: AssetKey -> string, cfg: Config, videoId: string)
    ensures PartialUrls(secureUrl, cfg, videoId, 3) == PlaylistUrls(secureUrl, cfg, videoId)
  {
    StreamNames();
    assert PartialUrls(secureUrl, cfg, videoId, 0) == map[];
  }

  /** After the first `n` passes: variants `0..n-1` are published from what ffmpeg wrote
      (`entries1`), and every file but the rewritten playlists is as ffmpeg wrote it. */
  ghost predicate VariantsDone(assets: map<AssetKey, string>, entries1: map<string, Entry>, entries: map<string, Entry>,
                         secureUrl: AssetKey -> string, cfg: Config, videoId: string, n: nat)
  {
    && (forall j :: 0 <= j < n ==> Published(assets, entries1, secureUrl, cfg, videoId, j))
    && (forall rel :: !Rewritten(rel) ==> FileAt(entries, videoId, rel) == FileAt(entries1, videoId, rel))
  }

  /** A successful pass for variant `i` publishes it and leaves the earlier ones published:
      it only rewrites its own `modified.m3u8` and only replaces its own index asset and the
      assets of its own folder. */
  lemma PassDone(assets0: map<AssetKey, string>, assets1: map<AssetKey, string>,
                 entries1: map<string, Entry>, entries0: map<string, Entry>, entries: map<string, Entry>,
                 secureUrl: AssetKey -> string, cfg: Config, videoId: string, i: nat)
    requires i < 3 && VariantsDone(assets0, entries1, entries0, secureUrl, cfg, videoId, i)
    requires forall rel :: rel != ModifiedPath(i) ==> FileAt(entries, videoId, rel) == FileAt(entries0, videoId, rel)
    requires forall k :: k in assets0 && k != IndexKey(cfg, videoId, i) && !InFolder(k, VariantFolder(cfg, videoId, i)) ==>
      k in assets1 && assets1[k] == assets0[k]
    requires Published(assets1, entries0, secureUrl, cfg, videoId, i)
    ensures VariantsDone(assets1, entries1, entries, secureUrl, cfg, videoId, i + 1)
  {
    forall j | 0 <= j < i ensures Published(assets1, entries1, secureUrl, cfg, videoId, j) {
      OtherPassKeeps(assets0, assets1, entries1, secureUrl, cfg, videoId, i, j);
    }
    assert Rewritten(ModifiedPath(i));
    PublishedEntries(assets1, entries0, entries1, secureUrl, cfg, videoId, i);
  }

  /** The pass for variant `i` leaves variant `j`, published before it, published. */
  lemma OtherPassKeeps(assets0: map<AssetKey, string>, assets1: map<AssetKey, string>, entries1: map<string, Entry>,
                       secureUrl: AssetKey -> string, cfg: Config, videoId: string, i: nat, j: nat)
    requires i < 3 && j < 3 && i != j && Published(assets0, entries1, secureUrl, cfg, videoId, j)
    requires forall k :: k in assets0 && k != IndexKey(cfg, videoId, i) && !InFolder(k, VariantFolder(cfg, videoId, i)) ==>
      k in assets1 && assets1[k] == assets0[k]
    ensures Published(assets1, entries1, secureUrl, cfg, videoId, j)
  {
    PlaylistKeysDistinct(cfg, videoId, i, j);
    forall k | k in assets0 && InFolder(k, VariantFolder(cfg, videoId, j)) ensures k in assets1 && assets1[k] == assets0[k] {
      VariantFoldersDisjoint(cfg, videoId, i, j, k);
    }
    PublishedFrame(assets0, assets1, entries1, secureUrl, cfg, videoId, j);
  }

  /** The loop body for `stream_i`: one pass, carrying the loop's progress forward. */
  method NextVariant(h: Host, cfg: Config, videoId: string, i: nat, ghost entries1: map<string, Entry>)
    returns (r: Result<string, ApiError>)
    requires h.Valid() && i < 3
    requires VariantsDone(h.assets, entries1, h.entries, h.secureUrl, cfg, videoId, i)
    modifies h
    ensures h.Valid() && h.rootExists == old(h.rootExists)
    ensures Grows(old(h.log), h.log) && VariantEffects(h.log, |old(h.log)|, cfg, videoId, i)
    ensures r.Success? ==>
      && r.value == h.secureUrl(IndexKey(cfg, videoId, i))
      && VariantsDone(h.assets, entries1, h.entries, h.secureUrl, cfg, videoId, i + 1)
  {
    ghost var assets0, entries0 := h.assets, h.entries;
    r := ProcessVariant(h, cfg, videoId, i);
    if r.Success? {
      PassDone(assets0, h.assets, entries1, entries0, h.entries, h.secureUrl, cfg, videoId, i);
    }
  }

  /** The variant loop, `stream_0` to `stream_2` in turn, stopping at the first failure: on
      success every variant is published and `variantPlaylists` names their three index
      URLs; the effects of pass `i` all come before those of pass `i + 1`. */
  method ProcessVariants(h: Host, cfg: Config, videoId: string)
    returns (playlists: map<string, string>, err: Option<ApiError>)
    requires h.Valid()
    modifies h
    ensures h.Valid() && h.rootExists == old(h.rootExists)
    ensures Grows(old(h.log), h.log)
    ensures OrderedFrom(h.log, |old(h.log)|, VideoPathCloud(cfg, videoId))
    ensures StagesWithin(h.log, |old(h.log)|, VideoPathCloud(cfg, videoId), 3, 5)
    ensures err.None? ==> playlists == PlaylistUrls(h.secureUrl, cfg, videoId)
    ensures err.None? ==> forall i :: 0 <= i < 3 ==> Published(h.assets, old(h.entries), h.secureUrl, cfg, videoId, i)
  {
    var cp := VideoPathCloud(cfg, videoId);
    ghost var entries1 := h.entries;
    ghost var start := |h.log|;
    GrowsByAppend(h.log, []);
    assert h.log + [] == h.log;
    playlists := map[];
    var i := 0;
    while i <= 2
      invariant 0 <= i <= 3
      invariant h.Valid() && h.rootExists == old(h.rootExists)
      invariant Grows(old(h.log), h.log)
      invariant OrderedFrom(h.log, start, cp) && StagesWithin(h.log, start, cp, 3, 2 + i)
      invariant VariantsDone(h.assets, entries1, h.entries, h.secureUrl, cfg, videoId, i)
      invariant playlists == PartialUrls(h.secureUrl, cfg, videoId, i)
    {
      ghost var log0 := h.log;
      var url := NextVariant(h, cfg, videoId, i, entries1);
      GrowsTransitive(old(h.log), log0, h.log);
      PassOrdered(log0, h.log, start, cfg, videoId, i);
      if url.Failure? {
        return playlists, Some(url.error);
      }
      playlists := playlists[StreamName(i) := url.value];
      i := i + 1;
    }
    AllPasses(h.secureUrl, cfg, videoId);
    err := None;
  }

  /** One more effect, at a stage no lower than those before it. */
  lemma {:induction false} Step(log: seq<Effect>, start: nat, cloudPath: string, lo: nat, mid: nat, e: Effect, hi: nat)
    requires start <= |log| && lo <= mid <= hi
    requires OrderedFrom(log, start, cloudPath) && StagesWithin(log, start, cloudPath, lo, mid)
    requires Stage(e, cloudPath).Some? ==> mid <= Stage(e, cloudPath).value <= hi
    ensures OrderedFrom(log + [e], start, cloudPath) && StagesWithin(log + [e], start, cloudPath, lo, hi)
  {
    var log' := log + [e];
    forall a | start <= a < |log| ensures log'[a] == log[a] {
    }
    assert log'[|log|] == e;
  }

  /** The entries after `fs.mkdirSync` of a top-level directory that is not a file. */
  function AfterMkdir(entries: map<string, Entry>, name: string): (r: map<string, Entry>)
    ensures name in r && (name in entries ==> r[name] == entries[name])
    ensures forall n :: n != name ==> (n in r <==> n in entries) && (n in r ==> r[n] == entries[n])
  {
    if name in entries then entries else entries[name := Dir(map[], {})]
  }

  const NoFileError: ApiError := ApiError("No video file found", Some(400))

  /** The staged upload is still there after the initial sweep, as a file: only then can
      ffmpeg read it. */
  predicate Ready(entries: map<string, Entry>, keep: set<string>, locked: set<string>, upload: Option<string>) {
    upload.Some? && !SweepFails(entries, keep, locked) &&
    upload.value in Swept(entries, keep, locked) && Swept(entries, keep, locked)[upload.value].File?
  }

  /** Every effect from position `start` on is a removal. */
  predicate OnlyRemovalsFrom(log: seq<Effect>, start: nat) {
    forall a :: start <= a < |log| ==> log[a].Removed?
  }

  /** Two runs of removals make one. */
  lemma OnlyRemovalsJoin(log1: seq<Effect>, log2: seq<Effect>, start: nat)
    requires start <= |log1| && Grows(log1, log2)
    requires OnlyRemovalsFrom(log1, start) && OnlyRemovalsFrom(log2, |log1|)
    ensures OnlyRemovalsFrom(log2, start)
  {
    forall a | start <= a < |log1| ensures log2[a] == log1[a] {
      assert log2[a] == log2[..|log1|][a];
    }
  }

  /** No effect from position `start` on is an upload. */
  predicate NoUploadsFrom(log: seq<Effect>, start: nat) {
    forall a :: start <= a < |log| ==> !log[a].Uploaded?
  }

  /** The three effects after the file check, each at its stage, extend an ordered run at
      stage 0 to an ordered run at stages 0 to 2. */
  lemma {:induction false} LaunchOrdered(log: seq<Effect>, start: nat, cloudPath: string, e1: Effect, e2: Effect, e3: Effect)
    requires start <= |log| && OrderedFrom(log, start, cloudPath) && StagesWithin(log, start, cloudPath, 0, 0)
    requires Stage(e1, cloudPath) == Some(0) && Stage(e2, cloudPath) == Some(1) && Stage(e3, cloudPath) == Some(2)
    ensures OrderedFrom(log + [e1, e2, e3], start, cloudPath) && StagesWithin(log + [e1, e2, e3], start, cloudPath, 0, 2)
  {
    Step(log, start, cloudPath, 0, 0, e1, 0);
    Step(log + [e1], start, cloudPath, 0, 0, e2, 1);
    Step(log + [e1] + [e2], start, cloudPath, 0, 1, e3, 2);
    assert log + [e1] + [e2] + [e3] == log + [e1, e2, e3];
  }

  /** Whether `mkdirSync` of the video's directory fails: a file already has its name. */
  predicate Blocked(entries: map<string, Entry>, videoId: string) {
    videoId in entries && entries[videoId].File?
  }

  /** With a fresh video directory and the staged upload a file, ffmpeg succeeds exactly
      when the encoder accepts the upload's content. */
  lemma ReadyTranscodes(swept: map<string, Entry>, encode: string -> Result<map<seq<string>, string>, string>,
                        upload: string, videoId: string)
    requires upload in swept && swept[upload].File? && videoId !in swept && videoId != upload
    ensures CanTranscode(AfterMkdir(swept, videoId), encode, upload, videoId) <==> encode(swept[upload].content).Success?
  {
  }

  /** The try block after the file check: the output directory, the 200 response and the
      ffmpeg run. When `mkdirSync` fails (a file already has the video's name) nothing
      follows it; otherwise the client gets its reply before the transcoding starts. */
  method Launch(h: Host, cfg: Config, videoPath: string, videoId: string) returns (err: Option<ApiError>)
    requires h.Valid()
    modifies h
    ensures h.Valid() && h.assets == old(h.assets)
    ensures Blocked(old(h.entries), videoId) ==> err.Some? && h.log == old(h.log) + [MadeDir(videoId)]
    ensures !Blocked(old(h.entries), videoId) ==>
      var made := AfterMkdir(old(h.entries), videoId);
      && h.log == old(h.log) + [MadeDir(videoId), Responded(200, AcceptedReply(cfg, videoId)), Transcoded(videoPath, videoId)]
      && (err.None? <==> CanTranscode(made, h.encode, videoPath, videoId))
      && (err.None? ==> h.entries == AfterTranscode(made, h.encode, videoPath, videoId))
      && (err.Some? ==> err.value.statusCode == Some(500))
  {
    err := h.Mkdir(videoId);
    if err.None? {
      h.Respond(200, AcceptedReply(cfg, videoId));
      err := HlsVideoTranscoding(h, videoPath, videoId);
    }
  }

  /** The effects of `Launch` extend a run of sweeps into a run in stage order without
      uploads; when the directory is made, the reply and the transcoding are in it. */
  lemma {:induction false} LaunchRun(log0: seq<Effect>, log1: seq<Effect>, start: nat, cloudPath: string,
                                     e1: Effect, e2: Effect, e3: Effect)
    requires start <= |log0| && NoUploadsFrom(log0, start)
    requires OrderedFrom(log0, start, cloudPath) && StagesWithin(log0, start, cloudPath, 0, 0)
    requires Stage(e1, cloudPath) == Some(0) && Stage(e2, cloudPath) == Some(1) && Stage(e3, cloudPath) == Some(2)
    requires !e1.Uploaded? && !e2.Uploaded? && !e3.Uploaded?
    requires log1 == log0 + [e1] || log1 == log0 + [e1, e2, e3]
    ensures Grows(log0, log1) && NoUploadsFrom(log1, start)
    ensures OrderedFrom(log1, start, cloudPath) && StagesWithin(log1, start, cloudPath, 0, 2)
    ensures log1 == log0 + [e1, e2, e3] ==> e2 in log1[start..] && e3 in log1[start..]
  {
    GrowsByAppend(log0, log1[|log0|..]);
    assert log1 == log0 + log1[|log0|..];
    if log1 == log0 + [e1] {
      Step(log0, start, cloudPath, 0, 0, e1, 0);
    } else {
      LaunchOrdered(log0, start, cloudPath, e1, e2, e3);
      assert log1[start..][|log0| - start + 1] == e2;
      assert log1[start..][|log0| - start + 2] == e3;
    }
    assert NoUploadsFrom(log1, |log0|);
    NoUploadsJoin(log0, log1, start);
  }

  /** The start of the try block: the initial sweep, skipping `keep`, and the check that
      multer staged a file. */
  method Admit(h: Host, upload: Option<string>, keep: set<string>) returns (err: Option<ApiError>)
    requires h.Valid()
    modifies h
    ensures h.Valid() && h.assets == old(h.assets) && Grows(old(h.log), h.log)
    ensures Removals(h.log[|old(h.log)|..])
    ensures h.entries == Swept(old(h.entries), keep, h.locked)
    ensures err == if SweepFails(old(h.entries), keep, h.locked) then Some(SweepError)
                   else if upload.None? then Some(NoFileError) else None
  {
    err := Sweep(h, keep);
    if err.None? && upload.None? {
      err := Some(NoFileError);
    }
  }

  /** The try block up to and including the transcoding: the initial sweep (skipping
      `keep`), the file check, then `Launch`. */
  method Prepare(h: Host, cfg: Config, upload: Option<string>, videoId: string, keep: set<string>)
    returns (err: Option<ApiError>)
    requires h.Valid()
    modifies h
    ensures h.Valid() && h.assets == old(h.assets)
    ensures Grows(old(h.log), h.log) && NoUploadsFrom(h.log, |old(h.log)|)
    ensures OrderedFrom(h.log, |old(h.log)|, VideoPathCloud(cfg, videoId))
    ensures StagesWithin(h.log, |old(h.log)|, VideoPathCloud(cfg, videoId), 0, 2)
    ensures SweepFails(old(h.entries), keep, h.locked) ==>
      err == Some(SweepError) && h.entries == Swept(old(h.entries), keep, h.locked)
    ensures !SweepFails(old(h.entries), keep, h.locked) && upload.None? ==>
      err == Some(NoFileError) && h.entries == Swept(old(h.entries), keep, h.locked)
    ensures upload.None? ==> OnlyRemovalsFrom(h.log, |old(h.log)|)
    ensures err.None? ==> Ready(old(h.entries), keep, h.locked, upload)
    ensures err.None? ==>
      var made := AfterMkdir(Swept(old(h.entries), keep, h.locked), videoId);
      && CanTranscode(made, h.encode, upload.value, videoId)
      && h.entries == AfterTranscode(made, h.encode, upload.value, videoId)
      && Responded(200, AcceptedReply(cfg, videoId)) in h.log[|old(h.log)|..]
    ensures var swept := Swept(old(h.entries), keep, h.locked);
      Ready(old(h.entries), keep, h.locked, upload) && videoId !in swept && videoId != upload.value ==>
        && Transcoded(upload.value, videoId) in h.log[|old(h.log)|..]
        && (err.None? <==> h.encode(swept[upload.value].content).Success?)
        && (err.Some? ==> err.value.statusCode == Some(500))
  {
    var cp := VideoPathCloud(cfg, videoId);
    ghost var start := |h.log|;
    err := Admit(h, upload, keep);
    RemovalsUnstaged(h.log, start, cp, 0, 0);
    RemovalsNoUploads(h.log, start);
    if err.None? {
      ghost var log1, swept := h.log, h.entries;
      err := Launch(h, cfg, upload.value, videoId);
      LaunchRun(log1, h.log, start, cp, MadeDir(videoId), Responded(200, AcceptedReply(cfg, videoId)), Transcoded(upload.value, videoId));
      GrowsTransitive(old(h.log), log1, h.log);
      if Ready(old(h.entries), keep, h.locked, upload) && videoId !in swept && videoId != upload.value {
        ReadyTranscodes(swept, h.encode, upload.value, videoId);
      }
    }
  }

  /** The path of the master playlist under the job directory. */
  function MasterPath(): seq<string> {
    ["master.m3u8"]
  }

  /** An effect of the master step: writing `master.m3u8` or uploading it into the video's
      folder. */
  predicate MasterEffect(e: Effect, cfg: Config, videoId: string) {
    e == Wrote(videoId, MasterPath()) || e == Uploaded(Raw, VideoPathCloud(cfg, videoId), "master")
  }

  predicate MasterEffects(log: seq<Effect>, start: nat, cfg: Config, videoId: string) {
    forall a :: start <= a < |log| ==> MasterEffect(log[a], cfg, videoId)
  }

  /** The master step is at stage 6. */
  lemma MasterEffectsStage(log: seq<Effect>, start: nat, cfg: Config, videoId: string)
    requires MasterEffects(log, start, cfg, videoId)
    ensures StagesWithin(log, start, VideoPathCloud(cfg, videoId), 6, 6)
  {
    MasterStage(cfg, videoId);
  }

  /** The master step: write `createMasterPlaylist(variantPlaylists)` as `master.m3u8` and
      upload it as the raw asset `master` of the video's folder. */
  method PublishMaster(h: Host, cfg: Config, videoId: string, playlists: map<string, string>)
    returns (err: Option<ApiError>)
    requires h.Valid()
    modifies h
    ensures h.Valid() && h.rootExists == old(h.rootExists)
    ensures Grows(old(h.log), h.log) && MasterEffects(h.log, |old(h.log)|, cfg, videoId)
    ensures err.Some? ==> h.assets == old(h.assets)
    ensures err.None? ==> h.assets == old(h.assets)[MasterKey(cfg, videoId) := CreateMasterPlaylist(playlists)]
    ensures err.None? <==>
      && old(h.Writable(videoId, MasterPath()))
      && UploadCall(Raw, VideoPathCloud(cfg, videoId), "master") !in h.refused
  {
    ghost var log0 := h.log;
    var content := CreateMasterPlaylist(playlists);
    var failed := h.WriteFile(videoId, MasterPath(), content);
    if failed.Some? {
      GrowsByAppend(log0, [Wrote(videoId, MasterPath())]);
      return failed;
    }
    var up := h.UploadFile(Raw, videoId, MasterPath(), VideoPathCloud(cfg, videoId), "master");
    GrowsByAppend(log0, [Wrote(videoId, MasterPath()), Uploaded(Raw, VideoPathCloud(cfg, videoId), "master")]);
    if up.Failure? {
      return Some(up.error);
    }
    err := None;
  }

  /** Replacing the master asset leaves every published index published. */
  lemma MasterKeepsIndexes(assets: map<AssetKey, string>, after: map<AssetKey, string>, entries: map<string, Entry>,
                           secureUrl: AssetKey -> string, cfg: Config, videoId: string, content: string)
    requires forall i :: 0 <= i < 3 ==> Published(assets, entries, secureUrl, cfg, videoId, i)
    requires after == assets[MasterKey(cfg, videoId) := content]
    ensures forall i :: 0 <= i < 3 ==> Published(after, entries, secureUrl, cfg, videoId, i)
  {
    assert MasterKey(cfg, videoId).kind == Raw;
    forall i | 0 <= i < 3 ensures Published(after, entries, secureUrl, cfg, videoId, i) {
      PlaylistKeysDistinct(cfg, videoId, i, i);
      PublishedFrame(assets, after, entries, secureUrl, cfg, videoId, i);
    }
  }

  /** What the three passes and the master step publish: each variant's index from the
      playlist ffmpeg wrote in `entries`, and the master playlist naming the three index
      URLs. */
  predicate AllPublished(assets: map<AssetKey, string>, entries: map<string, Entry>,
                         secureUrl: AssetKey -> string, cfg: Config, videoId: string)
  {
    && (forall i :: 0 <= i < 3 ==> Published(assets, entries, secureUrl, cfg, videoId, i))
    && MasterKey(cfg, videoId) in assets
    && assets[MasterKey(cfg, videoId)] == CreateMasterPlaylist(PlaylistUrls(secureUrl, cfg, videoId))
  }

  /** The try block after the transcoding: the variant loop, the master step and the final
      sweep. On success everything is published and only `.gitkeep` is left in the temp root. */
  method Publish(h: Host, cfg: Config, videoId: string) returns (err: Option<ApiError>)
    requires h.Valid()
    modifies h
    ensures h.Valid()
    ensures Grows(old(h.log), h.log)
    ensures OrderedFrom(h.log, |old(h.log)|, VideoPathCloud(cfg, videoId))
    ensures StagesWithin(h.log, |old(h.log)|, VideoPathCloud(cfg, videoId), 3, 6)
    ensures err.None? ==> AllPublished(h.assets, old(h.entries), h.secureUrl, cfg, videoId)
    ensures err.None? ==> h.entries.Keys <= {Marker}
  {
    var cp := VideoPathCloud(cfg, videoId);
    ghost var entries0 := h.entries;
    ghost var start := |h.log|;
    var playlists, failed := ProcessVariants(h, cfg, videoId);
    if failed.Some? {
      return failed;
    }
    ghost var log1, assets1 := h.log, h.assets;
    err := PublishMaster(h, cfg, videoId, playlists);
    GrowsTransitive(old(h.log), log1, h.log);
    MasterEffectsStage(h.log, |log1|, cfg, videoId);
    Uniform(h.log, |log1|, cp, 6);
    Chain(log1, h.log, start, cp, 3, 5, 6, 6);
    if err.Some? {
      return err;
    }
    MasterKeepsIndexes(assets1, h.assets, entries0, h.secureUrl, cfg, videoId, CreateMasterPlaylist(playlists));
    ghost var log2, entries2 := h.log, h.entries;
    err := EmptyTempDir(h);
    GrowsTransitive(old(h.log), log2, h.log);
    RemovalsUnstaged(h.log, |log2|, cp, 6, 6);
    Chain(log2, h.log, start, cp, 3, 6, 6, 6);
    if err.None? {
      SweptLeavesOnlyKept(entries2, {Marker}, h.locked);
    }
  }

  /** An effect logged after `start` stays logged there as the log grows. */
  lemma StillLogged(log1: seq<Effect>, log2: seq<Effect>, start: nat, e: Effect)
    requires start <= |log1| && Grows(log1, log2) && e in log1[start..]
    ensures e in log2[start..]
  {
    var a :| 0 <= a < |log1[start..]| && log1[start..][a] == e;
    assert log2[start + a] == log2[..|log1|][start + a];
    assert log2[start..][a] == e;
  }

  /** No upload in either part of a log means no upload in the whole. */
  lemma NoUploadsJoin(log1: seq<Effect>, log2: seq<Effect>, start: nat)
    requires start <= |log1| && Grows(log1, log2)
    requires NoUploadsFrom(log1, start) && NoUploadsFrom(log2, |log1|)
    ensures NoUploadsFrom(log2, start)
  {
    forall a | start <= a < |log1| ensures log2[a] == log1[a] {
      assert log2[a] == log2[..|log1|][a];
    }
  }

  /** The whole try block of `processAndUploadHLS`, the initial sweep skipping `keep`. */
  method Attempt(h: Host, cfg: Config, upload: Option<string>, videoId: string, keep: set<string>)
    returns (err: Option<ApiError>)
    requires h.Valid()
    modifies h
    ensures h.Valid() && Grows(old(h.log), h.log)
    ensures OrderedFrom(h.log, |old(h.log)|, VideoPathCloud(cfg, videoId))
    ensures StagesWithin(h.log, |old(h.log)|, VideoPathCloud(cfg, videoId), 0, 6)
    ensures SweepFails(old(h.entries), keep, h.locked) ==>
      err == Some(SweepError) && h.entries == Swept(old(h.entries), keep, h.locked)
    ensures !SweepFails(old(h.entries), keep, h.locked) && upload.None? ==>
      err == Some(NoFileError) && h.entries == Swept(old(h.entries), keep, h.locked)
    ensures upload.None? ==> OnlyRemovalsFrom(h.log, |old(h.log)|)
    ensures !Ready(old(h.entries), keep, h.locked, upload) ==>
      err.Some? && h.assets == old(h.assets) && NoUploadsFrom(h.log, |old(h.log)|)
    ensures var swept := Swept(old(h.entries), keep, h.locked);
      Ready(old(h.entries), keep, h.locked, upload) && videoId !in swept && videoId != upload.value ==>
        Transcoded(upload.value, videoId) in h.log[|old(h.log)|..]
    ensures err.None? ==>
      var made := AfterMkdir(Swept(old(h.entries), keep, h.locked), videoId);
      && Ready(old(h.entries), keep, h.locked, upload)
      && CanTranscode(made, h.encode, upload.value, videoId)
      && AllPublished(h.assets, AfterTranscode(made, h.encode, upload.value, videoId), h.secureUrl, cfg, videoId)
      && h.entries.Keys <= {Marker}
      && Responded(200, AcceptedReply(cfg, videoId)) in h.log[|old(h.log)|..]
  {
    var cp := VideoPathCloud(cfg, videoId);
    ghost var start := |h.log|;
    err := Prepare(h, cfg, upload, videoId, keep);
    if err.Some? {
      Chain(h.log, h.log, start, cp, 0, 2, 2, 6) by {
        GrowsByAppend(h.log, []);
        assert h.log + [] == h.log;
      }
      return;
    }
    ghost var log1 := h.log;
    err := Publish(h, cfg, videoId);
    GrowsTransitive(old(h.log), log1, h.log);
    Chain(log1, h.log, start, cp, 0, 2, 3, 6);
    var swept := Swept(old(h.entries), keep, h.locked);
    if Ready(old(h.entries), keep, h.locked, upload) && videoId !in swept && videoId != upload.value {
      StillLogged(log1, h.log, start, Transcoded(upload.value, videoId));
    }
    if err.None? {
      StillLogged(log1, h.log, start, Responded(200, AcceptedReply(cfg, videoId)));
    }
  }

  /** The error the catch block of `processAndUploadHLS` forwards: the caught error's text
      behind the handler's prefix, with the caught error's status code (which may be
      missing). */
  function HandlerError(e: ApiError): (r: ApiError)
    ensures r.statusCode == e.statusCode
    ensures EndsWith(r.message, e.message)
  {
    ApiError("video.controller :: processAndUploadHLS :: " + Show(e), e.statusCode)
  }

  /** An entry that made the first sweep fail is still there and still locked, so the sweep
      in the catch block fails too. */
  lemma SweepFailsAgain(entries: map<string, Entry>, keep: set<string>, locked: set<string>)
    requires SweepFails(entries, keep, locked) && Marker in keep
    ensures SweepFails(Swept(entries, keep, locked), {Marker}, locked)
  {
    var n :| n in entries && n !in keep && n in locked;
    assert n in Swept(entries, keep, locked);
  }

  /** A run of sweeps has nothing but removals, so no uploads. */
  lemma RemovalsNoUploads(log: seq<Effect>, start: nat)
    requires start <= |log| && Removals(log[start..])
    ensures OnlyRemovalsFrom(log, start) && NoUploadsFrom(log, start)
  {
    forall a | start <= a < |log| ensures log[a].Removed? {
      assert log[start..][a - start] == log[a];
    }
  }

  /** `processAndUploadHLS` with the initial sweep skipping `keep` (which holds `.gitkeep`):
      the try block, and on any error the catch block, which sweeps again and forwards the
      error with the handler's prefix (or, when that sweep fails, the sweep's own error). */
  method Handle(h: Host, cfg: Config, upload: Option<string>, videoId: string, keep: set<string>)
    returns (outcome: Outcome)
    requires h.Valid() && Marker in keep
    modifies h
    ensures h.Valid() && Grows(old(h.log), h.log)
    ensures OrderedFrom(h.log, |old(h.log)|, VideoPathCloud(cfg, videoId))
    ensures SweepFails(old(h.entries), keep, h.locked) ==> outcome == Forwarded(SweepError)
    ensures !SweepFails(old(h.entries), keep, h.locked) && upload.None? ==>
      outcome == Forwarded(if SweepFails(Swept(old(h.entries), keep, h.locked), {Marker}, h.locked)
                           then SweepError else HandlerError(NoFileError))
    ensures upload.None? ==> OnlyRemovalsFrom(h.log, |old(h.log)|)
    ensures forall n :: n in h.entries ==> n == Marker || n in h.locked
    ensures !Ready(old(h.entries), keep, h.locked, upload) ==>
      outcome.Forwarded? && h.assets == old(h.assets) && NoUploadsFrom(h.log, |old(h.log)|)
    ensures var swept := Swept(old(h.entries), keep, h.locked);
      Ready(old(h.entries), keep, h.locked, upload) && videoId !in swept && videoId != upload.value ==>
        Transcoded(upload.value, videoId) in h.log[|old(h.log)|..]
    ensures outcome.Done? ==>
      var made := AfterMkdir(Swept(old(h.entries), keep, h.locked), videoId);
      && Ready(old(h.entries), keep, h.locked, upload)
      && CanTranscode(made, h.encode, upload.value, videoId)
      && AllPublished(h.assets, AfterTranscode(made, h.encode, upload.value, videoId), h.secureUrl, cfg, videoId)
      && h.entries.Keys <= {Marker}
      && Responded(200, AcceptedReply(cfg, videoId)) in h.log[|old(h.log)|..]
  {
    var cp := VideoPathCloud(cfg, videoId);
    ghost var start, entries0 := |h.log|, h.entries;
    var err := Attempt(h, cfg, upload, videoId, keep);
    if err.None? {
      outcome := Done;
    } else {
      ghost var log1, entries1 := h.log, h.entries;
      var failure := EmptyTempDir(h);
      GrowsTransitive(old(h.log), log1, h.log);
      RemovalsUnstaged(h.log, |log1|, cp, 6, 6);
      Chain(log1, h.log, start, cp, 0, 6, 6, 6);
      RemovalsNoUploads(h.log, |log1|);
      if !Ready(entries0, keep, h.locked, upload) {
        NoUploadsJoin(log1, h.log, start);
      }
      if upload.None? {
        OnlyRemovalsJoin(log1, h.log, start);
      }
      var swept := Swept(entries0, keep, h.locked);
      if Ready(entries0, keep, h.locked, upload) && videoId !in swept && videoId != upload.value {
        StillLogged(log1, h.log, start, Transcoded(upload.value, videoId));
      }
      if SweepFails(entries0, keep, h.locked) {
        SweepFailsAgain(entries0, keep, h.locked);
      }
      if failure.Some? {
        outcome := Forwarded(failure.value);
      } else {
        outcome := Forwarded(HandlerError(err.value));
      }
    }
  }

  /** The upload survives a sweep that does not fail only when the sweep skips its name. */
  lemma ReadyOnlyIfKept(entries: map<string, Entry>, keep: set<string>, locked: set<string>, upload: Option<string>)
    requires Ready(entries, keep, locked, upload)
    ensures upload.value in keep
  {
    var n := upload.value;
    assert n in entries && (n in keep || n in locked);
  }

  /** The staged upload is never `.gitkeep`, so a sweep that skips only `.gitkeep` removes it
      (or fails on it): the handler is never ready to transcode. */
  lemma StagedUploadSwept(entries: map<string, Entry>, locked: set<string>, staged: string)
    requires staged != Marker
    ensures !Ready(entries, {Marker}, locked, Some(staged))
  {
    if Ready(entries, {Marker}, locked, Some(staged)) {
      ReadyOnlyIfKept(entries, {Marker}, locked, Some(staged));
    }
  }

  /** Multer stages an upload its filter accepts in the temp root under the upload's
      original name, which is never `.gitkeep`: the handler's first sweep, skipping only
      `.gitkeep`, removes it (or fails on it), so it never reaches ffmpeg. */
  lemma AcceptedUploadSwept(entries: map<string, Entry>, locked: set<string>, originalname: string)
    requires Multer.FileFilter(originalname).Accept?
    ensures !Ready(entries, {Marker}, locked, Some(Multer.StoredName(originalname)))
  {
    Multer.AcceptedIsNotMarker(originalname);
    StagedUploadSwept(entries, locked, Multer.StoredName(originalname));
  }

  /** `processAndUploadHLS` as written: the initial sweep skips only `.gitkeep`, in the very
      directory multer staged the upload in. Whatever was uploaded (every name the filter
      accepts differs from `.gitkeep`), the handler forwards an error and uploads nothing; the
      only way to reach `Done` is an upload stored as `.gitkeep` itself. */
  method ProcessAndUploadHLS(h: Host, cfg: Config, upload: Option<string>, videoId: string)
    returns (outcome: Outcome)
    requires h.Valid()
    modifies h
    ensures h.Valid() && Grows(old(h.log), h.log)
    ensures OrderedFrom(h.log, |old(h.log)|, VideoPathCloud(cfg, videoId))
    ensures upload.None? ==>
      outcome == Forwarded(if SweepFails(old(h.entries), {Marker}, h.locked) then SweepError else HandlerError(NoFileError))
    ensures upload.None? ==> OnlyRemovalsFrom(h.log, |old(h.log)|)
    ensures forall n :: n in h.entries ==> n == Marker || n in h.locked
    ensures upload.Some? && upload.value != Marker ==>
      outcome.Forwarded? && h.assets == old(h.assets) && NoUploadsFrom(h.log, |old(h.log)|)
    ensures outcome.Done? ==> upload == Some(Marker)
  {
    ghost var entries0 := h.entries;
    outcome := Handle(h, cfg, upload, videoId, {Marker});
    SweepIdempotent(entries0, {Marker}, h.locked);
    if upload.Some? && upload.value != Marker {
      StagedUploadSwept(entries0, h.locked, upload.value);
    }
  }

  /** The names the initial sweep should skip: `.gitkeep` and the staged upload. */
  function Spared(upload: Option<string>): (keep: set<string>)
    ensures Marker in keep
    ensures upload.Some? ==> upload.value in keep
    ensures forall n :: n in keep ==> n == Marker || upload == Some(n)
  {
    if upload.Some? then {Marker, upload.value} else {Marker}
  }

  /** With the staged upload spared, a staged file is ready for ffmpeg unless another entry
      blocks the sweep. */
  lemma SparedIsReady(entries: map<string, Entry>, locked: set<string>, staged: string)
    requires staged in entries && entries[staged].File?
    requires !SweepFails(entries, Spared(Some(staged)), locked)
    ensures Ready(entries, Spared(Some(staged)), locked, Some(staged))
  {
  }

  /** `processAndUploadHLS` with the initial sweep sparing the staged upload: a staged file
      reaches ffmpeg (the sweep succeeding and the video's name being fresh), and on success
      everything is published from what ffmpeg wrote and only `.gitkeep` is left. */
  method ProcessAndUploadHLSSparingUpload(h: Host, cfg: Config, upload: Option<string>, videoId: string)
    returns (outcome: Outcome)
    requires h.Valid()
    modifies h
    ensures h.Valid() && Grows(old(h.log), h.log)
    ensures OrderedFrom(h.log, |old(h.log)|, VideoPathCloud(cfg, videoId))
    ensures upload.None? ==>
      outcome == Forwarded(if SweepFails(old(h.entries), {Marker}, h.locked) then SweepError else HandlerError(NoFileError))
    ensures upload.None? ==> OnlyRemovalsFrom(h.log, |old(h.log)|)
    ensures forall n :: n in h.entries ==> n == Marker || n in h.locked
    ensures upload.Some? && upload.value in old(h.entries) && old(h.entries)[upload.value].File? &&
            !SweepFails(old(h.entries), Spared(upload), h.locked) &&
            videoId !in old(h.entries) && videoId != upload.value ==>
      Transcoded(upload.value, videoId) in h.log[|old(h.log)|..]
    ensures outcome.Done? ==>
      var made := AfterMkdir(Swept(old(h.entries), Spared(upload), h.locked), videoId);
      && upload.Some?
      && CanTranscode(made, h.encode, upload.value, videoId)
      && AllPublished(h.assets, AfterTranscode(made, h.encode, upload.value, videoId), h.secureUrl, cfg, videoId)
      && h.entries.Keys <= {Marker}
  {
    ghost var entries0 := h.entries;
    outcome := Handle(h, cfg, upload, videoId, Spared(upload));
    SweepIdempotent(entries0, {Marker}, h.locked);
    if upload.Some? && upload.value in entries0 && entries0[upload.value].File? &&
       !SweepFails(entries0, Spared(upload), h.locked) {
      SparedIsReady(entries0, h.locked, upload.value);
    }
  }

  // ---------------------------------------------------------------------------------------
  // deleteVideo.

  const NoIdError: ApiError := ApiError("No video ID found", Some(400))

  /** The error the catch block of `deleteVideo` forwards: the caught error's text behind the
      handler's prefix, with its status code or 500. */
  function DeleteError(e: ApiError): (r: ApiError)
    ensures r.statusCode.Some? && r.statusCode.value != 0
    ensures e.statusCode.Some? && e.statusCode.value != 0 ==> r.statusCode == e.statusCode
    ensures EndsWith(r.message, e.message)
  {
    ApiError("video.controller :: deleteVideo :: " + Show(e), Some(StatusOr500(e.statusCode)))
  }

  /** The Cloudinary calls of `deleteVideo`, in order, for resources under `prefix`. */
  function DeleteCalls(cfg: Config, videoId: string, prefix: string): seq<CloudCall> {
    [DeleteByPrefixCall(Raw, prefix), DeleteByPrefixCall(Video, prefix), DeleteFolderCall(VideoPathCloud(cfg, videoId))]
  }

  /** The effects of a `deleteVideo` that succeeds, in order. */
  function DeleteEffects(cfg: Config, videoId: string, prefix: string): seq<Effect> {
    [DeletedByPrefix(Raw, prefix), DeletedByPrefix(Video, prefix), DeletedFolder(VideoPathCloud(cfg, videoId)),
     Responded(200, Deleted("Video deleted successfully"))]
  }

  /** `deleteVideo`, deleting the resources whose public ids start with `prefix` and then the
      folder of the video: on success, exactly the assets under `prefix` are gone and the 200
      reply is the last effect; the first refused call stops it, and no reply is sent. */
  method DeleteVideoUnder(h: Host, cfg: Config, videoId: string, prefix: string) returns (outcome: Outcome)
    modifies h
    ensures h.rootExists == old(h.rootExists) && h.entries == old(h.entries)
    ensures videoId == "" ==>
      outcome == Forwarded(DeleteError(NoIdError)) && h.log == old(h.log) && h.assets == old(h.assets)
    ensures videoId != "" ==>
      (outcome.Done? <==> forall j :: 0 <= j < 3 ==> DeleteCalls(cfg, videoId, prefix)[j] !in h.refused)
    ensures outcome.Done? ==>
      && h.log == old(h.log) + DeleteEffects(cfg, videoId, prefix)
      && (forall k :: k in h.assets <==> k in old(h.assets) && !StartsWith(k.publicId, prefix))
    ensures outcome.Forwarded? ==>
      exists n :: 0 <= n < 4 && h.log == old(h.log) + DeleteEffects(cfg, videoId, prefix)[..n]
    ensures outcome.Forwarded? ==> outcome.error.statusCode.Some? && outcome.error.statusCode.value != 0
    ensures forall k :: k in h.assets ==> k in old(h.assets) && h.assets[k] == old(h.assets)[k]
    ensures forall k :: k in old(h.assets) && k !in h.assets ==> StartsWith(k.publicId, prefix)
  {
    ghost var log0 := h.log;
    ghost var effects := DeleteEffects(cfg, videoId, prefix);
    ghost var calls := DeleteCalls(cfg, videoId, prefix);
    if videoId == "" {
      assert h.log == log0 + effects[..0];
      return Forwarded(DeleteError(NoIdError));
    }
    var err := h.DeleteResourcesByPrefix(Raw, prefix);
    if err.Some? {
      assert calls[0] in h.refused;
      assert h.log == log0 + effects[..1];
      return Forwarded(DeleteError(err.value));
    }
    err := h.DeleteResourcesByPrefix(Video, prefix);
    if err.Some? {
      assert calls[1] in h.refused;
      assert h.log == log0 + effects[..2];
      return Forwarded(DeleteError(err.value));
    }
    err := h.DeleteFolder(VideoPathCloud(cfg, videoId));
    if err.Some? {
      assert calls[2] in h.refused;
      assert h.log == log0 + effects[..3];
      return Forwarded(DeleteError(err.value));
    }
    h.Respond(200, Deleted("Video deleted successfully"));
    outcome := Done;
  }

  /** `deleteVideo` as written: the resource prefix is the video's folder path with no
      trailing slash, so it also matches every video whose id extends this one. */
  method DeleteVideo(h: Host, cfg: Config, videoId: string) returns (outcome: Outcome)
    modifies h
    ensures h.rootExists == old(h.rootExists) && h.entries == old(h.entries)
    ensures videoId == "" ==>
      outcome == Forwarded(DeleteError(NoIdError)) && h.log == old(h.log) && h.assets == old(h.assets)
    ensures outcome.Done? ==>
      && h.log == old(h.log) + DeleteEffects(cfg, videoId, VideoPathCloud(cfg, videoId))
      && (forall k :: k in h.assets <==> k in old(h.assets) && !StartsWith(k.publicId, VideoPathCloud(cfg, videoId)))
    ensures outcome.Forwarded? ==> outcome.error.statusCode.Some? && outcome.error.statusCode.value != 0
    ensures forall k :: k in h.assets ==> k in old(h.assets) && h.assets[k] == old(h.assets)[k]
  {
    outcome := DeleteVideoUnder(h, cfg, videoId, VideoPathCloud(cfg, videoId));
  }

  /** Every asset processAndUploadHLS publishes for video `b` has a public id that starts with
      the as-written delete prefix of any video `a` whose id is a prefix of `b`'s, so deleting
      `a` deletes them too. */
  lemma {:induction false} SiblingAssetsMatched(cfg: Config, a: string, b: string, i: nat, name: string)
    requires StartsWith(b, a)
    ensures StartsWith(MasterKey(cfg, b).publicId, VideoPathCloud(cfg, a))
    ensures StartsWith(IndexKey(cfg, b, i).publicId, VideoPathCloud(cfg, a))
    ensures StartsWith(SegmentKey(cfg, b, i, name).publicId, VideoPathCloud(cfg, a))
  {
    var pa := VideoPathCloud(cfg, a);
    var pb := VideoPathCloud(cfg, b);
    SiblingPathMatched(cfg, a, b);
    AssetsUnderVideoPath(cfg, b, i, name);
    StartsWithExtended(pb, MasterKey(cfg, b).publicId[|pb|..], pa);
    StartsWithExtended(pb, IndexKey(cfg, b, i).publicId[|pb|..], pa);
    StartsWithExtended(pb, SegmentKey(cfg, b, i, name).publicId[|pb|..], pa);
  }

  /** The folder path of `b` extends that of `a` when `b`'s id extends `a`'s. */
  lemma SiblingPathMatched(cfg: Config, a: string, b: string)
    requires StartsWith(b, a)
    ensures StartsWith(VideoPathCloud(cfg, b), VideoPathCloud(cfg, a))
  {
    var pa := VideoPathCloud(cfg, a);
    var pb := VideoPathCloud(cfg, b);
    assert pb[..|pa|] == pa by {
      assert b[..|a|] == a;
    }
  }

  /** Every asset a video publishes has a public id made of the video's folder path, `/`,
      and a rest. */
  lemma AssetsUnderVideoPath(cfg: Config, videoId: string, i: nat, name: string)
    ensures var p := VideoPathCloud(cfg, videoId) + "/";
      && MasterKey(cfg, videoId).publicId == p + "master"
      && IndexKey(cfg, videoId, i).publicId == p + (StreamName(i) + "/index")
      && SegmentKey(cfg, videoId, i, name).publicId == p + (StreamName(i) + "/" + PublicId(name))
  {
  }

  /** Concretely: deleting video "a" also deletes the master playlist of video "ab". */
  lemma DeleteOfAReachesAB(cfg: Config)
    ensures StartsWith(MasterKey(cfg, "ab").publicId, VideoPathCloud(cfg, "a"))
    ensures "ab" != "a"
  {
    SiblingAssetsMatched(cfg, "a", "ab", 0, "");
  }

  /** `deleteVideo` with the prefix it evidently intends: the video's folder path followed by
      `/`, so only resources inside that folder match. */
  method DeleteVideoWithinFolder(h: Host, cfg: Config, videoId: string) returns (outcome: Outcome)
    modifies h
    ensures h.rootExists == old(h.rootExists) && h.entries == old(h.entries)
    ensures videoId == "" ==>
      outcome == Forwarded(DeleteError(NoIdError)) && h.log == old(h.log) && h.assets == old(h.assets)
    ensures outcome.Done? ==>
      && h.log == old(h.log) + DeleteEffects(cfg, videoId, VideoPathCloud(cfg, videoId) + "/")
      && (forall k :: k in h.assets <==> k in old(h.assets) && !StartsWith(k.publicId, VideoPathCloud(cfg, videoId) + "/"))
    ensures outcome.Forwarded? ==> outcome.error.statusCode.Some? && outcome.error.statusCode.value != 0
    ensures forall k :: k in h.assets ==> k in old(h.assets) && h.assets[k] == old(h.assets)[k]
    ensures forall k :: k in old(h.assets) && k !in h.assets ==> StartsWith(k.publicId, VideoPathCloud(cfg, videoId) + "/")
  {
    outcome := DeleteVideoUnder(h, cfg, videoId, VideoPathCloud(cfg, videoId) + "/");
  }

  /** The corrected prefix still covers every asset processAndUploadHLS publishes for the
      video: its master playlist, its index playlists and its segments. */
  lemma {:induction false} OwnAssetsWithinFolder(cfg: Config, videoId: string, i: nat, name: string)
    ensures StartsWith(MasterKey(cfg, videoId).publicId, VideoPathCloud(cfg, videoId) + "/")
    ensures StartsWith(IndexKey(cfg, videoId, i).publicId, VideoPathCloud(cfg, videoId) + "/")
    ensures StartsWith(SegmentKey(cfg, videoId, i, name).publicId, VideoPathCloud(cfg, videoId) + "/")
  {
    var p := VideoPathCloud(cfg, videoId) + "/";
    AssetsUnderVideoPath(cfg, videoId, i, name);
    assert StartsWith(p, p);
    StartsWithExtended(p, "master", p);
    StartsWithExtended(p, StreamName(i) + "/index", p);
    StartsWithExtended(p, StreamName(i) + "/" + PublicId(name), p);
  }

  /** Folders of videos whose ids contain no `/` do not nest: a public id inside the folder
      of `a` and inside the folder of `b` means `a` and `b` are the same video. */
  lemma {:induction false} FoldersDoNotNest(cfg: Config, a: string, b: string, id: string)
    requires Free(a, '/') && Free(b, '/')
    requires StartsWith(id, VideoPathCloud(cfg, a) + "/") && StartsWith(id, VideoPathCloud(cfg, b) + "/")
    ensures a == b
  {
    var f := cfg.folder + "/";
    var pa := f + a + "/";
    var pb := f + b + "/";
    assert VideoPathCloud(cfg, a) + "/" == pa && VideoPathCloud(cfg, b) + "/" == pb;
    var l := |f|;
    assert forall j :: 0 <= j < |a| ==> pa[l + j] == a[j];
    assert forall j :: 0 <= j < |b| ==> pb[l + j] == b[j];
    assert pa[l + |a|] == '/' && pb[l + |b|] == '/';
    var m := if |a| < |b| then |a| else |b|;
    assert pa[l + m] == id[l + m] == pb[l + m];
    assert a == id[l..l + |a|] == b;
  }

  /** With the corrected prefix, no asset inside another video's folder matches, as long as
      video ids contain no `/` (they are uuids). */
  lemma OtherVideosSpared(cfg: Config, a: string, b: string, id: string)
    requires Free(a, '/') && Free(b, '/') && a != b
    requires StartsWith(id, VideoPathCloud(cfg, b) + "/")
    ensures !StartsWith(id, VideoPathCloud(cfg, a) + "/")
  {
    if StartsWith(id, VideoPathCloud(cfg, a) + "/") {
      FoldersDoNotNest(cfg, a, b, id);
    }
  }
}
