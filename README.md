# HLS packaging service, modelled in Dafny

This project models the packaging pipeline of an Express service that turns an uploaded video
into an HTTP Live Streaming presentation on Cloudinary, and the endpoint that deletes one.

- **Upload filter** (`src/middlewares/multer.middleware.js`). An upload reaches the handler
  only when `path.extname` of its original name is exactly `.mp4`, `.mov` or `.mkv`. It is
  stored under its original name in `./public/temp`.
- **`processAndUploadHLS`** (`src/controllers/video.controller.js`):
  1. Sweeps the temp root and checks that a file was staged.
  2. Makes the job directory `./public/temp/<videoId>`.
  3. Replies 200 with the URLs the playlists will have.
  4. Runs ffmpeg once on the upload, with a three-rung ladder (360p, 480p, 720p) packaged as
     HLS (`src/utils/ffmpeg.js`).
  5. For `stream_0`, `stream_1`, `stream_2` in turn:
     - reads `prog_index.m3u8`;
     - uploads every segment line's `.ts` file as a video asset;
     - rewrites the playlist so that each segment line becomes its segment's URL;
     - writes the result as `modified.m3u8`;
     - uploads it as the raw asset `index` of the variant's folder.
  6. Builds the Master Playlist from the three index URLs, writes it and uploads it as
     `master`.
  7. Sweeps the temp root again.

  Any error runs the sweep once more and is forwarded to Express's `next`.
- **`deleteVideo`**. It deletes the raw and video resources under the video's prefix, then
  the video's folder, and replies 200.
- **`emptyTempDir`, `uploadVideoSegment` and `generateModifiedPlaylist`**
  (`src/utils/fileHandler.js`). `emptyTempDir` is the sweep: it removes every entry of the
  temp root except `.gitkeep`.

## How the model is built

The outside world is one object of class `Host.Host`. It holds:
- the temp root's entries, with their files and directories;
- the Cloudinary assets, keyed by resource type and public id;
- a log of every call made, in order.

Constant oracles are fields of the class:
- which entries the OS refuses to touch, and which Cloudinary calls fail (with which status
  code);
- what ffmpeg writes for a given input, and what a run that fails while encoding leaves
  behind;
- which `secure_url` Cloudinary returns.

Each call is a method whose outcome follows from the state and the oracles. Every property
below therefore holds for every choice of the oracles.

The modules are:
- `Errors`: `Option`/`Result` and the service's errors;
- `Text`: JavaScript's `trim`, `split`, `join`, `endsWith` and first-occurrence `replace`;
- `Host`;
- `FileHandler`, `Ffmpeg`, `Multer` and `VideoController`, one per source file.

Where the intended design and the code differ, the model follows the code. There are three
such places:
- **The first sweep.** It is meant to clear only leftovers from earlier jobs. In the code it
  sweeps the very directory multer staged the upload in, so it also removes the upload (first
  finding below).
- **The final sweep.** It is meant to touch only the job's own directory. In the code it
  clears the whole temp root.
- **The segment uploads.** They are meant to be all-or-nothing. In the code, a failed upload
  leaves the uploads that already succeeded on Cloudinary.

## Model

| member | source | states |
|---|---|---|
| Errors.Show | src/controllers/video.controller.js:140 | `${error}` of an error ends with the error's message, behind a non-empty prefix |
| Errors.StatusOr500 | src/controllers/video.controller.js:176 | `statusCode \|\| 500` is never 0. It is the code when that is present and non-zero, and 500 otherwise |
| Text.TrimStart | src/utils/fileHandler.js:53 | The result is a suffix of the input that starts with a non-whitespace character. Only whitespace was dropped |
| Text.TrimEnd | src/utils/fileHandler.js:53 | The result is a prefix of the input that ends with a non-whitespace character. Only whitespace was dropped |
| Text.Trim | src/utils/fileHandler.js:53 | `String.prototype.trim` gives a trimmed string no longer than its input |
| Text.TrimPadded | src/controllers/video.controller.js:79 | Trimming whitespace + core + whitespace gives back exactly the trimmed core |
| Text.TrimOfTrimmed | src/controllers/video.controller.js:79 | Trimming an already trimmed name changes nothing |
| Text.Split | src/controllers/video.controller.js:71 | `split("\n")` gives at least one piece, and no piece contains a newline |
| Text.JoinSplit | src/utils/fileHandler.js:56 | Joining with newlines after splitting on newlines gives back the original text |
| Text.SplitJoin | src/utils/fileHandler.js:56 | Splitting a join of newline-free lines gives back exactly those lines |
| Text.IndexOf | src/controllers/video.controller.js:85 | The first occurrence of a pattern, or none when it never occurs |
| Text.ReplaceFirst | src/controllers/video.controller.js:85 | `replace` with a string pattern replaces only the first occurrence. With no occurrence the text is unchanged |
| Text.ReplaceFirstAfter | src/utils/ffmpeg.js:109 | When the prefix cannot start the pattern, the occurrence right after the prefix is the one replaced |
| Text.NatToString | src/utils/ffmpeg.js:107 | Decimal digits. There is no leading zero except for 0 itself, and the string has one digit exactly below 10 |
| Text.DecimalOfNatToString | src/utils/ffmpeg.js:135 | Reading back the decimal digits of `n` gives `n` |
| Text.NatToStringInjective | src/utils/ffmpeg.js:107 | Different numbers have different decimal strings, so segment names never collide |
| Ffmpeg.OutputOptions | src/utils/ffmpeg.js:17-108 | The option array has 82 entries: 2 filter options, three 24-option rung blocks and 8 HLS options |
| Ffmpeg.BranchLayout | src/utils/ffmpeg.js:21-97 | Rung `i` occupies entries `2+24i` to `25+24i`, right after the filter |
| Ffmpeg.BranchValues | src/utils/ffmpeg.js:22-86 | Each rung block maps its own `split` output (`[v1]`..`[v3]`) and carries that rung's `-b:v` and `-s` |
| Ffmpeg.SharedGop | src/utils/ffmpeg.js:30-105 | Every rung has `-g 180` and `-sc_threshold 0`, and the muxer uses `-hls_time 6`, so segment boundaries are shared by all variants |
| Ffmpeg.HlsLayout | src/utils/ffmpeg.js:100-107 | The HLS options close the array, with `-hls_time 6` at entries 78 and 79 |
| Ffmpeg.VariantPlaylistPath | src/utils/ffmpeg.js:109 | Expanding `%v` to `v` in the output template gives `outputPath/stream_v/prog_index.m3u8`, the path the controller reads |
| Ffmpeg.Pad3 | src/utils/ffmpeg.js:107 | `%03d` left-pads with zeros to three characters and never truncates |
| Ffmpeg.SegmentStem | src/utils/ffmpeg.js:107 | The stem of a segment name has no dot and no whitespace |
| Ffmpeg.SegmentNameSelected | src/utils/ffmpeg.js:107 | Every segment name ffmpeg writes ends in `.ts` and is already trimmed. Removing its first `.ts` leaves its stem |
| Ffmpeg.SegmentNumberWidth | src/utils/ffmpeg.js:107 | Segments numbered below 1000 get exactly three digits |
| Ffmpeg.TranscodingError | src/utils/ffmpeg.js:119-129 | An ffmpeg failure surfaces with status 500 and a message that starts with the catch's prefix and ends with ffmpeg's message |
| Ffmpeg.HlsVideoTranscoding | src/utils/ffmpeg.js:5-130 | One ffmpeg run. It succeeds exactly when the encoder can read the input and write under the output directory, and then adds what it writes. A failed run has a status-500 error and may leave partial output under the output directory |
| Ffmpeg.RateOf | src/utils/ffmpeg.js:33 | A bitrate written as digits followed by `k` is that many thousand bits per second |
| Ffmpeg.BandwidthAscending | src/utils/ffmpeg.js:135-141 | The ladder's `-b:v` values are 800000, 1200000 and 2200000 bits per second, in rung order |
| Ffmpeg.MasterAgreesWithLadder | src/utils/ffmpeg.js:135-141 | Each `#EXT-X-STREAM-INF` line of the master playlist is exactly the line derived from the rung of the same index (BANDWIDTH from `-b:v`, RESOLUTION from `-s`) |
| Ffmpeg.StreamInfText0 | src/utils/ffmpeg.js:135 | The derived 360p line is the literal line of the template |
| Ffmpeg.StreamInfText1 | src/utils/ffmpeg.js:138 | The derived 480p line is the literal line of the template |
| Ffmpeg.StreamInfText2 | src/utils/ffmpeg.js:141 | The derived 720p line is the literal line of the template |
| Ffmpeg.StreamInfOneLine | src/utils/ffmpeg.js:135-141 | Each stream line is a single line starting with the `#EXT-X-STREAM-INF:` tag |
| Ffmpeg.MasterLinesOneLine | src/utils/ffmpeg.js:132-143 | With one-line URLs, every line of the template is a single line |
| Ffmpeg.MasterStreamLines | src/utils/ffmpeg.js:132-143 | Exactly lines 2, 5 and 8 are stream lines. No URL line is taken for a tag |
| Ffmpeg.MasterShape | src/utils/ffmpeg.js:132-143 | The master playlist, read back, has ten lines: the header, the version, then each stream line followed by `playlists["stream_i"]` in ladder order, with blank separators and no trailing newline |
| FileHandler.Swept | src/utils/fileHandler.js:17-33 | After a sweep, exactly the skipped and the refused entries remain, unchanged |
| FileHandler.Sweep | src/utils/fileHandler.js:14-37 | Tries to remove every unskipped entry. The new entries are `Swept`. It fails with the single sweep error iff some entry was refused. It logs only removals, and nothing at all when the root is missing |
| FileHandler.EmptyTempDir | src/utils/fileHandler.js:7-38 | The sweep that skips only `.gitkeep` |
| FileHandler.SweptLeavesOnlyKept | src/utils/fileHandler.js:17-33 | A sweep that does not fail leaves exactly the skipped entries that existed |
| FileHandler.KeptUntouched | src/utils/fileHandler.js:19 | A skipped entry survives the sweep with its content |
| FileHandler.SweepIdempotent | src/utils/fileHandler.js:7-38 | Sweeping twice leaves what sweeping once leaves, and fails exactly when the first sweep failed |
| FileHandler.UploadVideoSegment | src/utils/fileHandler.js:40-48 | Succeeds iff the file exists and Cloudinary accepts. It then overwrites the video asset `folder/publicId` with the file and returns that asset's `secure_url`. Otherwise the assets are unchanged |
| FileHandler.RewriteLines | src/utils/fileHandler.js:51-55 | One output line per input line, in order, each rewritten on its own |
| FileHandler.LineByLine | src/utils/fileHandler.js:50-57 | The rewritten playlist, read back, has as many lines as the input, in order. A line whose trimmed text is a key becomes the mapped URL, and every other line is unchanged |
| FileHandler.PaddingDropped | src/utils/fileHandler.js:53-54 | A replaced line loses its surrounding whitespace: the URL stands alone |
| FileHandler.CarriageReturnDropped | src/utils/fileHandler.js:53-54 | A segment line ending in CR is still replaced, by the bare URL |
| FileHandler.EmptyMapRoundTrip | src/utils/fileHandler.js:50-57 | With an empty map, splitting and rewriting gives back the very text read |
| FileHandler.UnmappedUnchanged | src/utils/fileHandler.js:54 | Lines whose trimmed text is no key come out unchanged |
| FileHandler.RewriteIdempotent | src/utils/fileHandler.js:50-57 | When no mapped URL is itself a key, rewriting the rewritten playlist again changes nothing |
| Multer.FileSizeLimitValue | src/middlewares/multer.middleware.js:6 | The size limit is 52428800 bytes (50 MiB) |
| Multer.LastIndex | src/middlewares/multer.middleware.js:14 | The last position of a character, or none when it does not occur |
| Multer.BaseName | src/middlewares/multer.middleware.js:14 | The base name has no `/`. A name without `/` is its own base name |
| Multer.ExtName | src/middlewares/multer.middleware.js:14 | `path.extname` is empty or starts with its only dot. It is a proper suffix of the base name |
| Multer.FileFilter | src/middlewares/multer.middleware.js:13-23 | Accepts iff the extension is one of `.mp4`, `.mov`, `.mkv`. Otherwise it rejects with "Unsupported file type! <ext>" and no status code |
| Multer.AcceptedIff | src/middlewares/multer.middleware.js:13-23 | For a name without `/`: accepted iff it ends in `.mp4`, `.mov` or `.mkv` with something before it |
| Multer.AcceptedHasSuffix | src/middlewares/multer.middleware.js:17-22 | An accepted name ends in an allowed extension with something before it |
| Multer.SuffixAccepted | src/middlewares/multer.middleware.js:17-22 | Such a name is accepted |
| Multer.ExtNameOfSuffix | src/middlewares/multer.middleware.js:14 | A name ending in `.xyz` (`xyz` without a dot) with something before it has extension `.xyz` |
| Multer.NoDotNoExtension | src/middlewares/multer.middleware.js:14 | A name without a dot has no extension |
| Multer.DotFileHasNoExtension | src/middlewares/multer.middleware.js:14 | A dot-file has no extension |
| Multer.InnerDotAccepted | src/middlewares/multer.middleware.js:17-22 | `a.b.mp4` is accepted: only the last dot counts |
| Multer.LastDotRejected | src/middlewares/multer.middleware.js:17-20 | `a.mp4.avi` is rejected, with extension `.avi` |
| Multer.UpperCaseRejected | src/middlewares/multer.middleware.js:17-20 | `clip.MP4` is rejected: the comparison is case-sensitive |
| Multer.NoDotRejected | src/middlewares/multer.middleware.js:17-20 | `movie` is rejected, with an empty extension |
| Multer.DotFileRejected | src/middlewares/multer.middleware.js:17-20 | `.mp4` is rejected, with an empty extension |
| Multer.StoredName | src/middlewares/multer.middleware.js:9-11 | The staged file keeps the original name |
| Multer.MarkerRejected | src/middlewares/multer.middleware.js:13-20 | The filter refuses the name `.gitkeep` |
| Multer.AcceptedIsNotMarker | src/middlewares/multer.middleware.js:9-22 | No accepted upload is stored as `.gitkeep` |
| Host.WithoutPrefix | src/controllers/video.controller.js:156-165 | After a delete by prefix, exactly the assets of that type whose public id starts with the prefix are gone. The others are unchanged |
| Host.AfterTranscode | src/utils/ffmpeg.js:109 | ffmpeg only adds files under its output directory and leaves every other entry alone |
| Host.Host.ExistsSync | src/utils/fileHandler.js:14 | Whether the temp root exists |
| Host.Host.Readdir | src/utils/fileHandler.js:15 | The names of the temp root's entries |
| Host.Host.Lstat | src/utils/fileHandler.js:22 | Whether an entry is a directory. It fails without a status code for a refused or missing entry |
| Host.Host.Rm | src/utils/fileHandler.js:25-28 | `rm -rf` removes the entry unless the OS refuses. A missing entry is no error |
| Host.Host.Unlink | src/utils/fileHandler.js:30 | Removes the file. It fails for a refused or missing entry |
| Host.Host.Mkdir | src/controllers/video.controller.js:30 | `mkdirSync(recursive)` fails only when a file has the name. Otherwise the directory exists afterwards, and an existing one is unchanged |
| Host.Host.ReadFile | src/controllers/video.controller.js:70 | Returns the file's content, or fails without a status code when there is none |
| Host.Host.WriteFile | src/controllers/video.controller.js:99 | Succeeds iff the job directory and the file's parent directory exist and the path is not a directory. It then creates or overwrites exactly that file |
| Host.Host.Transcode | src/utils/ffmpeg.js:12-126 | ffmpeg succeeds iff the input is a file, the output directory exists and the encoder accepts the input's content. It then writes its output files. A run that fails while encoding leaves the partial output the `leftover` oracle chooses; one that cannot open its input or output writes nothing |
| Host.WithOutput | src/utils/ffmpeg.js:106-109 | Writing files under the output directory adds them there and leaves every other top-level entry alone |
| Host.AfterFailedTranscode | src/utils/ffmpeg.js:118-123 | A failed run changes only the output directory, and changes nothing when it could not open its input or output |
| Host.Host.UploadFile | src/controllers/video.controller.js:101-109 | With `overwrite: true`, the asset `folder/publicId` gets the file's content and its `secure_url` is returned. A refused call or missing file changes nothing |
| Host.Host.DeleteResourcesByPrefix | src/controllers/video.controller.js:156-165 | Removes exactly the assets of that type under the prefix, unless the call is refused |
| Host.Host.DeleteFolder | src/controllers/video.controller.js:166 | Changes no asset. It fails only when refused |
| Host.Host.Respond | src/controllers/video.controller.js:38-52 | Sends the reply and changes nothing else |
| VideoController.PredictedUrls | src/controllers/video.controller.js:35-52 | The response names the URLs the playlists will get: the base URL, the public id each playlist is uploaded under and `.m3u8`. They are listed for 360p, 480p and 720p, together with the id and the folder |
| VideoController.SegmentLines | src/controllers/video.controller.js:73-75 | The selected lines are exactly the lines whose trimmed text ends in `.ts` |
| VideoController.PublicIdOfPlainName | src/controllers/video.controller.js:85 | The public id of `stem.ts`, for a stem without a dot, is the stem |
| VideoController.PublicIdAtFirstOccurrence | src/controllers/video.controller.js:85 | The public id is cut at the first `.ts`: `a.tsb.ts` becomes `ab.ts` |
| VideoController.GeneratedSegmentUploaded | src/controllers/video.controller.js:74-85 | Every segment ffmpeg writes is selected for upload, under its stem as public id |
| VideoController.UrlMap | src/controllers/video.controller.js:92-94 | `new Map(pairs)` has exactly the pairs' names as keys |
| VideoController.LastPairWins | src/controllers/video.controller.js:92-94 | For a repeated name, the map keeps the value of the last pair with that name |
| VideoController.UrlMapOfFunction | src/controllers/video.controller.js:92-94 | When every pair's URL is a function of its name, the map sends each key through that function |
| VideoController.UrlMapKeys | src/controllers/video.controller.js:73-94 | The urlMap's keys are the trimmed segment lines: each one is a key, and every key ends in `.ts` |
| VideoController.SegmentNamesAreKeys | src/controllers/video.controller.js:77-94 | Every trimmed segment line is a key of the urlMap |
| VideoController.KeysAreSegmentNames | src/controllers/video.controller.js:77-94 | Every key of the urlMap is a trimmed segment line |
| VideoController.UrlMapValues | src/controllers/video.controller.js:77-94 | Each key is mapped to the URL of that segment file |
| VideoController.SelectedLinesReplaced | src/controllers/video.controller.js:73-96 | A segment line is replaced by its segment's URL, and every other line is left as it is |
| VideoController.VariantPlaylistLines | src/controllers/video.controller.js:70-96 | The published variant playlist, read back, has the lines ffmpeg wrote, in order. Segment lines become URLs and tags and blank lines are unchanged |
| VideoController.VariantPlaylistSplit | src/controllers/video.controller.js:70-96 | Splitting the published playlist gives back the rewritten lines |
| VideoController.SegmentJobs | src/controllers/video.controller.js:78-86 | One upload per segment line, in order: the trimmed file under the variant directory, with its `.ts`-less public id |
| VideoController.UploadAll | src/controllers/video.controller.js:77-90 | Succeeds iff every job's file exists and Cloudinary accepts every call. The URLs come back in job order. Each public id ends up holding the file of the last job with that id. Local files and every asset outside the variant's folder are untouched, on failure too |
| VideoController.RemoteIdInFolder | src/controllers/video.controller.js:84-85 | A segment uploaded under the variant's folder is a video asset inside that folder |
| VideoController.AllStoredFrame | src/controllers/video.controller.js:77-90 | Stored segments stay stored while no asset of their folder changes |
| VideoController.VariantFoldersDisjoint | src/controllers/video.controller.js:84 | The folders `stream_0`..`stream_2` share no asset, so one pass's uploads cannot overwrite another variant's segments |
| VideoController.UploadedResults | src/controllers/video.controller.js:77-90 | The returned URLs paired with the trimmed lines are `uploadResults` |
| VideoController.PlaylistKeysDistinct | src/controllers/video.controller.js:101-128 | The three index playlists and the master playlist are distinct assets, so no upload overwrites another |
| VideoController.UploadAndRewrite | src/controllers/video.controller.js:70-96 | On success, every segment the playlist names is stored as a video asset of the variant's folder holding that segment's file, and the result is the playlist with each segment line replaced by the URL of that asset. Assets outside the folder are untouched |
| VideoController.PublishIndex | src/controllers/video.controller.js:98-112 | On success, `modified.m3u8` and the asset `index` both hold the text and its URL is returned. Otherwise no asset changes. No other local file changes |
| VideoController.ProcessVariant | src/controllers/video.controller.js:58-117 | One pass: a missing playlist fails without touching assets. On success, the variant is published: its segments are stored, and its index holds the published form of ffmpeg's playlist and the same text as `modified.m3u8`. Every asset other than its index and its folder's segments is kept |
| VideoController.PublishedSegmentHolds | src/controllers/video.controller.js:77-96 | In a published variant, the URL that replaces a segment line names an asset holding that segment's file, unless a later segment line has the same public id |
| VideoController.PublishedEntries | src/controllers/video.controller.js:98-99 | A later pass, which writes only its own `modified.m3u8`, keeps an earlier variant published: neither ffmpeg's playlist nor a segment file is at such a path |
| VideoController.PassOrdered | src/controllers/video.controller.js:58-117 | Pass `i` comes after the passes before it: the effects stay in ladder order |
| VideoController.AllPasses | src/controllers/video.controller.js:111-112 | After three passes, `variantPlaylists` maps each `stream_i` to its index URL |
| VideoController.PassDone | src/controllers/video.controller.js:58-117 | A successful pass publishes its variant, segments included, and leaves the earlier ones published |
| VideoController.NextVariant | src/controllers/video.controller.js:58-117 | The loop body keeps the loop invariant: variants `0..i` are published from ffmpeg's playlists |
| VideoController.ProcessVariants | src/controllers/video.controller.js:56-117 | The loop runs its passes in ladder order. On success, all three variants are published and `variantPlaylists` names their index URLs |
| VideoController.AfterMkdir | src/controllers/video.controller.js:30 | `mkdirSync` adds the directory and keeps every other entry |
| VideoController.ReadyTranscodes | src/controllers/video.controller.js:30-54 | With a fresh job directory and the upload present, ffmpeg succeeds exactly when the encoder accepts the upload |
| VideoController.Launch | src/controllers/video.controller.js:27-54 | If mkdir fails, nothing follows it. Otherwise the 200 reply is sent before ffmpeg runs, and the transcoding's outcome decides the result |
| VideoController.Admit | src/controllers/video.controller.js:19-23 | Sweep first, then check for a file. The error is the sweep's or "No video file found" (400) |
| VideoController.Prepare | src/controllers/video.controller.js:19-54 | The steps up to ffmpeg. Nothing is uploaded and the effects come in order. With no upload, the 400 error comes after nothing but removals, so no reply is sent. Success requires the upload to survive the sweep, and then ffmpeg's output is in place and the reply was sent |
| VideoController.PublishMaster | src/controllers/video.controller.js:119-128 | On success, the asset `master` holds `createMasterPlaylist(variantPlaylists)`. It succeeds iff the file can be written and the upload is accepted |
| VideoController.MasterKeepsIndexes | src/controllers/video.controller.js:119-128 | Publishing the master keeps every published index |
| VideoController.Publish | src/controllers/video.controller.js:56-132 | The steps after ffmpeg run in order. On success, every variant's segments and index are published from ffmpeg's files, the master names the three index URLs, and only `.gitkeep` is left in the temp root |
| VideoController.Attempt | src/controllers/video.controller.js:18-134 | The try block. With no upload, only removals happen. When the upload does not survive the first sweep, nothing is uploaded. On success, every variant's segments and index and the master are published from what ffmpeg wrote, the reply was sent and the temp root is clean |
| VideoController.HandlerError | src/controllers/video.controller.js:138-143 | The forwarded error keeps the caught status code (possibly missing) and ends with the caught message |
| VideoController.SweepFailsAgain | src/controllers/video.controller.js:135-137 | When the first sweep failed, the catch block's sweep fails too |
| VideoController.Handle | src/controllers/video.controller.js:17-145 | The whole handler, given the names its first sweep skips. It covers every error path, including a failing catch sweep, and states the success outcome. Every exit leaves nothing in the temp root but `.gitkeep` and entries the OS would not remove. With no upload, only removals happen |
| VideoController.ReadyOnlyIfKept | src/utils/fileHandler.js:19 | The upload survives a successful sweep only when the sweep skips its name |
| VideoController.StagedUploadSwept | src/controllers/video.controller.js:19 | With only `.gitkeep` skipped, a staged upload never survives to ffmpeg |
| VideoController.AcceptedUploadSwept | src/middlewares/multer.middleware.js:8-22 | An upload the filter accepts, staged under its original name, never survives the handler's first sweep to reach ffmpeg |
| VideoController.ProcessAndUploadHLS | src/controllers/video.controller.js:17-145 | As written: with no upload, the forwarded error is the sweep's or "No video file found" and only removals happen. With any upload other than `.gitkeep`, an error is forwarded and nothing is uploaded. Every exit leaves only `.gitkeep` and entries the OS would not remove |
| VideoController.Spared | src/controllers/video.controller.js:19 | The corrected skip set: `.gitkeep` and the staged upload, nothing else |
| VideoController.SparedIsReady | src/controllers/video.controller.js:19 | With the upload spared, a staged file reaches ffmpeg unless another entry blocks the sweep |
| VideoController.ProcessAndUploadHLSSparingUpload | src/controllers/video.controller.js:17-145 | Corrected: a staged file is transcoded when the sweep succeeds and the id is fresh. On success, every variant's segments and index and the master are published from what ffmpeg wrote. Every exit leaves only `.gitkeep` and entries the OS would not remove |
| VideoController.DeleteError | src/controllers/video.controller.js:171-178 | The forwarded error has a non-zero status: the caught one if non-zero, else 500. Its message ends with the caught message |
| VideoController.DeleteVideoUnder | src/controllers/video.controller.js:147-180 | An empty id is forwarded as a 400-derived error with nothing called. Otherwise it succeeds iff none of the three calls is refused, and then exactly the assets under the prefix are gone and the reply comes last. A failure stops at the refused call and sends no reply. Assets only ever disappear, and only under the prefix |
| VideoController.DeleteVideo | src/controllers/video.controller.js:147-180 | As written: the prefix is the folder path without a trailing `/` |
| VideoController.SiblingAssetsMatched | src/controllers/video.controller.js:154 | Every asset of a video whose id extends `a`'s lies under `a`'s as-written prefix |
| VideoController.SiblingPathMatched | src/controllers/video.controller.js:154 | Extending the id extends the folder path |
| VideoController.AssetsUnderVideoPath | src/controllers/video.controller.js:84-126 | Every public id a video publishes is its folder path, `/`, and a rest |
| VideoController.DeleteOfAReachesAB | src/controllers/video.controller.js:154 | Deleting video `a` also matches the master playlist of video `ab` |
| VideoController.DeleteVideoWithinFolder | src/controllers/video.controller.js:147-180 | Corrected: the prefix is the folder path followed by `/`, so only the video's own folder is emptied |
| VideoController.OwnAssetsWithinFolder | src/controllers/video.controller.js:154 | The corrected prefix still covers the video's master, index and segment assets |
| VideoController.FoldersDoNotNest | src/controllers/video.controller.js:154 | For ids without `/`, one public id cannot lie inside two videos' folders |
| VideoController.OtherVideosSpared | src/controllers/video.controller.js:154 | With the corrected prefix, no asset of another video matches |

## Left out

- Logging, the timing of the transcoding and ffmpeg's `start` and `end` events are not modelled: they have no effect on state.
- The encoding is not modelled. What ffmpeg writes is the oracle `Host.encode`, and what a run that fails while encoding leaves behind is the oracle `Host.leftover`. The option array is modelled as data, and only the `error` event is a failure.
- Cloudinary's service is not modelled. Which calls fail, and the `secure_url` each asset gets, are oracles. The options `type: "upload"` and `invalidate: true` have no counterpart.
- `uuidv4` is not modelled: the id is a parameter. That ids are unique across concurrent jobs is therefore not modelled, and neither are several jobs sharing the temp root.
- VideoController.UploadAll: `Promise.all` is modelled one upload at a time in line order, stopping at the first failure. Concurrently, uploads after a failed one may still complete, so on failure the contract states only that no asset outside the variant's folder changed.
- FileHandler.Sweep: states which entries remain and that only removals are logged. It does not state the order of the removals: `readdir` order and the interleaving of `Promise.all` are not modelled.
- FileHandler.Sweep: the failure is reported after every entry has been tried. That is the state once every removal `Promise.all` started has settled. The model does not distinguish the earlier moment at which the promise rejects.
- The two temp directories are modelled as one. `emptyTempDir` finds its directory relative to its own file (`../../public/temp` from `src/utils`), while multer and the controller use `./public/temp` relative to the working directory. They are the same directory when the service runs from the repository root.
- Path handling is simplified: `path.join` normalisation is not modelled. A job path is the job's entry name plus a list of components.
- A reply sent before an error is not modelled further. Once the 200 reply has gone out, a later error is still forwarded to `next`, and what Express then does with a second response is out of scope.
- `ApiError`, `ApiResponse` and `asyncHandler` are imported through `src/utils/index.js`, and their own files are not part of this model. `ApiError` is taken to carry a message and a status code. `${error}` is taken to be `Error: <message>`. `asyncHandler` is taken to pass a rejection to `next`.
- Multer.FileSizeLimitValue: the 50 MiB limit is checked as a constant only. Multer enforces it, and multer's own code is not part of this model.
- Multer.FileFilter: reaching the filter, and what multer does with a rejection, belong to multer.
- Text.Trim: its contract states only that the result is trimmed and no longer than the input. It is defined as `TrimEnd(TrimStart(s))`, whose contracts state exactly what each strips. `Text.TrimPadded` gives its value on padded input.
- Text.IsJsSpace: stands for ECMAScript's WhiteSpace and LineTerminator characters, which are the ones `trim` removes, as of the Unicode version the set lists.
- `fs.readFileSync` with `"utf8"` is modelled as returning the text. Decoding is not modelled.

## Findings

| source | as written | input that shows it | evidently intended | confidence | as-written member | corrected member |
|---|---|---|---|---|---|---|
| src/controllers/video.controller.js:19 | The first `emptyTempDir()` removes every entry of the temp root except `.gitkeep`, including the upload multer has just staged there. ffmpeg is then run on a file that no longer exists | Any accepted upload, e.g. `clip.mp4`: the sweep removes it, ffmpeg fails and an error is forwarded. Nothing is ever uploaded | Clear leftovers but spare the staged upload, so that ffmpeg can read it | high, not executed | VideoController.ProcessAndUploadHLS, VideoController.StagedUploadSwept, VideoController.AcceptedUploadSwept | VideoController.ProcessAndUploadHLSSparingUpload, VideoController.SparedIsReady |
| src/controllers/video.controller.js:154 | The delete prefix is `folder/videoId` with no trailing `/`, so it matches every public id that starts with that text | `DELETE` with id `a` while video `ab` exists deletes `ab`'s master, index and segments. Generated ids all have the same length, so in practice the request has to name a truncated id | Delete only inside the video's folder: prefix `folder/videoId/` | medium, not executed | VideoController.DeleteVideo, VideoController.SiblingAssetsMatched, VideoController.DeleteOfAReachesAB | VideoController.DeleteVideoWithinFolder, VideoController.OwnAssetsWithinFolder, VideoController.OtherVideosSpared |
