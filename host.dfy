/** What the service's code talks to but does not contain: the local directory `./public/temp`
    (Node's `fs`), the Cloudinary account, the ffmpeg process and the Express response. Each
    call is a method whose outcome is fixed by the host's state and by constant "oracles"
    (which entries the OS refuses to touch, which Cloudinary calls fail, what ffmpeg writes and
    which URL Cloudinary hands back), so every property proved about the service holds for
    every choice of them. Every call is appended, in order, to `log`. */
module Host {

  import opened Errors
  import opened Text

  /** An entry directly under the temp root. A directory holds files and subdirectories, each
      addressed by its path relative to that directory. */
  datatype Entry = File(content: string) | Dir(files: map<seq<string>, string>, dirs: set<seq<string>>)

  datatype ResourceType = Raw | Video

  /** A stored Cloudinary asset: its resource type and its full public id (`folder/name`). */
  datatype AssetKey = AssetKey(kind: ResourceType, publicId: string)

  /** A Cloudinary API call, as the failure oracle names it. */
  datatype CloudCall =
    | UploadCall(kind: ResourceType, folder: string, publicId: string)
    | DeleteByPrefixCall(kind: ResourceType, prefix: string)
    | DeleteFolderCall(folder: string)

  /** The JSON bodies the controller sends. */
  datatype Reply =
    | HlsAccepted(message: string, masterUrl: string, variantUrls: seq<(string, string)>,
                  videoId: string, videoPath: string)
    | Deleted(message: string)

  /** One observable call, in the order made (failed attempts included). */
  datatype Effect =
    | Removed(name: string)
    | MadeDir(name: string)
    | Read(dir: string, rel: seq<string>)
    | Wrote(dir: string, rel: seq<string>)
    | Transcoded(input: string, output: string)
    | Uploaded(kind: ResourceType, folder: string, publicId: string)
    | DeletedByPrefix(kind: ResourceType, prefix: string)
    | DeletedFolder(folder: string)
    | Responded(status: int, reply: Reply)

  /** Cloudinary's public id of an asset uploaded with `folder` and `public_id`. */
  function RemoteId(folder: string, publicId: string): string {
    folder + "/" + publicId
  }

  /** Every proper ancestor directory of the given relative file paths. */
  function Parents(files: map<seq<string>, string>): set<seq<string>> {
    set p, k | p in files && 1 <= k < |p| :: p[..k]
  }

  /** What `delete_resources_by_prefix(prefix, {resource_type: kind})` leaves: every asset of
      another type, or whose public id does not start with `prefix`. */
  function WithoutPrefix(assets: map<AssetKey, string>, kind: ResourceType, prefix: string): (r: map<AssetKey, string>)
    ensures forall k :: k in r <==> k in assets && !(k.kind == kind && StartsWith(k.publicId, prefix))
    ensures forall k :: k in r ==> r[k] == assets[k]
  {
    map k | k in assets && !(k.kind == kind && StartsWith(k.publicId, prefix)) :: assets[k]
  }

  /** The content of `rel` inside the top-level directory `dir`, if there is such a file. */
  function FileAt(entries: map<string, Entry>, dir: string, rel: seq<string>): Option<string> {
    if dir in entries && entries[dir].Dir? && rel in entries[dir].files
    then Some(entries[dir].files[rel]) else None
  }

  /** Whether one ffmpeg run reading the top-level file `input` and writing under the
      top-level directory `output` succeeds. */
  predicate CanTranscode(entries: map<string, Entry>, encode: string -> Result<map<seq<string>, string>, string>,
                         input: string, output: string)
  {
    input in entries && entries[input].File? && output in entries && entries[output].Dir? &&
    encode(entries[input].content).Success?
  }

  /** The entries after ffmpeg wrote the files `out` under the top-level directory `output`:
      the files, and their parent directories, are added to it. */
  function WithOutput(entries: map<string, Entry>, output: string, out: map<seq<string>, string>): (r: map<string, Entry>)
    requires output in entries && entries[output].Dir?
    ensures r.Keys == entries.Keys
    ensures forall n :: n in entries && n != output ==> r[n] == entries[n]
    ensures r[output].Dir? && entries[output].files.Keys <= r[output].files.Keys
    ensures forall p :: p in out ==> p in r[output].files && r[output].files[p] == out[p]
  {
    var d := entries[output];
    entries[output := Dir(d.files + out, d.dirs + Parents(out))]
  }

  /** The entries after a successful run: ffmpeg's files are added to the output directory. */
  function AfterTranscode(entries: map<string, Entry>, encode: string -> Result<map<seq<string>, string>, string>,
                          input: string, output: string): (r: map<string, Entry>)
    requires CanTranscode(entries, encode, input, output)
    ensures r.Keys == entries.Keys
    ensures forall n :: n in entries && n != output ==> r[n] == entries[n]
    ensures r[output].Dir? && entries[output].files.Keys <= r[output].files.Keys
    ensures forall p :: p in encode(entries[input].content).value ==>
      p in r[output].files && r[output].files[p] == encode(entries[input].content).value[p]
  {
    WithOutput(entries, output, encode(entries[input].content).value)
  }

  /** The entries after a failed run. A run that could not open its input or its output
      directory writes nothing; one that failed while encoding leaves the files `leftover`
      chooses for the input's content under the output directory. */
  function AfterFailedTranscode(entries: map<string, Entry>, leftover: string -> map<seq<string>, string>,
                                input: string, output: string): (r: map<string, Entry>)
    ensures r.Keys == entries.Keys
    ensures forall n :: n in entries && n != output ==> r[n] == entries[n]
    ensures !(input in entries && entries[input].File? && output in entries && entries[output].Dir?) ==> r == entries
  {
    if input in entries && entries[input].File? && output in entries && entries[output].Dir?
    then WithOutput(entries, output, leftover(entries[input].content))
    else entries
  }

  class Host {
    var rootExists: bool
    var entries: map<string, Entry>
    /** Top-level entries whose `lstat` or removal the OS refuses (busy, no permission). */
    const locked: set<string>
    var assets: map<AssetKey, string>
    /** The Cloudinary calls that fail, each with the `statusCode` its error carries, if any. */
    const refused: map<CloudCall, Option<int>>
    /** The `secure_url` Cloudinary reports for a stored asset. */
    const secureUrl: AssetKey -> string
    /** What ffmpeg does with an input file's content: the files it writes under the output
        directory, or the message of the error it reports. */
    const encode: string -> Result<map<seq<string>, string>, string>
    /** The files a run that fails while encoding leaves under the output directory. */
    const leftover: string -> map<seq<string>, string>
    var log: seq<Effect>

    /** The temp root holds nothing while it does not exist. */
    ghost predicate Valid()
      reads this
    {
      rootExists || entries == map[]
    }

    constructor (rootExists: bool, entries: map<string, Entry>, locked: set<string>,
                 assets: map<AssetKey, string>, refused: map<CloudCall, Option<int>>,
                 secureUrl: AssetKey -> string,
                 encode: string -> Result<map<seq<string>, string>, string>,
                 leftover: string -> map<seq<string>, string>)
      requires rootExists || entries == map[]
      ensures Valid()
      ensures this.rootExists == rootExists && this.entries == entries && this.locked == locked
      ensures this.assets == assets && this.refused == refused
      ensures this.secureUrl == secureUrl && this.encode == encode && this.leftover == leftover
      ensures log == []
    {
      this.rootExists := rootExists;
      this.entries := entries;
      this.locked := locked;
      this.assets := assets;
      this.refused := refused;
      this.secureUrl := secureUrl;
      this.encode := encode;
      this.leftover := leftover;
      this.log := [];
    }

    /** `fs.existsSync` on the temp root. */
    method ExistsSync() returns (b: bool)
      ensures b == rootExists
    {
      b := rootExists;
    }

    /** `fs.promises.readdir` on the temp root: the names of its entries. */
    method Readdir() returns (items: set<string>)
      ensures items == entries.Keys
    {
      items := entries.Keys;
    }

    /** `fs.promises.lstat` of a top-level entry: whether it is a directory. */
    method Lstat(name: string) returns (r: Result<bool, ApiError>)
      ensures name in locked || name !in entries ==> r.Failure? && r.error.statusCode.None?
      ensures name !in locked && name in entries ==> r == Success(entries[name].Dir?)
    {
      if name in locked || name !in entries {
        r := Failure(ApiError("lstat '" + name + "' failed", None));
      } else {
        r := Success(entries[name].Dir?);
      }
    }

    /** `fs.promises.rm(entry, {recursive: true, force: true})`. */
    method Rm(name: string) returns (err: Option<ApiError>)
      modifies this
      ensures rootExists == old(rootExists) && assets == old(assets)
      ensures log == old(log) + [Removed(name)]
      ensures name in locked ==> err.Some? && entries == old(entries)
      ensures name !in locked ==> err.None? && entries == old(entries) - {name}
    {
      log := log + [Removed(name)];
      if name in locked {
        err := Some(ApiError("rm '" + name + "' failed", None));
      } else {
        entries := entries - {name};
        err := None;
      }
    }

    /** `fs.promises.unlink` of a top-level file. */
    method Unlink(name: string) returns (err: Option<ApiError>)
      modifies this
      ensures rootExists == old(rootExists) && assets == old(assets)
      ensures log == old(log) + [Removed(name)]
      ensures name in locked || name !in old(entries) ==> err.Some? && entries == old(entries)
      ensures name !in locked && name in old(entries) ==> err.None? && entries == old(entries) - {name}
    {
      log := log + [Removed(name)];
      if name in locked || name !in entries {
        err := Some(ApiError("unlink '" + name + "' failed", None));
      } else {
        entries := entries - {name};
        err := None;
      }
    }

    /** `fs.mkdirSync(temp/name, {recursive: true})`: creates the root and the directory when
        missing, keeps an existing directory, and fails when a file is in the way. */
    method Mkdir(name: string) returns (err: Option<ApiError>)
      requires Valid()
      modifies this
      ensures Valid() && assets == old(assets)
      ensures log == old(log) + [MadeDir(name)]
      ensures name in old(entries) && old(entries)[name].File? ==>
        err.Some? && entries == old(entries) && rootExists == old(rootExists)
      ensures !(name in old(entries) && old(entries)[name].File?) ==>
        && err.None? && rootExists
        && entries == (if name in old(entries) then old(entries) else old(entries)[name := Dir(map[], {})])
    {
      log := log + [MadeDir(name)];
      if name in entries && entries[name].File? {
        err := Some(ApiError("EEXIST: file already exists, mkdir '" + name + "'", None));
      } else {
        rootExists := true;
        if name !in entries {
          entries := entries[name := Dir(map[], {})];
        }
        err := None;
      }
    }

    /** `fs.readFileSync(temp/dir/rel, "utf8")`. */
    method ReadFile(dir: string, rel: seq<string>) returns (r: Result<string, ApiError>)
      modifies this
      ensures rootExists == old(rootExists) && entries == old(entries) && assets == old(assets)
      ensures log == old(log) + [Read(dir, rel)]
      ensures FileAt(entries, dir, rel).None? ==> r.Failure? && r.error.statusCode.None?
      ensures FileAt(entries, dir, rel).Some? ==> r == Success(FileAt(entries, dir, rel).value)
    {
      log := log + [Read(dir, rel)];
      if dir in entries && entries[dir].Dir? && rel in entries[dir].files {
        r := Success(entries[dir].files[rel]);
      } else {
        r := Failure(ApiError("ENOENT: no such file or directory, open '" + dir + "'", None));
      }
    }

    /** Whether `fs.writeFileSync(temp/dir/rel)` can create or replace that file: the directory
        and the file's parent exist, and `rel` is not itself a directory. */
    predicate Writable(dir: string, rel: seq<string>)
      reads this
      requires |rel| >= 1
    {
      dir in entries && entries[dir].Dir? &&
      (|rel| == 1 || rel[..|rel| - 1] in entries[dir].dirs) && rel !in entries[dir].dirs
    }

    /** `fs.writeFileSync(temp/dir/rel, content)`. */
    method WriteFile(dir: string, rel: seq<string>, content: string) returns (err: Option<ApiError>)
      requires Valid() && |rel| >= 1
      modifies this
      ensures Valid() && rootExists == old(rootExists) && assets == old(assets)
      ensures log == old(log) + [Wrote(dir, rel)]
      ensures err.None? <==> old(Writable(dir, rel))
      ensures err.Some? ==> entries == old(entries) && err.value.statusCode.None?
      ensures err.None? ==>
        entries == old(entries)[dir := Dir(old(entries)[dir].files[rel := content], old(entries)[dir].dirs)]
    {
      log := log + [Wrote(dir, rel)];
      if Writable(dir, rel) {
        var d := entries[dir];
        entries := entries[dir := Dir(d.files[rel := content], d.dirs)];
        err := None;
      } else {
        err := Some(ApiError("ENOENT: no such file or directory, open '" + dir + "'", None));
      }
    }

    /** One ffmpeg run reading the top-level file `input` and writing under the top-level
        directory `output`; on failure, ffmpeg's error message. */
    method Transcode(input: string, output: string) returns (err: Option<string>)
      requires Valid()
      modifies this
      ensures Valid() && rootExists == old(rootExists) && assets == old(assets)
      ensures log == old(log) + [Transcoded(input, output)]
      ensures err.None? <==> CanTranscode(old(entries), encode, input, output)
      ensures err.None? ==> entries == AfterTranscode(old(entries), encode, input, output)
      ensures err.Some? ==> entries == AfterFailedTranscode(old(entries), leftover, input, output)
    {
      log := log + [Transcoded(input, output)];
      if input !in entries || !entries[input].File? {
        err := Some(input + ": No such file or directory");
      } else if output !in entries || !entries[output].Dir? {
        err := Some(output + ": No such file or directory");
      } else {
        match encode(entries[input].content)
        case Failure(msg) =>
          entries := WithOutput(entries, output, leftover(entries[input].content));
          err := Some(msg);
        case Success(out) =>
          entries := WithOutput(entries, output, out);
          err := None;
      }
    }

    /** `cloudinary.uploader.upload(temp/dir/rel, {resource_type: kind, folder, public_id,
        overwrite: true})`: stores the local file's content and returns its `secure_url`. */
    method UploadFile(kind: ResourceType, dir: string, rel: seq<string>, folder: string, publicId: string)
      returns (r: Result<string, ApiError>)
      modifies this
      ensures rootExists == old(rootExists) && entries == old(entries)
      ensures log == old(log) + [Uploaded(kind, folder, publicId)]
      ensures var key := AssetKey(kind, RemoteId(folder, publicId));
        var ok := FileAt(entries, dir, rel).Some? && UploadCall(kind, folder, publicId) !in refused;
        && (r.Success? <==> ok)
        && (ok ==> r.value == secureUrl(key) && assets == old(assets)[key := FileAt(entries, dir, rel).value])
        && (!ok ==> assets == old(assets))
        && (FileAt(entries, dir, rel).Some? && !ok ==>
              r.error.statusCode == refused[UploadCall(kind, folder, publicId)])
    {
      log := log + [Uploaded(kind, folder, publicId)];
      var call := UploadCall(kind, folder, publicId);
      if !(dir in entries && entries[dir].Dir? && rel in entries[dir].files) {
        r := Failure(ApiError("ENOENT: no such file or directory, open '" + dir + "'", None));
      } else if call in refused {
        r := Failure(ApiError("Cloudinary upload failed", refused[call]));
      } else {
        var key := AssetKey(kind, RemoteId(folder, publicId));
        assets := assets[key := entries[dir].files[rel]];
        r := Success(secureUrl(key));
      }
    }

    /** `cloudinary.api.delete_resources_by_prefix(prefix, {resource_type: kind})`. */
    method DeleteResourcesByPrefix(kind: ResourceType, prefix: string) returns (err: Option<ApiError>)
      modifies this
      ensures rootExists == old(rootExists) && entries == old(entries)
      ensures log == old(log) + [DeletedByPrefix(kind, prefix)]
      ensures DeleteByPrefixCall(kind, prefix) in refused ==>
        err == Some(ApiError("Cloudinary delete failed", refused[DeleteByPrefixCall(kind, prefix)])) && assets == old(assets)
      ensures DeleteByPrefixCall(kind, prefix) !in refused ==>
        err.None? && assets == WithoutPrefix(old(assets), kind, prefix)
    {
      log := log + [DeletedByPrefix(kind, prefix)];
      var call := DeleteByPrefixCall(kind, prefix);
      if call in refused {
        err := Some(ApiError("Cloudinary delete failed", refused[call]));
      } else {
        assets := WithoutPrefix(assets, kind, prefix);
        err := None;
      }
    }

    /** `cloudinary.api.delete_folder(folder)`. */
    method DeleteFolder(folder: string) returns (err: Option<ApiError>)
      modifies this
      ensures rootExists == old(rootExists) && entries == old(entries) && assets == old(assets)
      ensures log == old(log) + [DeletedFolder(folder)]
      ensures DeleteFolderCall(folder) in refused ==>
        err == Some(ApiError("Cloudinary delete failed", refused[DeleteFolderCall(folder)]))
      ensures DeleteFolderCall(folder) !in refused ==> err.None?
    {
      log := log + [DeletedFolder(folder)];
      var call := DeleteFolderCall(folder);
      if call in refused {
        err := Some(ApiError("Cloudinary delete failed", refused[call]));
      } else {
        err := None;
      }
    }

    /** `res.status(status).json(reply)`. */
    method Respond(status: int, reply: Reply)
      modifies this
      ensures rootExists == old(rootExists) && entries == old(entries) && assets == old(assets)
      ensures log == old(log) + [Responded(status, reply)]
    {
      log := log + [Responded(status, reply)];
    }
  }
}
