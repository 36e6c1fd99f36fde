/**
 * The transcription handler `transcribe_audio`: one object-created event
 * is downloaded from the object store into /tmp, transcribed by the
 * speech model, optionally uploaded as text to the transcript bucket, and
 * the local file is removed.
 *
 * The object store and the local file system are maps; the speech model is
 * a function from the downloaded object to its segment texts, or `None`
 * when it raises. Whether the upload raises is a parameter of each call.
 */
module Handler {
  import opened Wrappers
  import opened Transcription
  import opened PosixPath

  /** A blob in the object store: a bucket and an object name. */
  datatype BlobKey = BlobKey(bucket: string, name: string)

  /** Stored content: downloaded audio bytes, or an uploaded text. */
  datatype Content = Bytes(data: seq<bv8>) | Text(text: string)

  /** The object store and the local file system the handler touches. */
  datatype World = World(store: map<BlobKey, Content>, files: map<string, Content>)

  /**
   * What is fixed when the process starts: `TRANSCRIPT_BUCKET_NAME` from the
   * environment (`None` when unset) and the loaded speech model.
   */
  datatype Config = Config(transcriptBucket: Option<string>, model: Content -> Option<seq<string>>)

  /** The exception that ends a failing call. */
  datatype Failure =
    | MissingKey(key: string)          // `message['bucket']` or `message['name']` raises KeyError
    | IsADirectory(path: string)        // the temp path names a directory, so it cannot be opened for writing
    | NotFound(source: BlobKey)         // the download finds no such object
    | TranscriptionFailed(path: string) // the speech model raises
    | UploadFailed(destination: BlobKey)

  datatype Response = Ok(body: string, status: int) | Raised(failure: Failure)

  /** The externally visible steps, in the order they are attempted. */
  datatype Effect =
    | Download(source: BlobKey, path: string)
    | Transcribe(path: string)
    | Upload(destination: BlobKey)
    | Remove(path: string)

  datatype Outcome = Outcome(response: Response, world: World, effects: seq<Effect>)

  /** `if TRANSCRIPT_BUCKET_NAME:` — set and non-empty. */
  predicate Configured(bucket: Option<string>)
  {
    bucket.Some? && bucket.value != ""
  }

  /** Where the transcript of object `name` goes; the source bucket plays no part. */
  function Destination(transcriptBucket: string, name: string): BlobKey
  {
    BlobKey(transcriptBucket, TranscriptName(name))
  }

  /** Maps `a` and `b` agree everywhere except possibly at key `k`. */
  ghost predicate AgreeExcept<K, V>(a: map<K, V>, b: map<K, V>, k: K)
  {
    (forall q :: q in a && q != k ==> q in b && b[q] == a[q]) &&
    (forall q :: q in b && q != k ==> q in a)
  }

  /** Reading `message['bucket']` and then `message['name']`. */
  datatype Event = Event(source: BlobKey) | Malformed(missing: string)

  function ParseEvent(message: map<string, string>): (e: Event)
    ensures e.Event? <==> "bucket" in message && "name" in message
    ensures e.Event? ==> e.source == BlobKey(message["bucket"], message["name"])
    ensures e.Malformed? ==> e.missing == (if "bucket" !in message then "bucket" else "name")
  {
    if "bucket" !in message then Malformed("bucket")
    else if "name" !in message then Malformed("name")
    else Event(BlobKey(message["bucket"], message["name"]))
  }

  /**
   * One call of the handler, as a function of the state before it. The
   * message fields are read first, so a missing field fails with no effect
   * at all.
   */
  function Handle(cfg: Config, w: World, message: map<string, string>, uploadOk: bool): (o: Outcome)
    ensures ParseEvent(message).Malformed? ==>
      o == Outcome(Raised(MissingKey(ParseEvent(message).missing)), w, [])
  {
    match ParseEvent(message)
    case Malformed(key) => Outcome(Raised(MissingKey(key)), w, [])
    case Event(source) => Run(cfg, w, source, uploadOk)
  }

  /**
   * The handler once the event is parsed: download, transcribe, upload if a
   * transcript bucket is configured, remove the temp file. There is no
   * `try`/`finally`, so a failure in the model or the upload leaves the
   * downloaded file in /tmp.
   */
  function Run(cfg: Config, w: World, source: BlobKey, uploadOk: bool): (o: Outcome)
    // Success exactly when the temp path can be opened as a file, the object
    // exists, the model succeeds, and the upload succeeds or is not attempted.
    ensures o.response.Ok? <==>
      !NamesDirectory(TempPath(source.name)) && source in w.store && cfg.model(w.store[source]).Some? &&
      (Configured(cfg.transcriptBucket) ==> uploadOk)
    ensures o.response.Ok? ==> o.response == Ok("OK", 204)
    // Only the temp path of the local file system can change; it is gone on
    // success and after a missing object, and still holds the download after
    // a model or upload failure.
    ensures AgreeExcept(w.files, o.world.files, TempPath(source.name))
    ensures o.response.Ok? ==> TempPath(source.name) !in o.world.files
    ensures o.response.Raised? && (o.response.failure.TranscriptionFailed? || o.response.failure.UploadFailed?) ==>
      source in w.store && TempPath(source.name) in o.world.files &&
      o.world.files[TempPath(source.name)] == w.store[source]
    // A temp path naming a directory fails first and changes nothing; a
    // missing object deletes the file the download had opened.
    ensures (o.response.Raised? && o.response.failure.IsADirectory?) <==> NamesDirectory(TempPath(source.name))
    ensures o.response.Raised? && o.response.failure.IsADirectory? ==> o.world == w
    ensures o.response.Raised? && o.response.failure.NotFound? ==>
      source !in w.store && o.world == World(w.store, w.files - {TempPath(source.name)})
    // The store changes only by the upload, only at the destination key,
    // and only when a transcript bucket is configured and the call succeeds.
    ensures o.response.Ok? && Configured(cfg.transcriptBucket) ==>
      o.world.store == w.store[Destination(cfg.transcriptBucket.value, source.name) :=
                               Text(Transcript(cfg.model(w.store[source]).value))]
    ensures !(o.response.Ok? && Configured(cfg.transcriptBucket)) ==> o.world.store == w.store
  {
    var tmp := TempPath(source.name);
    if NamesDirectory(tmp) then
      Outcome(Raised(IsADirectory(tmp)), w, [Download(source, tmp)])
    else if source !in w.store then
      Outcome(Raised(NotFound(source)), World(w.store, w.files - {tmp}), [Download(source, tmp)])
    else
      var o := Transcribed(cfg, World(w.store, w.files[tmp := w.store[source]]), source, uploadOk);
      Outcome(o.response, o.world, [Download(source, tmp)] + o.effects)
  }

  /** The steps after the download: run the model on the temp file. */
  function Transcribed(cfg: Config, w: World, source: BlobKey, uploadOk: bool): Outcome
    requires TempPath(source.name) in w.files
  {
    var tmp := TempPath(source.name);
    var segments := cfg.model(w.files[tmp]);
    if segments.None? then Outcome(Raised(TranscriptionFailed(tmp)), w, [Transcribe(tmp)])
    else
      var o := Uploaded(cfg, w, source, Transcript(segments.value), uploadOk);
      Outcome(o.response, o.world, [Transcribe(tmp)] + o.effects)
  }

  /** The steps after transcription: upload if a bucket is configured, then remove the temp file. */
  function Uploaded(cfg: Config, w: World, source: BlobKey, transcript: string, uploadOk: bool): Outcome
    requires TempPath(source.name) in w.files
  {
    var tmp := TempPath(source.name);
    if Configured(cfg.transcriptBucket) then
      var destination := Destination(cfg.transcriptBucket.value, source.name);
      if !uploadOk then Outcome(Raised(UploadFailed(destination)), w, [Upload(destination)])
      else Outcome(Ok("OK", 204), World(w.store[destination := Text(transcript)], w.files - {tmp}),
                   [Upload(destination), Remove(tmp)])
    else Outcome(Ok("OK", 204), World(w.store, w.files - {tmp}), [Remove(tmp)])
  }

  /** A missing object raises `NotFound` and deletes the file the download opened. */
  lemma RunMissingObject(cfg: Config, w: World, source: BlobKey, uploadOk: bool)
    requires !NamesDirectory(TempPath(source.name)) && source !in w.store
    ensures Run(cfg, w, source, uploadOk).response == Raised(NotFound(source))
    ensures Run(cfg, w, source, uploadOk).world == World(w.store, w.files - {TempPath(source.name)})
  {
    RunWithoutDownload(cfg, w, source, uploadOk);
  }

  /**
   * When the model raises, the call raises `TranscriptionFailed`; the store
   * is unchanged and the temp file still holds the download.
   */
  lemma RunModelFails(cfg: Config, w: World, source: BlobKey, uploadOk: bool)
    requires !NamesDirectory(TempPath(source.name)) && source in w.store
    requires cfg.model(w.store[source]).None?
    ensures var tmp := TempPath(source.name);
      Run(cfg, w, source, uploadOk).response == Raised(TranscriptionFailed(tmp)) &&
      Run(cfg, w, source, uploadOk).world == World(w.store, w.files[tmp := w.store[source]])
  {
    RunAfterDownload(cfg, w, source, uploadOk);
  }

  /**
   * When the upload to a configured bucket raises, the call raises
   * `UploadFailed`; the store is unchanged and the temp file still holds
   * the download.
   */
  lemma RunUploadFails(cfg: Config, w: World, source: BlobKey)
    requires !NamesDirectory(TempPath(source.name)) && source in w.store
    requires cfg.model(w.store[source]).Some? && Configured(cfg.transcriptBucket)
    ensures var tmp := TempPath(source.name);
      Run(cfg, w, source, false).response ==
        Raised(UploadFailed(Destination(cfg.transcriptBucket.value, source.name))) &&
      Run(cfg, w, source, false).world == World(w.store, w.files[tmp := w.store[source]])
  {
    RunAfterDownload(cfg, w, source, false);
  }

  /** The download is always the first step. */
  lemma RunDownloadsFirst(cfg: Config, w: World, source: BlobKey, uploadOk: bool)
    ensures var o := Run(cfg, w, source, uploadOk);
      |o.effects| >= 1 && o.effects[0] == Download(source, TempPath(source.name))
  {
  }

  /**
   * The third step is the upload, attempted if and only if transcription
   * succeeded and a transcript bucket is configured.
   */
  lemma RunAttemptsUpload(cfg: Config, w: World, source: BlobKey, uploadOk: bool)
    ensures var o := Run(cfg, w, source, uploadOk);
      (|o.effects| >= 3 && o.effects[2].Upload?) <==>
        !NamesDirectory(TempPath(source.name)) && source in w.store &&
        cfg.model(w.store[source]).Some? && Configured(cfg.transcriptBucket)
  {
    var tmp := TempPath(source.name);
    if !NamesDirectory(tmp) && source in w.store {
      var downloaded := World(w.store, w.files[tmp := w.store[source]]);
      assert downloaded.files[tmp] == w.store[source];
      RunAfterDownload(cfg, w, source, uploadOk);
      TranscribedAttemptsUpload(cfg, downloaded, source, uploadOk);
      var t := Transcribed(cfg, downloaded, source, uploadOk);
      var effects := [Download(source, tmp)] + t.effects;
      assert |effects| == |t.effects| + 1;
      assert |t.effects| >= 2 ==> effects[2] == t.effects[1];
    } else {
      RunWithoutDownload(cfg, w, source, uploadOk);
    }
  }

  /** `RunAttemptsUpload` for the steps after the download. */
  lemma TranscribedAttemptsUpload(cfg: Config, w: World, source: BlobKey, uploadOk: bool)
    requires TempPath(source.name) in w.files
    ensures var t := Transcribed(cfg, w, source, uploadOk);
      (|t.effects| >= 2 && t.effects[1].Upload?) <==>
        cfg.model(w.files[TempPath(source.name)]).Some? && Configured(cfg.transcriptBucket)
  {
    var segments := cfg.model(w.files[TempPath(source.name)]);
    if segments.Some? {
      UploadedSteps(cfg, w, source, Transcript(segments.value), uploadOk);
    }
  }

  /** A failing call never reaches the removal of the temp file. */
  lemma RunFailureSkipsRemove(cfg: Config, w: World, source: BlobKey, uploadOk: bool)
    ensures var o := Run(cfg, w, source, uploadOk);
      o.response.Raised? ==> forall i :: 0 <= i < |o.effects| ==> !o.effects[i].Remove?
  {
    var tmp := TempPath(source.name);
    if !NamesDirectory(tmp) && source in w.store {
      var downloaded := World(w.store, w.files[tmp := w.store[source]]);
      RunAfterDownload(cfg, w, source, uploadOk);
      TranscribedFailureSkipsRemove(cfg, downloaded, source, uploadOk);
      NoRemoveAfterDownload(source, tmp, Transcribed(cfg, downloaded, source, uploadOk).effects);
    } else {
      RunWithoutDownload(cfg, w, source, uploadOk);
    }
  }

  /** When the download fails, it is the only step. */
  lemma RunWithoutDownload(cfg: Config, w: World, source: BlobKey, uploadOk: bool)
    requires NamesDirectory(TempPath(source.name)) || source !in w.store
    ensures var tmp := TempPath(source.name);
      Run(cfg, w, source, uploadOk) ==
        if NamesDirectory(tmp) then Outcome(Raised(IsADirectory(tmp)), w, [Download(source, tmp)])
        else Outcome(Raised(NotFound(source)), World(w.store, w.files - {tmp}), [Download(source, tmp)])
  {
  }

  /** Putting a download in front of steps without a removal adds none. */
  lemma NoRemoveAfterDownload(source: BlobKey, path: string, steps: seq<Effect>)
    ensures (forall i :: 0 <= i < |steps| ==> !steps[i].Remove?) ==>
      var effects := [Download(source, path)] + steps;
      forall i :: 0 <= i < |effects| ==> !effects[i].Remove?
  {
    var effects := [Download(source, path)] + steps;
    assert forall i :: 1 <= i < |effects| ==> effects[i] == steps[i - 1];
  }

  /** Once the object is downloaded, `Run` is the download followed by `Transcribed`. */
  lemma RunAfterDownload(cfg: Config, w: World, source: BlobKey, uploadOk: bool)
    requires !NamesDirectory(TempPath(source.name)) && source in w.store
    ensures var tmp := TempPath(source.name);
      var t := Transcribed(cfg, World(w.store, w.files[tmp := w.store[source]]), source, uploadOk);
      Run(cfg, w, source, uploadOk) == Outcome(t.response, t.world, [Download(source, tmp)] + t.effects)
  {
  }

  /** `RunFailureSkipsRemove` for the steps after the download. */
  lemma TranscribedFailureSkipsRemove(cfg: Config, w: World, source: BlobKey, uploadOk: bool)
    requires TempPath(source.name) in w.files
    ensures var t := Transcribed(cfg, w, source, uploadOk);
      t.response.Raised? ==> forall i :: 0 <= i < |t.effects| ==> !t.effects[i].Remove?
  {
    var tmp := TempPath(source.name);
    var segments := cfg.model(w.files[tmp]);
    if segments.Some? {
      UploadedSteps(cfg, w, source, Transcript(segments.value), uploadOk);
    }
  }

  /** The steps after transcription: the upload when configured, and the removal only on success. */
  lemma UploadedSteps(cfg: Config, w: World, source: BlobKey, transcript: string, uploadOk: bool)
    requires TempPath(source.name) in w.files
    ensures var o, tmp := Uploaded(cfg, w, source, transcript, uploadOk), TempPath(source.name);
      |o.effects| >= 1 && (o.effects[0].Upload? <==> Configured(cfg.transcriptBucket)) &&
      (o.response.Raised? ==> o.effects == [Upload(Destination(cfg.transcriptBucket.value, source.name))]) &&
      (o.response.Ok? ==> o.effects[|o.effects| - 1] == Remove(tmp))
  {
  }

  /** The steps of a successful call, in order. */
  lemma RunSuccessSteps(cfg: Config, w: World, source: BlobKey, uploadOk: bool)
    requires Run(cfg, w, source, uploadOk).response.Ok?
    ensures var tmp := TempPath(source.name);
      Run(cfg, w, source, uploadOk).effects ==
        [Download(source, tmp), Transcribe(tmp)] +
        (if Configured(cfg.transcriptBucket)
         then [Upload(Destination(cfg.transcriptBucket.value, source.name))] else []) +
        [Remove(tmp)]
  {
  }

  /**
   * Re-delivering a handled event writes the same transcript to the same
   * key again and leaves the store and the local files as the first call
   * left them, provided the transcript does not overwrite its own source.
   */
  lemma RerunIsIdempotent(cfg: Config, w: World, message: map<string, string>)
    requires Handle(cfg, w, message, true).response.Ok?
    requires Configured(cfg.transcriptBucket) ==>
      Destination(cfg.transcriptBucket.value, message["name"]) != BlobKey(message["bucket"], message["name"])
    ensures var first := Handle(cfg, w, message, true);
      Handle(cfg, first.world, message, true) == first
  {
  }

  /**
   * When the transcript bucket is the source bucket and the source is a
   * top-level `<stem>.txt` (`a.b.txt` too), the transcript key is the source key: the call
   * replaces the object it was triggered by.
   */
  lemma TranscriptOverwritesSource(cfg: Config, w: World, stem: string, uploadOk: bool)
    requires '/' !in stem && exists k :: 0 <= k < |stem| && stem[k] != '.'
    requires Configured(cfg.transcriptBucket)
    requires Run(cfg, w, BlobKey(cfg.transcriptBucket.value, stem + ".txt"), uploadOk).response.Ok?
    ensures var source := BlobKey(cfg.transcriptBucket.value, stem + ".txt");
      Run(cfg, w, source, uploadOk).world.store[source] == Text(Transcript(cfg.model(w.store[source]).value))
  {
    TranscriptNameFixedPoint(stem);
  }

  /**
   * The destination depends on the object name only: the same name in two
   * source buckets is transcribed to the same key.
   */
  lemma DestinationIgnoresSourceBucket(cfg: Config, w: World, bucket1: string, bucket2: string,
                                       name: string, uploadOk: bool)
    requires Configured(cfg.transcriptBucket)
    requires Run(cfg, w, BlobKey(bucket1, name), uploadOk).response.Ok?
    requires Run(cfg, w, BlobKey(bucket2, name), uploadOk).response.Ok?
    ensures var key := Destination(cfg.transcriptBucket.value, name);
      Run(cfg, w, BlobKey(bucket1, name), uploadOk).world.store.Keys == w.store.Keys + {key} &&
      Run(cfg, w, BlobKey(bucket2, name), uploadOk).world.store.Keys == w.store.Keys + {key}
  {
  }

  /**
   * Temp paths are not unique per job: after a job for `first` fails in the
   * model and leaves its download behind, a job for another object with the
   * same base name downloads over that file and, if it succeeds, removes it.
   */
  lemma LeftoverTakenOverBySameBaseName(cfg: Config, w: World, first: BlobKey, second: BlobKey, uploadOk: bool)
    requires Basename(first.name) == Basename(second.name)
    requires Run(cfg, w, first, uploadOk).response == Raised(TranscriptionFailed(TempPath(first.name)))
    requires second in w.store
    ensures var leftover := Run(cfg, w, first, uploadOk).world;
      var o := Run(cfg, leftover, second, uploadOk);
      var tmp := TempPath(first.name);
      tmp in leftover.files && leftover.files[tmp] == w.store[first] &&
      (o.response.Ok? ==> tmp !in o.world.files) &&
      (o.response.Raised? ==> tmp in o.world.files && o.world.files[tmp] == w.store[second])
  {
  }

  /**
   * A folder placeholder `dir/` has an empty base name, so its temp path is
   * `/tmp/` itself: the download raises before anything is written,
   * transcribed or uploaded.
   */
  lemma FolderPlaceholderRaises(cfg: Config, w: World, bucket: string, dir: string, uploadOk: bool)
    ensures var source := BlobKey(bucket, dir + "/");
      Run(cfg, w, source, uploadOk) == Outcome(Raised(IsADirectory("/tmp/")), w, [Download(source, "/tmp/")])
  {
    assert dir + "/" == dir + "/" + "";
    BasenameAfterSlash(dir, "");
    assert TempPath(dir + "/") == "/tmp/";
    assert Basename("/tmp/") == "" by {
      BasenameAfterSlash("/tmp", "");
      assert "/tmp" + "/" + "" == "/tmp/";
    }
  }

  /**
   * A job for a missing object deletes whatever an earlier job with the
   * same base name left at the shared temp path.
   */
  lemma MissingObjectDeletesLeftover(cfg: Config, w: World, first: BlobKey, second: BlobKey, uploadOk: bool)
    requires Basename(first.name) == Basename(second.name)
    requires Run(cfg, w, first, uploadOk).response == Raised(TranscriptionFailed(TempPath(first.name)))
    requires second !in w.store
    ensures var leftover := Run(cfg, w, first, uploadOk).world;
      var o := Run(cfg, leftover, second, uploadOk);
      TempPath(first.name) in leftover.files &&
      o.response == Raised(NotFound(second)) && TempPath(first.name) !in o.world.files
  {
  }

  /**
   * The process serving the endpoint: its configuration is fixed when it
   * starts, and each call of `TranscribeAudio` changes the store and the
   * local files step by step.
   */
  class Service {
    const config: Config
    var store: map<BlobKey, Content>
    var files: map<string, Content>
    ghost var effects: seq<Effect>

    constructor (config: Config, store: map<BlobKey, Content>, files: map<string, Content>)
      ensures this.config == config && this.store == store && this.files == files && effects == []
    {
      this.config := config;
      this.store := store;
      this.files := files;
      effects := [];
    }

    /**
     * `blob.download_to_filename(path)`: opening a path that names a
     * directory raises; otherwise the file is opened for writing, and when
     * the object turns out to be missing the file is deleted again.
     */
    method DownloadToFile(source: BlobKey, path: string) returns (error: Option<Failure>)
      modifies this
      ensures error == if NamesDirectory(path) then Some(IsADirectory(path))
                       else if source !in old(store) then Some(NotFound(source))
                       else None
      ensures files == if NamesDirectory(path) then old(files)
                       else if source !in old(store) then old(files) - {path}
                       else old(files)[path := old(store)[source]]
      ensures store == old(store) && effects == old(effects) + [Download(source, path)]
    {
      effects := effects + [Download(source, path)];
      if NamesDirectory(path) {
        return Some(IsADirectory(path));
      }
      if source !in store {
        files := files - {path};
        return Some(NotFound(source));
      }
      files := files[path := store[source]];
      return None;
    }

    /** `model.transcribe(path)`: the segment texts, or `None` when the model raises. */
    method TranscribeFile(path: string) returns (segments: Option<seq<string>>)
      requires path in files
      modifies this`effects
      ensures segments == config.model(files[path])
      ensures effects == old(effects) + [Transcribe(path)]
    {
      effects := effects + [Transcribe(path)];
      segments := config.model(files[path]);
    }

    /** `blob.upload_from_string(text)`, with `ok` saying whether it succeeds. */
    method UploadFromString(destination: BlobKey, text: string, ok: bool)
      modifies this
      ensures store == if ok then old(store)[destination := Text(text)] else old(store)
      ensures files == old(files) && effects == old(effects) + [Upload(destination)]
    {
      effects := effects + [Upload(destination)];
      if ok {
        store := store[destination := Text(text)];
      }
    }

    /** `os.remove(path)`. */
    method RemoveFile(path: string)
      requires path in files
      modifies this
      ensures files == old(files) - {path}
      ensures store == old(store) && effects == old(effects) + [Remove(path)]
    {
      files := files - {path};
      effects := effects + [Remove(path)];
    }

    /** `transcribe_audio`, with `uploadOk` saying whether `upload_from_string` succeeds. */
    method TranscribeAudio(message: map<string, string>, uploadOk: bool) returns (response: Response)
      modifies this
      ensures var o := Handle(config, World(old(store), old(files)), message, uploadOk);
        response == o.response && store == o.world.store && files == o.world.files &&
        effects == old(effects) + o.effects
    {
      if "bucket" !in message {
        return Raised(MissingKey("bucket"));
      }
      var bucketName := message["bucket"];
      if "name" !in message {
        return Raised(MissingKey("name"));
      }
      var fileName := message["name"];
      response := Process(BlobKey(bucketName, fileName), uploadOk);
    }

    /** The body of `transcribe_audio` once the message fields are read. */
    method Process(source: BlobKey, uploadOk: bool) returns (response: Response)
      modifies this
      ensures var o := Run(config, World(old(store), old(files)), source, uploadOk);
        response == o.response && store == o.world.store && files == o.world.files &&
        effects == old(effects) + o.effects
    {
      ghost var before := World(store, files);
      ghost var effectsBefore := effects;
      var tempPath := TempPath(source.name);
      var error := DownloadToFile(source, tempPath);
      if error.Some? {
        RunWithoutDownload(config, before, source, uploadOk);
        return Raised(error.value);
      }
      RunAfterDownload(config, before, source, uploadOk);
      ghost var downloadedEffects := effects;
      response := TranscribeDownloaded(source, uploadOk);
      ghost var t := Transcribed(config, World(before.store, before.files[tempPath := before.store[source]]), source, uploadOk);
      assert effects == downloadedEffects + t.effects == effectsBefore + ([Download(source, tempPath)] + t.effects);
    }

    /** Transcription, upload and clean-up once the object is in its temp file. */
    method TranscribeDownloaded(source: BlobKey, uploadOk: bool) returns (response: Response)
      requires TempPath(source.name) in files
      modifies this
      ensures var o := Transcribed(config, World(old(store), old(files)), source, uploadOk);
        response == o.response && store == o.world.store && files == o.world.files &&
        effects == old(effects) + o.effects
    {
      var tempPath := TempPath(source.name);
      var segments := TranscribeFile(tempPath);
      if segments.None? {
        return Raised(TranscriptionFailed(tempPath));
      }
      var transcript := BuildTranscript(segments.value);
      response := UploadAndClean(source, transcript, uploadOk);
    }

    /** The upload, if a transcript bucket is configured, and the removal of the temp file. */
    method UploadAndClean(source: BlobKey, transcript: string, uploadOk: bool) returns (response: Response)
      requires TempPath(source.name) in files
      modifies this
      ensures var o := Uploaded(config, World(old(store), old(files)), source, transcript, uploadOk);
        response == o.response && store == o.world.store && files == o.world.files &&
        effects == old(effects) + o.effects
    {
      var tempPath := TempPath(source.name);
      if Configured(config.transcriptBucket) {
        var destination := Destination(config.transcriptBucket.value, source.name);
        UploadFromString(destination, transcript, uploadOk);
        if !uploadOk {
          return Raised(UploadFailed(destination));
        }
      }
      RemoveFile(tempPath);
      return Ok("OK", 204);
    }
  }
}
