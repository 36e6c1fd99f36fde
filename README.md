# Oral-history transcription and metadata scraping, modelled in Dafny

This project models the two main pieces of an oral-history processing
repository.

**The transcription handler** is `transcribe_audio` in
`Faster_whisper/main.py`. A storage event names an audio object by bucket
and object name. The handler:

1. reads `bucket` and `name` from the event;
2. downloads the object to `/tmp/<base name>`;
3. runs the speech model on the file;
4. builds the transcript, where every segment text is followed by one space;
5. if `TRANSCRIPT_BUCKET_NAME` is set and non-empty, uploads the transcript
   as `<stem>.txt` to that bucket;
6. removes the local file;
7. answers `("OK", 204)`.

In the model:

- The object store and the local file system are maps (`Handler.World`).
- The speech model is a function from the downloaded content to its
  segment texts, or `None` when it raises.
- Whether the upload raises is a parameter of each call.
- `Handler.Run` states a whole call as a function of the state before it.
- `Handler.Service` is the running process. Its `TranscribeAudio` method
  updates the store and the local files step by step and is proved to
  match `Handler.Handle`.
- Python's `os.path.basename` and `os.path.splitext` are modelled after
  their POSIX definitions in `PosixPath`:
  - `splitext` splits at the last dot of the base name;
  - leading dots of the base name never start an extension.

**The metadata scraper** is `Notebooks/webscrapper_metadata.py`:

- `scrape_links_and_text` resolves each selected link against the
  collection page. For each link whose page fetches and has a `<p>`, it
  stores the paragraph text in a dictionary under the resolved URL.
- The main block, for each starting URL:
  - takes `url.split("/")[-2]` as the collection name;
  - tags every entry with that name and with the trailing number of its
    URL (`(\d+)$`);
  - concatenates all frames;
  - saves them when there is at least one.

In the model:

- HTTP fetches and HTML parsing are inputs. A main page either failed or
  yielded its links, and each link carries what fetching its target gave.
- `urljoin` is a parameter.
- The Python dictionary is modelled with its insertion order
  (`Scraper.Dict`): a new key goes last, and an overwritten key keeps its
  place.

Behaviour of the code that the model keeps, although it is easy to
overlook:

- There is no `try`/`finally`: a failing model or upload leaves the
  downloaded file in `/tmp` (`Handler.Run`).
- An object name ending in '/' (a folder placeholder) has an empty base
  name, so the temp path is `/tmp/` itself. Opening it for writing raises
  `IsADirectoryError` before anything is downloaded
  (`Handler.FolderPlaceholderRaises`).
- `download_to_filename` opens the file before it asks for the object. When
  the object is missing, the opened file is deleted again and `NotFound` is
  raised (`Handler.Service.DownloadToFile`).
- The temp path is `/tmp/<base name>`, which is not unique per job
  (`Transcription.TempPathCollision`, `Handler.LeftoverTakenOverBySameBaseName`).
- The transcript ends with a space (`Transcription.TranscriptIsJoinPlusSpace`).
- Failures are not mapped to HTTP error codes. They end the call with the
  exception that was raised (`Handler.Failure`).
- A starting URL without '/' makes the index `[-2]` raise, which ends the
  whole script (`Scraper.ScriptOutcome`).

## Model

| member | source | states |
|---|---|---|
| Strings.LastIndexOf | Faster_whisper/main.py:32 | the index of the last occurrence of the character, or -1; no later position holds it |
| Strings.Split | Notebooks/webscrapper_metadata.py:110 | `str.split` on one character: at least one piece, no piece contains the separator, joining the pieces gives the input back, one more piece than separators |
| Strings.SplitNoSeparator | Notebooks/webscrapper_metadata.py:110 | a string without the separator splits into itself alone |
| Strings.SplitAround | Notebooks/webscrapper_metadata.py:110 | splitting `a + sep + b` gives the pieces of `a` followed by the pieces of `b` |
| Strings.CountPositive | Notebooks/webscrapper_metadata.py:110 | the separator count is positive exactly when the separator occurs |
| PosixPath.Basename | Faster_whisper/main.py:32 | `os.path.basename`: the text after the last '/' (definition; its shape is stated by `PosixPath.BasenameShape`) |
| PosixPath.NamesDirectory | Faster_whisper/main.py:33 | when opening the temp path for writing raises `IsADirectoryError`: its last component is empty, `.` or `..` (definition; used by `Handler.Run` and `Handler.Service.DownloadToFile`; the other reasons `open` fails are under "Left out") |
| PosixPath.BasenameShape | Faster_whisper/main.py:32 | the base name has no '/', is a suffix of the path, and is preceded by '/' when shorter than the path |
| PosixPath.SplitExt | Faster_whisper/main.py:48 | root and extension concatenate to the path; the extension is empty or one dot followed by no dot and no '/' |
| PosixPath.SplitExtOfStemAndExtension | Faster_whisper/main.py:48 | a stem with a non-dot character, plus a dot-free extension, splits at that last dot |
| PosixPath.SplitExtNoDot | Faster_whisper/main.py:48 | a base name without a dot has an empty extension |
| PosixPath.SplitExtLeadingDots | Faster_whisper/main.py:48 | a name whose only dots are leading dots has an empty extension |
| Transcription.Transcript | Faster_whisper/main.py:41-43 | the transcript the loop builds, on whole sequences: every segment text followed by one space (definition; see `Transcription.TranscriptIsJoinPlusSpace`) |
| Transcription.BuildTranscript | Faster_whisper/main.py:41-43 | the loop's result is `Transcript` of all the segments |
| Transcription.TranscriptLength | Faster_whisper/main.py:41-43 | the transcript length is the total text length plus one per segment |
| Transcription.TranscriptAppend | Faster_whisper/main.py:41-43 | the transcript of `a + b` is the transcript of `a` followed by that of `b` |
| Transcription.TranscriptIsJoinPlusSpace | Faster_whisper/main.py:41-43 | a non-empty transcript is the texts joined by single spaces, plus one trailing space |
| Transcription.TranscriptName | Faster_whisper/main.py:48 | ends in `.txt` and has no '/'; what precedes `.txt` is a prefix of the base name, cut only at a dot with no later dot |
| Transcription.StemThenTxt | Faster_whisper/main.py:48 | appending `.txt` to the `splitext` root of a '/'-free name gives a name of the shape `TranscriptName` promises |
| Transcription.TempPath | Faster_whisper/main.py:32 | the f-string `/tmp/{os.path.basename(file_name)}` (definition; see `Transcription.TempPathShape`) |
| Transcription.TempPathBasename | Faster_whisper/main.py:32 | the temp path has the same base name as the object name |
| Transcription.TempPathNamesDirectory | Faster_whisper/main.py:32-33 | the temp path names a directory exactly when the object name's base name is empty, `.` or `..` |
| Transcription.TempPathShape | Faster_whisper/main.py:32 | the temp path is `/tmp/` followed by the base name, with no further '/' |
| Transcription.BasenameAfterSlash | Faster_whisper/main.py:32 | the base name of `dir/file` is `file` |
| Transcription.BasenameWithoutSlash | Faster_whisper/main.py:32 | a name without '/' is its own base name |
| Transcription.TempPathCollision | Faster_whisper/main.py:32 | the same file name in two directories gets the same temp path |
| Transcription.TranscriptNameOfPath | Faster_whisper/main.py:48 | `dir/stem.ext` is transcribed to `stem.txt` |
| Transcription.TranscriptNameOfFile | Faster_whisper/main.py:48 | `stem.ext` is transcribed to `stem.txt` |
| Transcription.TranscriptNameOfDotFile | Faster_whisper/main.py:48 | `.ext` keeps its dot name and gets `.txt` appended |
| Transcription.TranscriptNameOfDirectory | Faster_whisper/main.py:48 | the naming expression alone maps a name ending in '/' to `.txt`; the handler raises at the download before it gets there (`Handler.FolderPlaceholderRaises`) |
| Transcription.TranscriptNameFixedPoint | Faster_whisper/main.py:48 | a top-level `stem.txt`, where the stem has a character other than a dot, is transcribed to its own name |
| Handler.ParseEvent | Faster_whisper/main.py:24-25 | the event parses exactly when both keys are present; the source is `(bucket, name)`; `bucket` is reported missing first |
| Handler.Handle | Faster_whisper/main.py:19-58 | a missing key raises `KeyError` with no effect and no change to the world |
| Handler.Configured | Faster_whisper/main.py:47 | the test `if TRANSCRIPT_BUCKET_NAME:`: the variable is set and non-empty (definition) |
| Handler.Destination | Faster_whisper/main.py:48-50 | the blob `<stem>.txt` in the transcript bucket; the source bucket plays no part (definition; see `Handler.DestinationIgnoresSourceBucket`) |
| Handler.Run | Faster_whisper/main.py:28-58 | success iff the temp path is not a directory, the object exists, the model succeeds and an attempted upload succeeds; success answers `("OK", 204)`; only the temp path of the local files changes, and it is gone on success but still holds the download after a model or upload failure; a temp path naming a directory raises `IsADirectory` exactly then and changes nothing; a missing object raises `NotFound` and deletes the temp path; the store changes only by the upload of `Transcript(segments)` to the destination, on success with a bucket configured |
| Handler.Transcribed | Faster_whisper/main.py:39-58 | the handler after the download: the model call, then `Handler.Uploaded` on success (definition; see `Handler.TranscribedAttemptsUpload`, `Handler.TranscribedFailureSkipsRemove`) |
| Handler.Uploaded | Faster_whisper/main.py:47-58 | the handler after transcription: the upload when a bucket is configured, then `os.remove` and `("OK", 204)` (definition; see `Handler.UploadedSteps`) |
| Handler.RunMissingObject | Faster_whisper/main.py:33 | when the temp path is not a directory and the object is missing, the call raises `NotFound` and the world is the store with the temp path deleted |
| Handler.RunModelFails | Faster_whisper/main.py:33-39 | when the model raises on the downloaded object, the call raises `TranscriptionFailed`, the store is unchanged and the temp file still holds the download |
| Handler.RunUploadFails | Faster_whisper/main.py:33-52 | when the upload to a configured bucket raises after a successful model run, the call raises `UploadFailed` for the destination, the store is unchanged and the temp file still holds the download |
| Handler.RunDownloadsFirst | Faster_whisper/main.py:32-33 | the download to the temp path is always the first step |
| Handler.RunAttemptsUpload | Faster_whisper/main.py:32-52 | the third step is an upload exactly when the temp path is not a directory, the object exists, the model succeeds and a bucket is configured |
| Handler.TranscribedAttemptsUpload | Faster_whisper/main.py:39-52 | after the download, the second step is an upload exactly when the model succeeds and a bucket is configured |
| Handler.RunFailureSkipsRemove | Faster_whisper/main.py:33-56 | a call that raises never removes the temp file |
| Handler.TranscribedFailureSkipsRemove | Faster_whisper/main.py:39-56 | after the download, a failing model or upload never removes the temp file |
| Handler.UploadedSteps | Faster_whisper/main.py:47-56 | after transcription, the first step is an upload iff a bucket is configured; a failing upload is the only step; a successful call ends with the removal of the temp file |
| Handler.RunSuccessSteps | Faster_whisper/main.py:33-56 | a successful call downloads, transcribes, uploads when a bucket is configured, and removes the temp file, in that order |
| Handler.RerunIsIdempotent | Faster_whisper/main.py:19-58 | re-handling a successfully handled event, with a successful upload, gives the same response, world and steps, unless the transcript key is the source key |
| Handler.TranscriptOverwritesSource | Faster_whisper/main.py:47-52 | when the transcript bucket is the source bucket, a top-level `stem.txt` source, where the stem has a character other than a dot, is replaced by its own transcript |
| Handler.DestinationIgnoresSourceBucket | Faster_whisper/main.py:48-52 | the same object name from two source buckets is uploaded to the same single key |
| Handler.LeftoverTakenOverBySameBaseName | Faster_whisper/main.py:32-56 | a file left behind by a failed job is overwritten by a later job with the same base name, and removed if that job succeeds |
| Handler.FolderPlaceholderRaises | Faster_whisper/main.py:32-33 | an object name ending in '/' gives the temp path `/tmp/`, and the call raises `IsADirectory` after the attempted download, with the world unchanged |
| Handler.MissingObjectDeletesLeftover | Faster_whisper/main.py:32-56 | a file left behind by a failed model run is deleted by a later job with the same base name whose object is missing, and that job raises `NotFound` |
| Handler.Service.constructor | Faster_whisper/main.py:10-15 | the process starts with the given configuration, store and local files, and no steps |
| Handler.Service.DownloadToFile | Faster_whisper/main.py:33 | a path naming a directory raises `IsADirectory` and changes no file; otherwise a missing object raises `NotFound` and deletes the path; otherwise the path holds the object; the store is unchanged and the download is recorded |
| Handler.Service.TranscribeFile | Faster_whisper/main.py:39 | the segments are the model's output for the file's content; records the step |
| Handler.Service.UploadFromString | Faster_whisper/main.py:52 | on success the store maps the destination to the text; the local files are unchanged |
| Handler.Service.RemoveFile | Faster_whisper/main.py:56 | removes exactly the path from the local files |
| Handler.Service.TranscribeAudio | Faster_whisper/main.py:19-58 | the response, the new store, the new local files and the steps taken are those of `Handle` on the old state |
| Handler.Service.Process | Faster_whisper/main.py:28-58 | the response, store, local files and steps after the fields are read are those of `Run` |
| Handler.Service.TranscribeDownloaded | Faster_whisper/main.py:39-58 | after the download, the response, store, local files and steps are those of `Transcribed` |
| Handler.Service.UploadAndClean | Faster_whisper/main.py:47-58 | after transcription, the response, store, local files and steps are those of `Uploaded` |
| Scraper.Put | Notebooks/webscrapper_metadata.py:67 | keeps the dictionary valid; the value is replaced; an existing key keeps its position and a new key goes last |
| Scraper.Collected | Notebooks/webscrapper_metadata.py:39-67 | the loop's dictionary is valid and has at most one key per link |
| Scraper.ScrapeResult | Notebooks/webscrapper_metadata.py:7-74 | what `scrape_links_and_text` returns: `None` on the two early returns, otherwise the dictionary of `Scraper.Collected` (definition; the method `Scraper.ScrapeLinksAndText` is proved against it) |
| Scraper.ScrapeLinksAndText | Notebooks/webscrapper_metadata.py:7-74 | returns nothing iff the main page fails or no link is selected; otherwise the dictionary filled by visiting all links in order |
| Scraper.CollectedKeys | Notebooks/webscrapper_metadata.py:42-67 | a URL is a key iff some link resolves to it, fetches, and has a `<p>` |
| Scraper.CollectedStep | Notebooks/webscrapper_metadata.py:42-67 | one more link sets its key's text if it contributes, and otherwise leaves that key as it was |
| Scraper.CollectedLastWriteWins | Notebooks/webscrapper_metadata.py:67 | a key's text is the paragraph of the last link contributing that key |
| Scraper.LastContributorExtends | Notebooks/webscrapper_metadata.py:42-67 | a last contributor stays last when a non-contributing link follows |
| Scraper.CollectedKeysStep | Notebooks/webscrapper_metadata.py:42-67 | visiting one more link keeps the keys so far as a prefix of the new keys |
| Scraper.CollectedKeysGrowAtEnd | Notebooks/webscrapper_metadata.py:42-67 | the keys after any prefix of the links are a prefix of the final keys |
| Scraper.CollectionName | Notebooks/webscrapper_metadata.py:110 | `url.split("/")[-2]`, with `None` where the index raises (definition; see `Scraper.CollectionNameDefined`) |
| Scraper.CollectionNameOfDirectoryUrl | Notebooks/webscrapper_metadata.py:110 | a URL `prefix/segment/` is named `segment` |
| Scraper.CollectionNameDefined | Notebooks/webscrapper_metadata.py:110 | `[-2]` exists exactly when the URL contains '/' |
| Scraper.DigitSuffix | Notebooks/webscrapper_metadata.py:120 | a suffix of the input made only of digits, and the longest such suffix |
| Scraper.RowId | Notebooks/webscrapper_metadata.py:120 | `str.extract(r'(\d+)$')` on one URL: the trailing digit run, looked for before one optional final newline (definition; see `Scraper.RowIdPresent`) |
| Scraper.RowIdPresent | Notebooks/webscrapper_metadata.py:120 | a URL without a final newline has an ID iff it ends in a digit; the ID is the maximal run of digits at its end |
| Scraper.RowIdIgnoresFinalNewline | Notebooks/webscrapper_metadata.py:120 | one final newline does not change the ID, since `$` matches before it |
| Scraper.Frame | Notebooks/webscrapper_metadata.py:117-121 | the frame `pd.DataFrame(list(all_text_data.items()))` with its `ID` and `Collection` columns, one row per key in dictionary order (definition; see `Scraper.ContributionTagged`) |
| Scraper.Concat | Notebooks/webscrapper_metadata.py:127 | `pd.concat(all_data_frames, ignore_index=True)`: the frames' rows one after another (definition; see `Scraper.ConcatIndex`) |
| Scraper.Progressed | Notebooks/webscrapper_metadata.py:107-123 | the list `all_data_frames` after the loop has visited some collections, or the URL whose `[-2]` raised (definition; see `Scraper.ProgressedStep`, `Scraper.ProgressedAborts`) |
| Scraper.Script | Notebooks/webscrapper_metadata.py:102-137 | the main block: a crash, the "no data" branch, or the saved rows (definition; see `Scraper.ScriptOutcome`) |
| Scraper.RunScript | Notebooks/webscrapper_metadata.py:102-137 | the loop over the starting URLs gives `Script` of all collections |
| Scraper.PrefixAborted | Notebooks/webscrapper_metadata.py:108-110 | once a name lookup raises, later collections change nothing |
| Scraper.ProgressedAbortsUnlessNamed | Notebooks/webscrapper_metadata.py:108-110 | the loop raises iff not every starting URL has a name |
| Scraper.AllNamedEverywhere | Notebooks/webscrapper_metadata.py:108-110 | every starting URL is named iff each position's URL has a name |
| Scraper.ProgressedAborts | Notebooks/webscrapper_metadata.py:108-110 | the loop raises iff some starting URL has no '/' |
| Scraper.ProgressedStep | Notebooks/webscrapper_metadata.py:108-123 | with no raise, one more collection is named and appends its frame iff it produced an entry |
| Scraper.ContributionsPrefix | Notebooks/webscrapper_metadata.py:108-127 | the rows of all collections are the rows of all but the last, followed by the last one's contribution |
| Scraper.ProgressedRows | Notebooks/webscrapper_metadata.py:113-127 | with no raise, the concatenated frames are the collections' rows, in order |
| Scraper.ProgressedNonEmpty | Notebooks/webscrapper_metadata.py:115-126 | with no raise, some frame exists iff the collections produced some entry |
| Scraper.TotalEntriesPositive | Notebooks/webscrapper_metadata.py:115-126 | the entry total is positive iff some collection produced an entry |
| Scraper.RowsCount | Notebooks/webscrapper_metadata.py:117-133 | with every URL named, there is one row per scraped entry |
| Scraper.ConcatIndex | Notebooks/webscrapper_metadata.py:127 | each element of a concatenation belongs to one of the concatenated frames |
| Scraper.RowsFromContributions | Notebooks/webscrapper_metadata.py:117-127 | each row belongs to the contribution of one of the collections |
| Scraper.ContributionTagged | Notebooks/webscrapper_metadata.py:117-121 | each row of a collection's frame has its URL's trailing number as ID, the collection's name, and the text the collection's dictionary holds for its URL |
| Scraper.RowsTagged | Notebooks/webscrapper_metadata.py:117-121 | each row's ID is its URL's trailing number; its collection name and text come from a collection whose dictionary maps its URL to that text |
| Scraper.ScriptOutcome | Notebooks/webscrapper_metadata.py:102-137 | the script crashes iff a starting URL has no '/'; it saves iff nothing crashes and some collection produced an entry; it then saves one row per entry, in collection order |

## Left out

- Flask: the request routing and `request.get_json()` are left out. The
  handler receives the decoded event as a map from keys to strings.
- Logging: `print` output and the progress messages are not modelled.
- The Cloud Storage client is reduced to a map from keys to contents.
  - Authentication, network failures on download, and any partial file a
    failed transfer might leave are not modelled.
  - Handler.Run: a missing object deletes the temp path, as
    google-cloud-storage 2.x does; 1.x leaves an empty file there instead.
  - Handler.Run: the local file system is a map from paths to contents. A
    path is a directory only by its last component (empty, `.` or `..`).
    Other directories that happen to exist under `/tmp`, and file-system
    permissions, are not modelled.
  - Upload failures are one boolean parameter per call.
  - The transcript's UTF-8 encoding is not modelled: the stored text is
    the string itself.
- Handler.Run, Handler.Service.DownloadToFile: the only way the model's
  `open(path, "wb")` fails is a directory path. Its other failures are not
  modelled. The main one is a base name longer than 255 bytes in UTF-8
  (`ENAMETOOLONG`). Object names may be up to 1024 bytes, and 86 CJK
  characters already pass this limit. For such a name the source raises
  `OSError` at the download with nothing written. The model instead
  downloads, transcribes and uploads. Counting UTF-8 bytes would need an
  encoding of strings, which the model does not have.
- PosixPath.NamesDirectory: it says only which paths are directories by
  their last component. It does not say which paths `open` refuses for
  other reasons, such as the component-length limit above.
- The speech model's internals, `MODEL_SIZE`, `beam_size`, the device
  settings, the language info (the discarded second result) and the
  segment timings are left out. The model is an opaque function from
  content to segment texts, so it is taken as deterministic: the same
  content always gives the same segments or the same failure. Decoding
  that samples at random (as a temperature fallback would) is not
  modelled, and `Handler.RerunIsIdempotent` relies on this.
- `transcribe` returning a lazy generator that might fail midway through
  the loop is not modelled: the model yields all segments or raises.
- Environment variables: `TRANSCRIPT_BUCKET_NAME` is read once into
  `Handler.Config`, and `PORT`/`app.run` are left out.
- Concurrent requests are not modelled; calls on one `Service` are
  sequential. The temp-path collision is shown between successive calls
  (`Handler.LeftoverTakenOverBySameBaseName`).
- `requests`, HTTP status handling, the User-Agent header and
  BeautifulSoup parsing are inputs. They appear as `Scraper.MainPage`
  and `Scraper.ArticleFetch`.
- The CSS selectors and `get_text(separator=' ', strip=True)` are inputs:
  the paragraph text arrives ready-made.
- `urljoin` is a parameter of type `Scraper.UrlJoin`, including its
  treatment of a missing `href`.
- `collection_name.upper()` is used only in a print and is left out.
- `STARTING_URLS`: the concrete list of twenty URLs is not built in. The
  script takes a list of collections, which covers it.
- pandas is modelled as sequences of rows.
  - Column types, the index and `to_csv` serialisation to
    `oral_history_scraped_metadata.csv` are left out.
  - The saved rows are the result of `Scraper.Script`.
- Scraper.RowId: `\d` is limited to ASCII digits. Python's `re` also
  matches other Unicode decimal digits.
