/**
 * How the transcription handler turns a speech model's segments into text
 * and how it names the files it writes.
 */
module Transcription {
  import opened Strings
  import opened PosixPath

  /** The transcript specified on whole sequences: every text followed by one space. */
  function Transcript(texts: seq<string>): string
  {
    if |texts| == 0 then ""
    else Transcript(texts[..|texts| - 1]) + texts[|texts| - 1] + " "
  }

  /** The transcript loop: `transcript += segment.text + " "` for each segment in order. */
  method BuildTranscript(segments: seq<string>) returns (transcript: string)
    ensures transcript == Transcript(segments)
  {
    transcript := "";
    var i := 0;
    while i < |segments|
      invariant 0 <= i <= |segments|
      invariant transcript == Transcript(segments[..i])
    {
      assert segments[..i + 1][..i] == segments[..i];
      transcript := transcript + segments[i] + " ";
      i := i + 1;
    }
    assert segments[..i] == segments;
  }

  /** Sum of the lengths of the texts. */
  function TotalLength(texts: seq<string>): nat
  {
    if |texts| == 0 then 0 else TotalLength(texts[..|texts| - 1]) + |texts[|texts| - 1]|
  }

  /** One character per text character, plus one space per segment. */
  lemma {:induction false} TranscriptLength(texts: seq<string>)
    ensures |Transcript(texts)| == TotalLength(texts) + |texts|
  {
    if |texts| > 0 {
      TranscriptLength(texts[..|texts| - 1]);
    }
  }

  /** The transcript of consecutive runs of segments is the concatenation of their transcripts. */
  lemma {:induction false} TranscriptAppend(a: seq<string>, b: seq<string>)
    ensures Transcript(a + b) == Transcript(a) + Transcript(b)
  {
    if |b| == 0 {
      assert a + b == a;
    } else {
      var n := |b| - 1;
      assert (a + b)[..|a + b| - 1] == a + b[..n];
      assert (a + b)[|a + b| - 1] == b[n];
      TranscriptAppend(a, b[..n]);
    }
  }

  /**
   * The transcript is not a plain space-join: a non-empty transcript is
   * the texts joined by single spaces plus one trailing space.
   */
  lemma {:induction false} TranscriptIsJoinPlusSpace(texts: seq<string>)
    requires |texts| > 0
    ensures Transcript(texts) == Join(texts, ' ') + " "
  {
    if |texts| == 1 {
      assert texts[..0] == [];
    } else {
      assert texts == [texts[0]] + texts[1..];
      TranscriptAppend([texts[0]], texts[1..]);
      assert [texts[0]][..0] == [];
      TranscriptIsJoinPlusSpace(texts[1..]);
    }
  }

  /**
   * The name under which the transcript of object `name` is uploaded: the
   * base name up to (not including) the dot `splitext` picks, then `.txt`.
   */
  function TranscriptName(name: string): (r: string)
    ensures |r| >= 4 && r[|r| - 4..] == ".txt"
    ensures '/' !in r
    ensures var b, n := Basename(name), |r| - 4;
      n <= |b| && r[..n] == b[..n] && (n < |b| ==> b[n] == '.' && '.' !in b[n + 1..])
  {
    var parts := SplitExt(Basename(name));
    BasenameShape(name);
    StemThenTxt(Basename(name), parts.0, parts.1);
    parts.0 + ".txt"
  }

  /** Replacing a dot-started, dot-free extension of a '/'-free name by `.txt`. */
  lemma StemThenTxt(b: string, root: string, ext: string)
    requires '/' !in b
    requires root + ext == b
    requires ext == "" || (ext[0] == '.' && '.' !in ext[1..])
    ensures var r, n := root + ".txt", |root|;
      |r| >= 4 && r[|r| - 4..] == ".txt" && '/' !in r &&
      n <= |b| && r[..n] == b[..n] && (n < |b| ==> b[n] == '.' && '.' !in b[n + 1..])
  {
    var r := root + ".txt";
    assert forall k :: 0 <= k < |root| ==> root[k] == b[k];
    assert r[..|root|] == root == b[..|root|];
    assert ext == b[|root|..];
    if |root| < |b| {
      assert b[|root| + 1..] == ext[1..];
    }
  }

  /** The local path the audio is downloaded to. */
  function TempPath(name: string): string
  {
    "/tmp/" + Basename(name)
  }

  /** The temp path is a file directly in /tmp named by the base name of the object. */
  lemma TempPathShape(name: string)
    ensures var r := TempPath(name);
      |r| >= 5 && r[..5] == "/tmp/" && '/' !in r[5..] && r[5..] == Basename(name)
  {
  }

  /** The temp path keeps the object's base name. */
  lemma TempPathBasename(name: string)
    ensures Basename(TempPath(name)) == Basename(name)
  {
    BasenameShape(name);
    assert TempPath(name) == "/tmp" + "/" + Basename(name);
    BasenameAfterSlash("/tmp", Basename(name));
  }

  /** The temp path names a directory exactly when the object name does. */
  lemma TempPathNamesDirectory(name: string)
    ensures NamesDirectory(TempPath(name)) <==> NamesDirectory(name)
  {
    TempPathBasename(name);
  }

  /** The base name of a path whose last '/' precedes `file`. */
  lemma BasenameAfterSlash(dir: string, file: string)
    requires '/' !in file
    ensures Basename(dir + "/" + file) == file
  {
    var p := dir + "/" + file;
    assert p[|dir|] == '/';
    assert forall k :: |dir| < k < |p| ==> p[k] == file[k - |dir| - 1];
    assert LastIndexOf(p, '/') == |dir|;
    assert p[|dir| + 1..] == file;
  }

  /** The base name of a path without '/'. */
  lemma BasenameWithoutSlash(file: string)
    requires '/' !in file
    ensures Basename(file) == file
  {
    assert LastIndexOf(file, '/') == -1;
  }

  /**
   * Two objects with the same base name in different directories share one
   * local path: the temp path is not unique per job.
   */
  lemma TempPathCollision(dir1: string, dir2: string, file: string)
    requires '/' !in file
    ensures TempPath(dir1 + "/" + file) == TempPath(dir2 + "/" + file) == "/tmp/" + file
  {
    BasenameAfterSlash(dir1, file);
    BasenameAfterSlash(dir2, file);
  }

  /**
   * A file in a directory loses the directory and its last extension
   * (`interviews/jdoe_part1.wav` gives `jdoe_part1.txt`, `x/a.tar.gz` gives
   * `a.tar.txt`).
   */
  lemma TranscriptNameOfPath(dir: string, stem: string, ext: string)
    requires '/' !in stem && '/' !in ext && '.' !in ext
    requires exists k :: 0 <= k < |stem| && stem[k] != '.'
    ensures TranscriptName(dir + "/" + stem + "." + ext) == stem + ".txt"
  {
    assert dir + "/" + stem + "." + ext == dir + "/" + (stem + "." + ext);
    assert '/' !in stem + "." + ext;
    BasenameAfterSlash(dir, stem + "." + ext);
    SplitExtOfStemAndExtension(stem, ext);
  }

  /** The same for a name without a directory (`a.tar.gz` gives `a.tar.txt`). */
  lemma TranscriptNameOfFile(stem: string, ext: string)
    requires '/' !in stem && '/' !in ext && '.' !in ext
    requires exists k :: 0 <= k < |stem| && stem[k] != '.'
    ensures TranscriptName(stem + "." + ext) == stem + ".txt"
  {
    assert '/' !in stem + "." + ext;
    BasenameWithoutSlash(stem + "." + ext);
    SplitExtOfStemAndExtension(stem, ext);
  }

  /** A leading dot does not start an extension: `.wav` gives `.wav.txt`. */
  lemma TranscriptNameOfDotFile(ext: string)
    requires '/' !in ext && '.' !in ext
    ensures TranscriptName("." + ext) == "." + ext + ".txt"
  {
    var p := "." + ext;
    assert '/' !in p;
    BasenameWithoutSlash(p);
    assert forall k :: 0 < k < |p| ==> p[k] == ext[k - 1];
    LastIndexOfAt(p, '.', 0);
    SplitExtLeadingDots(p);
  }

  /** A name ending in '/' has an empty base name: `interviews/` gives `.txt`. */
  lemma TranscriptNameOfDirectory(dir: string)
    ensures TranscriptName(dir + "/") == ".txt"
  {
    assert dir + "/" == dir + "/" + "";
    BasenameAfterSlash(dir, "");
    assert SplitExt("") == ("", "");
  }

  /**
   * A top-level object already named `<stem>.txt`, where the stem has a
   * character other than a dot, gets its own name as the transcript name.
   */
  lemma TranscriptNameFixedPoint(stem: string)
    requires '/' !in stem && exists k :: 0 <= k < |stem| && stem[k] != '.'
    ensures TranscriptName(stem + ".txt") == stem + ".txt"
  {
    assert stem + ".txt" == stem + "." + "txt";
    assert '/' !in stem + ".txt";
    BasenameWithoutSlash(stem + ".txt");
    SplitExtOfStemAndExtension(stem, "txt");
  }
}
