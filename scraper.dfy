/**
 * The metadata scraper: `scrape_links_and_text` fills an insertion-ordered
 * dictionary from the links of one collection page, and the script's main
 * block tags each collection's entries and concatenates them into rows.
 *
 * HTTP fetches and HTML parsing are inputs: a main page either failed or
 * yielded the selected links, and each link carries the outcome of fetching
 * its target. URL resolution (`urljoin`) is a parameter.
 */
module Scraper {
  import opened Wrappers
  import opened Strings

  /** Fetching a link's target: failed, or fetched with the first `<p>` text if there was one. */
  datatype ArticleFetch = FetchFailed | Fetched(paragraph: Option<string>)

  /** One selected `<a>` element: its `href` attribute and what fetching its target gave. */
  datatype Link = Link(href: Option<string>, article: ArticleFetch)

  /** The main page: its fetch failed, or it was fetched and the selector found these links. */
  datatype MainPage = MainPageFailed | MainPage(links: seq<Link>)

  /** URL resolution, `urljoin(base, href)`. */
  type UrlJoin = (string, Option<string>) -> string

  /**
   * A Python dict from URL to text: the keys in insertion order and the
   * mapping itself.
   */
  datatype Dict = Dict(keys: seq<string>, values: map<string, string>)

  /** The keys are distinct and are exactly the mapped ones. */
  ghost predicate Valid(d: Dict)
  {
    (forall i, j :: 0 <= i < j < |d.keys| ==> d.keys[i] != d.keys[j]) &&
    (forall k :: k in d.values <==> k in d.keys)
  }

  const EmptyDict := Dict([], map[])

  /**
   * `d[k] = v`: the value is replaced; a new key goes last, an existing
   * key keeps its position.
   */
  function Put(d: Dict, k: string, v: string): (r: Dict)
    requires Valid(d)
    ensures Valid(r)
    ensures r.values == d.values[k := v]
    ensures k in d.values ==> r.keys == d.keys
    ensures k !in d.values ==> r.keys == d.keys + [k]
  {
    if k in d.values then Dict(d.keys, d.values[k := v])
    else Dict(d.keys + [k], d.values[k := v])
  }

  /** The link adds the entry `key: text`: its fetch succeeded and found a `<p>`. */
  predicate Contributes(base: string, urljoin: UrlJoin, link: Link, key: string)
  {
    link.article.Fetched? && link.article.paragraph.Some? && urljoin(base, link.href) == key
  }

  /** The dictionary after the loop has visited `links`, in order. */
  function Collected(base: string, urljoin: UrlJoin, links: seq<Link>): (d: Dict)
    ensures Valid(d) && |d.keys| <= |links|
  {
    if |links| == 0 then EmptyDict
    else
      var d := Collected(base, urljoin, links[..|links| - 1]);
      var link := links[|links| - 1];
      if link.article.Fetched? && link.article.paragraph.Some? then
        Put(d, urljoin(base, link.href), link.article.paragraph.value)
      else d
  }

  /** `scrape_links_and_text` as a function: `None` when it returns early. */
  function ScrapeResult(base: string, urljoin: UrlJoin, page: MainPage): Option<Dict>
  {
    match page
    case MainPageFailed => None
    case MainPage(links) => if |links| == 0 then None else Some(Collected(base, urljoin, links))
  }

  /**
   * `scrape_links_and_text(main_page_url)`: `None` when the main page fails
   * or the selector finds no links; otherwise the dictionary filled by the
   * loop, skipping links whose fetch failed or that have no `<p>`.
   */
  method ScrapeLinksAndText(mainPageUrl: string, urljoin: UrlJoin, page: MainPage)
    returns (scraped: Option<Dict>)
    ensures scraped.None? <==> page.MainPageFailed? || |page.links| == 0
    ensures scraped.Some? ==> scraped.value == Collected(mainPageUrl, urljoin, page.links)
  {
    if page.MainPageFailed? {
      return None;
    }
    var links := page.links;
    if |links| == 0 {
      return None;
    }
    var data := EmptyDict;
    var i := 0;
    while i < |links|
      invariant 0 <= i <= |links|
      invariant data == Collected(mainPageUrl, urljoin, links[..i])
    {
      assert links[..i + 1][..i] == links[..i];
      var fullUrl := urljoin(mainPageUrl, links[i].href);
      match links[i].article {
        case FetchFailed =>
        case Fetched(block) =>
          if block.Some? {
            data := Put(data, fullUrl, block.value);
          }
      }
      i := i + 1;
    }
    assert links[..i] == links;
    return Some(data);
  }

  /** A key is in the dictionary if and only if some link contributed it. */
  lemma {:induction false} CollectedKeys(base: string, urljoin: UrlJoin, links: seq<Link>, key: string)
    ensures key in Collected(base, urljoin, links).values <==>
      exists i :: 0 <= i < |links| && Contributes(base, urljoin, links[i], key)
  {
    if |links| > 0 {
      var prefix := links[..|links| - 1];
      CollectedKeys(base, urljoin, prefix, key);
      if exists i :: 0 <= i < |prefix| && Contributes(base, urljoin, prefix[i], key) {
        var i :| 0 <= i < |prefix| && Contributes(base, urljoin, prefix[i], key);
        assert links[i] == prefix[i];
      }
      if exists i :: 0 <= i < |links| && Contributes(base, urljoin, links[i], key) {
        var i :| 0 <= i < |links| && Contributes(base, urljoin, links[i], key);
        if i < |prefix| {
          assert prefix[i] == links[i];
        }
      }
    }
  }

  /** What visiting one more link does to the entry for `key`. */
  lemma CollectedStep(base: string, urljoin: UrlJoin, links: seq<Link>, key: string)
    requires |links| > 0
    ensures var d, e, last := Collected(base, urljoin, links[..|links| - 1]), Collected(base, urljoin, links), links[|links| - 1];
      if Contributes(base, urljoin, last, key) then key in e.values && e.values[key] == last.article.paragraph.value
      else (key in e.values <==> key in d.values) && (key in d.values ==> e.values[key] == d.values[key])
  {
  }

  /** Link `i` contributes `key` and no later link does. */
  ghost predicate LastContributor(base: string, urljoin: UrlJoin, links: seq<Link>, key: string, i: int)
  {
    0 <= i < |links| && Contributes(base, urljoin, links[i], key) &&
    forall j :: i < j < |links| ==> !Contributes(base, urljoin, links[j], key)
  }

  /** Last write wins: a key's text is that of the last link contributing it. */
  lemma {:induction false} CollectedLastWriteWins(base: string, urljoin: UrlJoin, links: seq<Link>, key: string)
    requires key in Collected(base, urljoin, links).values
    ensures exists i :: (LastContributor(base, urljoin, links, key, i) &&
      Collected(base, urljoin, links).values[key] == links[i].article.paragraph.value)
  {
    var n := |links| - 1;
    var prefix := links[..n];
    var d := Collected(base, urljoin, prefix);
    CollectedStep(base, urljoin, links, key);
    if Contributes(base, urljoin, links[n], key) {
      assert LastContributor(base, urljoin, links, key, n);
    } else {
      CollectedLastWriteWins(base, urljoin, prefix, key);
      var i :| LastContributor(base, urljoin, prefix, key, i) && d.values[key] == prefix[i].article.paragraph.value;
      LastContributorExtends(base, urljoin, links, key, i);
    }
  }

  /** A last contributor stays last when a link that does not contribute follows. */
  lemma LastContributorExtends(base: string, urljoin: UrlJoin, links: seq<Link>, key: string, i: int)
    requires |links| > 0 && !Contributes(base, urljoin, links[|links| - 1], key)
    requires LastContributor(base, urljoin, links[..|links| - 1], key, i)
    ensures LastContributor(base, urljoin, links, key, i) && links[i] == links[..|links| - 1][i]
  {
    var prefix := links[..|links| - 1];
    assert forall j :: i < j < |prefix| ==> links[j] == prefix[j];
  }

  /** Visiting one more link keeps the keys so far as a prefix. */
  lemma CollectedKeysStep(base: string, urljoin: UrlJoin, links: seq<Link>)
    requires |links| > 0
    ensures var before, after := Collected(base, urljoin, links[..|links| - 1]).keys, Collected(base, urljoin, links).keys;
      |before| <= |after| && after[..|before|] == before
  {
  }

  /**
   * Insertion order is kept: the keys after visiting a prefix of the links
   * are a prefix of the final keys, so a key never moves once inserted.
   */
  lemma {:induction false} CollectedKeysGrowAtEnd(base: string, urljoin: UrlJoin, links: seq<Link>, m: nat)
    requires m <= |links|
    ensures var early, final := Collected(base, urljoin, links[..m]).keys, Collected(base, urljoin, links).keys;
      |early| <= |final| && final[..|early|] == early
  {
    if m < |links| {
      var n := |links| - 1;
      assert links[..n][..m] == links[..m];
      CollectedKeysGrowAtEnd(base, urljoin, links[..n], m);
      CollectedKeysStep(base, urljoin, links);
      var early := Collected(base, urljoin, links[..m]).keys;
      var middle := Collected(base, urljoin, links[..n]).keys;
      var final := Collected(base, urljoin, links).keys;
      assert final[..|early|] == middle[..|middle|][..|early|];
    } else {
      assert links[..m] == links;
    }
  }

  // ---------------------------------------------------------------------
  // The main block: collection names, row IDs, tagging and concatenation.

  /** `url.split("/")[-2]`, or `None` where that index raises (no '/' in `url`). */
  function CollectionName(url: string): Option<string>
  {
    var parts := Split(url, '/');
    if |parts| >= 2 then Some(parts[|parts| - 2]) else None
  }

  /** A URL ending in '/' is named by its last path segment. */
  lemma CollectionNameOfDirectoryUrl(prefix: string, segment: string)
    requires '/' !in segment
    ensures CollectionName(prefix + "/" + segment + "/") == Some(segment)
  {
    assert prefix + "/" + segment + "/" == prefix + "/" + (segment + "/" + "");
    assert segment + "/" + "" == segment + "/";
    SplitAround(prefix, segment + "/" + "", '/');
    SplitAround(segment, "", '/');
    SplitNoSeparator(segment, '/');
    SplitNoSeparator("", '/');
  }

  /** The index raises exactly for URLs without '/'. */
  lemma CollectionNameDefined(url: string)
    ensures CollectionName(url).Some? <==> '/' in url
  {
    CountPositive(url, '/');
  }

  function IsDigit(c: char): bool
  {
    '0' <= c <= '9'
  }

  /** The longest suffix of `s` made of decimal digits. */
  function DigitSuffix(s: string): (r: string)
    ensures |r| <= |s| && r == s[|s| - |r|..]
    ensures forall i :: 0 <= i < |r| ==> IsDigit(r[i])
    ensures |r| < |s| ==> !IsDigit(s[|s| - |r| - 1])
  {
    if |s| == 0 || !IsDigit(s[|s| - 1]) then ""
    else DigitSuffix(s[..|s| - 1]) + [s[|s| - 1]]
  }

  /**
   * `str.extract(r'(\d+)$')` on one URL: the maximal run of digits at the
   * end; `$` also matches just before a final newline.
   */
  function RowId(url: string): (id: Option<string>)
  {
    var t := if |url| > 0 && url[|url| - 1] == '\n' then url[..|url| - 1] else url;
    var run := DigitSuffix(t);
    if run == "" then None else Some(run)
  }

  /** The ID is present exactly when the URL ends in a digit (before an optional final newline). */
  lemma RowIdPresent(url: string)
    requires |url| == 0 || url[|url| - 1] != '\n'
    ensures RowId(url).Some? <==> |url| > 0 && IsDigit(url[|url| - 1])
    ensures RowId(url).Some? ==>
      var id := RowId(url).value;
      id == url[|url| - |id|..] && (|id| < |url| ==> !IsDigit(url[|url| - |id| - 1]))
  {
    if |url| > 0 && IsDigit(url[|url| - 1]) {
      var r := DigitSuffix(url);
      assert r[|r| - 1] == url[|url| - 1];
    }
  }

  /** One final newline does not hide a trailing number from `$`. */
  lemma RowIdIgnoresFinalNewline(url: string)
    requires |url| == 0 || url[|url| - 1] != '\n'
    ensures RowId(url + "\n") == RowId(url)
  {
    assert (url + "\n")[..|url|] == url;
  }

  /** One row of the final table: the `URL`, `Text`, `ID` and `Collection` columns. */
  datatype Row = Row(url: string, text: string, id: Option<string>, collection: string)

  /** The frame built from one collection's dictionary, tagged with its name. */
  function Frame(d: Dict, name: string): (rows: seq<Row>)
    requires Valid(d)
  {
    seq(|d.keys|, i requires 0 <= i < |d.keys| =>
      Row(d.keys[i], d.values[d.keys[i]], RowId(d.keys[i]), name))
  }

  /** `pd.concat(frames, ignore_index=True)`. */
  function Concat(frames: seq<seq<Row>>): seq<Row>
  {
    if |frames| == 0 then [] else Concat(frames[..|frames| - 1]) + frames[|frames| - 1]
  }

  /** One collection: its starting URL and what fetching its main page gives. */
  datatype Collection = Collection(url: string, page: MainPage)

  /** The list of frames after some collections, or the URL whose name lookup raised. */
  datatype Progress = Aborted(url: string) | Frames(frames: seq<seq<Row>>)

  /** What the script leaves: a traceback, the "no data" message, or the saved rows. */
  datatype RunResult = Crashed(url: string) | NothingScraped | Saved(rows: seq<Row>)

  /** The frames appended to `all_data_frames` after visiting `collections`. */
  function Progressed(urljoin: UrlJoin, collections: seq<Collection>): Progress
  {
    if |collections| == 0 then Frames([])
    else
      match Progressed(urljoin, collections[..|collections| - 1])
      case Aborted(url) => Aborted(url)
      case Frames(frames) =>
        var c := collections[|collections| - 1];
        match CollectionName(c.url)
        case None => Aborted(c.url)
        case Some(name) =>
          var data := ScrapeResult(c.url, urljoin, c.page);
          if data.Some? && |data.value.keys| > 0 then Frames(frames + [Frame(data.value, name)])
          else Frames(frames)
  }

  /** The script as a function of its inputs. */
  function Script(urljoin: UrlJoin, collections: seq<Collection>): RunResult
  {
    match Progressed(urljoin, collections)
    case Aborted(url) => Crashed(url)
    case Frames(frames) => if |frames| > 0 then Saved(Concat(frames)) else NothingScraped
  }

  /** The main block, looping over the starting URLs. */
  method RunScript(urljoin: UrlJoin, collections: seq<Collection>) returns (result: RunResult)
    ensures result == Script(urljoin, collections)
  {
    var allDataFrames: seq<seq<Row>> := [];
    var i := 0;
    while i < |collections|
      invariant 0 <= i <= |collections|
      invariant Progressed(urljoin, collections[..i]) == Frames(allDataFrames)
    {
      assert collections[..i + 1][..i] == collections[..i];
      var url := collections[i].url;
      var collectionName := CollectionName(url);
      if collectionName.None? {
        assert Progressed(urljoin, collections[..i + 1]) == Aborted(url);
        PrefixAborted(urljoin, collections, i + 1);
        return Crashed(url);
      }
      var allTextData := ScrapeLinksAndText(url, urljoin, collections[i].page);
      if allTextData.Some? && |allTextData.value.keys| > 0 {
        allDataFrames := allDataFrames + [Frame(allTextData.value, collectionName.value)];
      }
      i := i + 1;
    }
    assert collections[..i] == collections;
    if |allDataFrames| > 0 {
      return Saved(Concat(allDataFrames));
    }
    return NothingScraped;
  }

  /** Once the name lookup raises, the script stops there. */
  lemma {:induction false} PrefixAborted(urljoin: UrlJoin, collections: seq<Collection>, m: nat)
    requires m <= |collections|
    requires Progressed(urljoin, collections[..m]).Aborted?
    ensures Progressed(urljoin, collections) == Progressed(urljoin, collections[..m])
  {
    if m < |collections| {
      var n := |collections| - 1;
      assert collections[..n][..m] == collections[..m];
      PrefixAborted(urljoin, collections[..n], m);
    } else {
      assert collections[..m] == collections;
    }
  }

  /** The number of entries one collection's scrape produced. */
  function Entries(urljoin: UrlJoin, c: Collection): nat
  {
    match ScrapeResult(c.url, urljoin, c.page)
    case None => 0
    case Some(d) => |d.keys|
  }

  /** The entries of all collections together. */
  function TotalEntries(urljoin: UrlJoin, collections: seq<Collection>): nat
  {
    if |collections| == 0 then 0
    else TotalEntries(urljoin, collections[..|collections| - 1]) + Entries(urljoin, collections[|collections| - 1])
  }

  /** The rows one collection contributes: its frame when it scraped anything. */
  function Contribution(urljoin: UrlJoin, c: Collection): seq<Row>
  {
    var data := ScrapeResult(c.url, urljoin, c.page);
    match CollectionName(c.url)
    case None => []
    case Some(name) => if data.Some? && |data.value.keys| > 0 then Frame(data.value, name) else []
  }

  /** Each collection's contribution, in collection order. */
  function Contributions(urljoin: UrlJoin, collections: seq<Collection>): seq<seq<Row>>
  {
    seq(|collections|, i requires 0 <= i < |collections| => Contribution(urljoin, collections[i]))
  }

  /** Rows in collection order and, within a collection, in dictionary order. */
  function Rows(urljoin: UrlJoin, collections: seq<Collection>): seq<Row>
  {
    Concat(Contributions(urljoin, collections))
  }

  /** The contributions of a prefix of the collections are a prefix of the contributions. */
  lemma ContributionsPrefix(urljoin: UrlJoin, collections: seq<Collection>)
    requires |collections| > 0
    ensures var n := |collections| - 1;
      Rows(urljoin, collections) == Rows(urljoin, collections[..n]) + Contribution(urljoin, collections[n])
  {
    var n := |collections| - 1;
    var all := Contributions(urljoin, collections);
    assert all[..n] == Contributions(urljoin, collections[..n]);
  }

  /** Every element of a concatenation lies in one of the concatenated sequences. */
  lemma {:induction false} ConcatIndex(frames: seq<seq<Row>>, k: int)
    requires 0 <= k < |Concat(frames)|
    ensures exists i :: 0 <= i < |frames| && Concat(frames)[k] in frames[i]
  {
    var n := |frames| - 1;
    var front := Concat(frames[..n]);
    if k < |front| {
      ConcatIndex(frames[..n], k);
      var i :| 0 <= i < n && front[k] in frames[..n][i];
      assert frames[i] == frames[..n][i];
    } else {
      assert Concat(frames)[k] == frames[n][k - |front|];
    }
  }

  /** Every starting URL has a collection name. */
  predicate AllNamed(collections: seq<Collection>)
  {
    |collections| == 0 ||
    (AllNamed(collections[..|collections| - 1]) && CollectionName(collections[|collections| - 1].url).Some?)
  }

  /** The loop aborts exactly when some collection is unnamed. */
  lemma {:induction false} ProgressedAbortsUnlessNamed(urljoin: UrlJoin, collections: seq<Collection>)
    ensures Progressed(urljoin, collections).Aborted? <==> !AllNamed(collections)
  {
    if |collections| > 0 {
      ProgressedAbortsUnlessNamed(urljoin, collections[..|collections| - 1]);
    }
  }

  /** `AllNamed` checks every position. */
  lemma {:induction false} AllNamedEverywhere(collections: seq<Collection>)
    ensures AllNamed(collections) <==>
      forall i :: 0 <= i < |collections| ==> CollectionName(collections[i].url).Some?
  {
    if |collections| > 0 {
      var n := |collections| - 1;
      var prefix := collections[..n];
      AllNamedEverywhere(prefix);
      if forall i :: 0 <= i < |collections| ==> CollectionName(collections[i].url).Some? {
        assert forall i :: 0 <= i < |prefix| ==> prefix[i] == collections[i];
      }
      if AllNamed(collections) {
        assert forall i :: 0 <= i < n ==> collections[i] == prefix[i];
      }
    }
  }

  /** The loop aborts exactly when some starting URL has no '/'-separated name. */
  lemma ProgressedAborts(urljoin: UrlJoin, collections: seq<Collection>)
    ensures Progressed(urljoin, collections).Aborted? <==>
      exists i :: 0 <= i < |collections| && CollectionName(collections[i].url).None?
  {
    ProgressedAbortsUnlessNamed(urljoin, collections);
    AllNamedEverywhere(collections);
  }

  /** One more collection without an abort appends its frame when it produced an entry. */
  lemma ProgressedStep(urljoin: UrlJoin, collections: seq<Collection>)
    requires |collections| > 0 && Progressed(urljoin, collections).Frames?
    ensures var n := |collections| - 1;
      var before := Progressed(urljoin, collections[..n]);
      before.Frames? && CollectionName(collections[n].url).Some? &&
      Progressed(urljoin, collections).frames ==
        before.frames + (if Entries(urljoin, collections[n]) > 0 then [Contribution(urljoin, collections[n])] else [])
  {
  }

  /** Without an abort, the frames collected concatenate to `Rows`. */
  lemma {:induction false} ProgressedRows(urljoin: UrlJoin, collections: seq<Collection>)
    requires Progressed(urljoin, collections).Frames?
    ensures Concat(Progressed(urljoin, collections).frames) == Rows(urljoin, collections)
  {
    if |collections| > 0 {
      var n := |collections| - 1;
      var prefix := collections[..n];
      ProgressedStep(urljoin, collections);
      ProgressedRows(urljoin, prefix);
      ContributionsPrefix(urljoin, collections);
      var frames := Progressed(urljoin, prefix).frames;
      var c := collections[n];
      if Entries(urljoin, c) > 0 {
        var next := frames + [Contribution(urljoin, c)];
        assert next[..|next| - 1] == frames;
      }
    }
  }

  /** Without an abort, there is a frame exactly when the collections produced some entry. */
  lemma {:induction false} ProgressedNonEmpty(urljoin: UrlJoin, collections: seq<Collection>)
    requires Progressed(urljoin, collections).Frames?
    ensures |Progressed(urljoin, collections).frames| > 0 <==> TotalEntries(urljoin, collections) > 0
  {
    if |collections| > 0 {
      ProgressedStep(urljoin, collections);
      ProgressedNonEmpty(urljoin, collections[..|collections| - 1]);
    }
  }

  /** The total is positive exactly when some collection produced an entry. */
  lemma {:induction false} TotalEntriesPositive(urljoin: UrlJoin, collections: seq<Collection>)
    ensures TotalEntries(urljoin, collections) > 0 <==>
      exists i :: 0 <= i < |collections| && Entries(urljoin, collections[i]) > 0
  {
    if |collections| > 0 {
      var n := |collections| - 1;
      var prefix := collections[..n];
      TotalEntriesPositive(urljoin, prefix);
      if exists i :: 0 <= i < |prefix| && Entries(urljoin, prefix[i]) > 0 {
        var i :| 0 <= i < |prefix| && Entries(urljoin, prefix[i]) > 0;
        assert collections[i] == prefix[i];
      }
      if exists i :: 0 <= i < |collections| && Entries(urljoin, collections[i]) > 0 {
        var i :| 0 <= i < |collections| && Entries(urljoin, collections[i]) > 0;
        if i < n {
          assert prefix[i] == collections[i];
        }
      }
    }
  }

  /** Without an abort, there is one row per entry. */
  lemma {:induction false} RowsCount(urljoin: UrlJoin, collections: seq<Collection>)
    requires forall i :: 0 <= i < |collections| ==> CollectionName(collections[i].url).Some?
    ensures |Rows(urljoin, collections)| == TotalEntries(urljoin, collections)
  {
    if |collections| > 0 {
      RowsCount(urljoin, collections[..|collections| - 1]);
      ContributionsPrefix(urljoin, collections);
    }
  }

  /** Each row of one collection's contribution is one of its entries, with its ID. */
  lemma ContributionTagged(urljoin: UrlJoin, c: Collection, row: Row)
    requires row in Contribution(urljoin, c)
    ensures row.id == RowId(row.url) && Tagged(urljoin, c, row)
  {
    var d := ScrapeResult(c.url, urljoin, c.page).value;
    var k :| 0 <= k < |Contribution(urljoin, c)| && Contribution(urljoin, c)[k] == row;
    assert d.keys[k] in d.values;
  }

  /** Every row comes from the contribution of one of the collections. */
  lemma RowsFromContributions(urljoin: UrlJoin, collections: seq<Collection>, k: int)
    requires 0 <= k < |Rows(urljoin, collections)|
    ensures exists i :: 0 <= i < |collections| && Rows(urljoin, collections)[k] in Contribution(urljoin, collections[i])
  {
    var frames := Contributions(urljoin, collections);
    ConcatIndex(frames, k);
    var i :| 0 <= i < |frames| && Concat(frames)[k] in frames[i];
    assert frames[i] == Contribution(urljoin, collections[i]);
  }

  /**
   * Every row carries the name of a collection it came from, the ID of its
   * own URL, and the text the dictionary holds for that URL.
   */
  lemma RowsTagged(urljoin: UrlJoin, collections: seq<Collection>, k: int)
    requires 0 <= k < |Rows(urljoin, collections)|
    ensures var row := Rows(urljoin, collections)[k];
      row.id == RowId(row.url) &&
      exists i :: 0 <= i < |collections| && Tagged(urljoin, collections[i], row)
  {
    var row := Rows(urljoin, collections)[k];
    RowsFromContributions(urljoin, collections, k);
    var i :| 0 <= i < |collections| && row in Contribution(urljoin, collections[i]);
    ContributionTagged(urljoin, collections[i], row);
  }

  /** `row` is one of the entries of collection `c`, tagged with its name. */
  ghost predicate Tagged(urljoin: UrlJoin, c: Collection, row: Row)
  {
    CollectionName(c.url) == Some(row.collection) &&
    ScrapeResult(c.url, urljoin, c.page).Some? &&
    row.url in ScrapeResult(c.url, urljoin, c.page).value.values &&
    row.text == ScrapeResult(c.url, urljoin, c.page).value.values[row.url]
  }

  /**
   * The script crashes exactly when a starting URL has no name; otherwise
   * it saves exactly when some collection produced an entry, and then saves
   * one row per entry, in collection order.
   */
  lemma ScriptOutcome(urljoin: UrlJoin, collections: seq<Collection>)
    ensures Script(urljoin, collections).Crashed? <==>
      exists i :: 0 <= i < |collections| && CollectionName(collections[i].url).None?
    ensures Script(urljoin, collections).Saved? <==>
      (forall i :: 0 <= i < |collections| ==> CollectionName(collections[i].url).Some?) &&
      (exists i :: 0 <= i < |collections| && Entries(urljoin, collections[i]) > 0)
    ensures Script(urljoin, collections).Saved? ==>
      Script(urljoin, collections).rows == Rows(urljoin, collections) &&
      |Script(urljoin, collections).rows| == TotalEntries(urljoin, collections)
  {
    ProgressedAborts(urljoin, collections);
    if Progressed(urljoin, collections).Frames? {
      ProgressedRows(urljoin, collections);
      ProgressedNonEmpty(urljoin, collections);
      TotalEntriesPositive(urljoin, collections);
      RowsCount(urljoin, collections);
    }
  }
}
