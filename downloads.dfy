// app/downloads.py: downloading model files from URLs into a models
// directory. The network response is a parameter (its Content-Length
// header and the sizes of the chunks it yields); the output directory is the
// set of file names in it.
module Downloads {
  import opened Wrappers
  import opened Text
  import opened Num

  // ---------------------------------------------------------------------
  // _sanitize_name

  /** The characters [A-Za-z0-9._-] keeps. */
  predicate NameChar(c: char)
  {
    IsAlnum(c) || c == '.' || c == '_' || c == '-'
  }

  predicate CleanChars(s: string)
  {
    forall i :: 0 <= i < |s| ==> NameChar(s[i])
  }

  /** Drops the run of other characters at the front. */
  function DropRun(s: string): (r: string)
    ensures |r| <= |s| && (r == [] || NameChar(r[0]))
  {
    if s != [] && !NameChar(s[0]) then DropRun(s[1..]) else s
  }

  /** re.sub(r"[^A-Za-z0-9._-]+", "-", s): each run of other characters becomes one "-". */
  function ReplaceRuns(s: string): (r: string)
    ensures CleanChars(r)
    ensures CleanChars(s) ==> r == s
    ensures |r| <= |s|
    decreases |s|
  {
    if s == [] then []
    else if NameChar(s[0]) then [s[0]] + ReplaceRuns(s[1..])
    else "-" + ReplaceRuns(DropRun(s[1..]))
  }

  /** Stripping keeps a slice, so it keeps clean characters clean. */
  lemma TrimClean(s: string, drop: set<char>)
    requires CleanChars(s)
    ensures CleanChars(Trim(s, drop))
  {
    TrimLeftSpec(s, drop);
    var l := TrimLeft(s, drop);
    TrimRightSpec(l, drop);
    assert forall i :: 0 <= i < |l| ==> l[i] == s[|s| - |l| + i];
  }

  const MaxNameLength: nat := 80

  /**
   * _sanitize_name: a non-empty name of at most 80 characters from
   * [A-Za-z0-9._-] that does not start with "-".
   */
  function SanitizeName(value: string): (r: string)
    ensures r != [] && |r| <= MaxNameLength && CleanChars(r) && r[0] != '-'
  {
    var cleaned := ReplaceRuns(Strip(value));
    var trimmed := Trim(cleaned, {'-'});
    TrimClean(cleaned, {'-'});
    TrimSpec(cleaned, {'-'});
    var named := if trimmed == [] then "model" else trimmed;
    named[..Min(MaxNameLength, |named|)]
  }

  /** A name that is already clean is left as it is. */
  lemma SanitizeFixed(name: string)
    requires name != [] && |name| <= MaxNameLength && CleanChars(name)
    requires name[0] != '-' && name[|name| - 1] != '-'
    ensures SanitizeName(name) == name
  {
    StripClean(name);
    TrimNoop(name, {'-'});
  }

  /** Text with nothing [A-Za-z0-9._] in it is named "model". */
  lemma SanitizeFallback(value: string)
    requires forall i :: 0 <= i < |value| ==> !NameChar(value[i]) || value[i] == '-'
    ensures SanitizeName(value) == "model"
  {
    var cleaned := ReplaceRuns(Strip(value));
    StripChars(value);
    DashesOnly(Strip(value));
    TrimDashes(cleaned);
  }

  lemma StripChars(s: string)
    ensures forall i :: 0 <= i < |Strip(s)| ==> exists j :: 0 <= j < |s| && Strip(s)[i] == s[j]
  {
    TrimLeftSpec(s, Whitespace);
    var l := TrimLeft(s, Whitespace);
    TrimRightSpec(l, Whitespace);
    forall i | 0 <= i < |Strip(s)|
      ensures exists j :: 0 <= j < |s| && Strip(s)[i] == s[j]
    {
      assert Strip(s)[i] == s[|s| - |l| + i];
    }
  }

  lemma {:induction false} DashesOnly(s: string)
    requires forall i :: 0 <= i < |s| ==> !NameChar(s[i]) || s[i] == '-'
    ensures forall i :: 0 <= i < |ReplaceRuns(s)| ==> ReplaceRuns(s)[i] == '-'
    decreases |s|
  {
    if s != [] {
      if NameChar(s[0]) {
        DashesOnly(s[1..]);
      } else {
        var d := DropRun(s[1..]);
        DropRunSuffix(s[1..]);
        DashesOnly(d);
      }
    }
  }

  lemma {:induction false} DropRunSuffix(s: string)
    ensures DropRun(s) == s[|s| - |DropRun(s)|..]
  {
    if s != [] && !NameChar(s[0]) {
      DropRunSuffix(s[1..]);
    }
  }

  lemma {:induction false} TrimDashes(s: string)
    requires forall i :: 0 <= i < |s| ==> s[i] == '-'
    ensures Trim(s, {'-'}) == []
  {
    if s != [] {
      TrimDashes(s[1..]);
      assert TrimLeft(s, {'-'}) == TrimLeft(s[1..], {'-'});
    }
  }

  // ---------------------------------------------------------------------
  // Paths

  /** Path(p).name: the last component; "/" separates, and empty and "." components are dropped. */
  function PathName(p: string): (name: string)
    ensures '/' !in name && name != "."
    decreases |p|
  {
    var i := RFind(p, '/');
    var last := p[i + 1..];
    assert i < 0 ==> last == p;
    if last != "" && last != "." then last
    else if i < 0 then ""
    else PathName(p[..i])
  }

  /** A trailing "/" does not change the name. */
  lemma PathNameTrailingSlash(p: string)
    ensures PathName(p + "/") == PathName(p)
  {
    var q := p + "/";
    assert RFind(q, '/') == |p|;
    assert q[..|p|] == p;
  }

  /** The name of dir/name is name. */
  lemma PathNameLast(dir: string, name: string)
    requires name != "" && name != "." && '/' !in name
    ensures PathName(dir + "/" + name) == name
  {
    var q := dir + "/" + name;
    assert q[|dir|] == '/' && q[|dir| + 1..] == name;
  }

  /** The index of the dot that starts Path(name).suffix, when there is one. */
  function SuffixDot(name: string): (i: int)
  {
    var i := RFind(name, '.');
    if 0 < i < |name| - 1 then i else -1
  }

  /** Path(name).suffix */
  function Suffix(name: string): string
  {
    var i := SuffixDot(name);
    if i < 0 then "" else name[i..]
  }

  /** Path(name).stem */
  function Stem(name: string): string
  {
    var i := SuffixDot(name);
    if i < 0 then name else name[..i]
  }

  /** A name is its stem followed by its suffix; the stem of a non-empty name is not empty. */
  lemma StemSuffix(name: string)
    ensures Stem(name) + Suffix(name) == name
    ensures name != [] ==> Stem(name) != []
  {
  }

  // ---------------------------------------------------------------------
  // urlparse

  /** The first index of a character of `cs`, or the length. */
  function FirstIn(s: string, cs: set<char>): (i: nat)
    ensures i <= |s| && (i < |s| ==> s[i] in cs) && forall k :: 0 <= k < i ==> s[k] !in cs
  {
    if s == [] || s[0] in cs then 0 else 1 + FirstIn(s[1..], cs)
  }

  predicate IsLetter(c: char)
  {
    IsUpper(c) || IsLowerLetter(c)
  }

  predicate SchemeChar(c: char)
  {
    IsAlnum(c) || c == '+' || c == '-' || c == '.'
  }

  /** The length of the scheme urlsplit takes off the front, 0 for none. */
  function SchemeEnd(url: string): (n: nat)
    ensures n == 0 || (n < |url| && url[n] == ':')
  {
    var i := Find(url, ':');
    if i > 0 && IsLetter(url[0]) && forall k :: 0 <= k < i ==> SchemeChar(url[k]) then i else 0
  }

  /** urlparse(url).scheme: lower-cased; empty when the text before the first ":" is not a scheme. */
  function Scheme(url: string): string
  {
    Lower(url[..SchemeEnd(url)])
  }

  /** The URL after "scheme:". */
  function AfterScheme(url: string): string
  {
    var n := SchemeEnd(url);
    if n > 0 then url[n + 1..] else url
  }

  /** The text after "//netloc", which ends at the first "/", "?" or "#". */
  function AfterNetloc(rest: string): string
  {
    if StartsWith(rest, "//") then rest[2 + FirstIn(rest[2..], {'/', '?', '#'})..] else rest
  }

  /** The text before the query or the fragment. */
  function BeforeQuery(s: string): string
  {
    s[..FirstIn(s, {'?', '#'})]
  }

  /** The schemes whose last path segment urlparse splits ";params" from. */
  const UsesParams: set<string> := {"", "ftp", "hdl", "prospero", "http", "imap", "https", "shttp", "rtsp", "rtsps", "rtspu", "sip", "sips", "mms", "sftp", "tel"}

  /** _splitparams: the path up to the ";" of its last segment. */
  function DropParams(path: string): string
  {
    if '/' in path then
      var last := RFind(path, '/');
      var k := Find(path[last..], ';');
      if k < 0 then path else path[..last + k]
    else
      var k := Find(path, ';');
      if k < 0 then path else path[..k]
  }

  /** urlparse(url).path: after the scheme and the //netloc, up to "?" or "#", without ";params". */
  function UrlPath(url: string): string
  {
    var path := BeforeQuery(AfterNetloc(AfterScheme(url)));
    if Scheme(url) in UsesParams && ';' in path then DropParams(path) else path
  }

  const FallbackFilename: string := "file.bin"

  /** _filename_from_url: the last component of the URL's path, or "file.bin" when there is none. */
  function FilenameFromUrl(url: string): (name: string)
    ensures name != [] && '/' !in name
    ensures PathName(UrlPath(url)) == "" ==> name == FallbackFilename
    ensures PathName(UrlPath(url)) != "" ==> name == PathName(UrlPath(url))
  {
    var name := PathName(UrlPath(url));
    if name == "" then
      FallbackNamed();
      FallbackFilename
    else name
  }

  lemma FallbackNamed()
    ensures FallbackFilename != [] && '/' !in FallbackFilename
  {
    assert FallbackFilename == ['f', 'i', 'l', 'e', '.', 'b', 'i', 'n'];
  }

  /** _validate_url: only the http and https schemes are accepted. */
  function ValidateUrl(url: string): (r: Result<()>)
    ensures r.Ok? <==> Scheme(url) == "http" || Scheme(url) == "https"
    ensures r.Err? ==> r.error == ValueError("Unsupported URL scheme: " + Scheme(url))
  {
    var scheme := Scheme(url);
    if scheme !in {"http", "https"} then Err(ValueError("Unsupported URL scheme: " + scheme)) else Ok(())
  }

  /** The scheme is the text before the ":" that ends it. */
  lemma SchemeOf(url: string, scheme: string)
    requires 0 < |scheme| < |url| && url[..|scheme|] == scheme && url[|scheme|] == ':'
    requires IsLetter(scheme[0]) && forall k :: 0 <= k < |scheme| ==> SchemeChar(scheme[k]) && scheme[k] != ':'
    ensures SchemeEnd(url) == |scheme| && Scheme(url) == Lower(scheme)
  {
  }

  /** http:// and https:// URLs pass; text with no ":" has no scheme and fails, and so do ftp: and file: URLs. */
  lemma ValidateUrlCases(url: string)
    ensures StartsWith(url, "http://") || StartsWith(url, "https://") ==> ValidateUrl(url).Ok?
    ensures ':' !in url ==> ValidateUrl(url).Err?
    ensures StartsWith(url, "ftp:") || StartsWith(url, "file:") ==> ValidateUrl(url).Err?
  {
    if StartsWith(url, "http://") {
      assert url[..4] == url[..7][..4];
      SchemeOf(url, "http");
    } else if StartsWith(url, "https://") {
      assert url[..5] == url[..8][..5];
      SchemeOf(url, "https");
    }
    if StartsWith(url, "ftp:") {
      assert url[..3] == url[..4][..3];
      SchemeOf(url, "ftp");
    } else if StartsWith(url, "file:") {
      assert url[..4] == url[..5][..4];
      SchemeOf(url, "file");
    }
    if ':' !in url {
      assert Find(url, ':') == -1;
    }
  }

  // ---------------------------------------------------------------------
  // _unique_filename

  /** The name tried after `k` clashes: the name itself, then stem_k + suffix. */
  function Candidate(name: string, k: nat): string
  {
    if k == 0 then name else Stem(name) + "_" + NatToString(k) + Suffix(name)
  }

  /** The names tried before the k-th. */
  function Earlier(name: string, k: nat): set<string>
  {
    set j | 0 <= j < k :: Candidate(name, j)
  }


  lemma NatToStringInjective(a: nat, b: nat)
    requires NatToString(a) == NatToString(b)
    ensures a == b
  {
    NatToStringValue(a);
    NatToStringValue(b);
  }

  /** Different clash counts give different names. */
  lemma CandidateInjective(name: string, i: nat, j: nat)
    requires i != j
    ensures Candidate(name, i) != Candidate(name, j)
  {
    StemSuffix(name);
    var stem, suffix := Stem(name), Suffix(name);
    if i > 0 && j > 0 && Candidate(name, i) == Candidate(name, j) {
      var a, b := NatToString(i), NatToString(j);
      var ci, cj := Candidate(name, i), Candidate(name, j);
      assert |a| == |b|;
      assert ci[|stem| + 1..|stem| + 1 + |a|] == a;
      assert cj[|stem| + 1..|stem| + 1 + |b|] == b;
      NatToStringInjective(i, j);
    }
  }

  lemma EarlierStep(name: string, k: nat)
    ensures Earlier(name, k + 1) == Earlier(name, k) + {Candidate(name, k)}
  {
    forall x
      ensures x in Earlier(name, k + 1) <==> x in Earlier(name, k) + {Candidate(name, k)}
    {
      if x in Earlier(name, k + 1) {
        var j :| 0 <= j < k + 1 && x == Candidate(name, j);
        if j < k {
          assert x in Earlier(name, k);
        }
      }
    }
  }

  lemma EarlierFresh(name: string, k: nat)
    ensures Candidate(name, k) !in Earlier(name, k)
  {
    if Candidate(name, k) in Earlier(name, k) {
      var j :| 0 <= j < k && Candidate(name, j) == Candidate(name, k);
      CandidateInjective(name, j, k);
    }
  }

  lemma {:induction false} EarlierSize(name: string, k: nat)
    ensures |Earlier(name, k)| == k
  {
    if k > 0 {
      EarlierSize(name, k - 1);
      EarlierStep(name, k - 1);
      EarlierFresh(name, k - 1);
    }
  }

  lemma SubsetSize<T>(a: set<T>, b: set<T>)
    requires a <= b
    ensures |a| <= |b|
  {
    assert b == a + (b - a);
  }

  /** A clash with the k-th candidate blocks the first k + 1 names, so at most |blocked| candidates clash. */
  lemma ClashBound(name: string, k: nat, blocked: set<string>)
    requires k >= 1 && Earlier(name, k - 1) <= blocked && Candidate(name, k - 1) in blocked
    ensures Earlier(name, k) <= blocked && k <= |blocked|
  {
    EarlierStep(name, k - 1);
    EarlierSize(name, k);
    SubsetSize(Earlier(name, k), blocked);
  }

  /** The name _unique_filename starts from: the sanitized stem and the suffix. */
  function BaseName(filename: string): string
  {
    SanitizeName(Stem(filename)) + Suffix(filename)
  }

  /**
   * _unique_filename: the first of name, stem_1 + suffix, stem_2 + suffix, …
   * that is neither in `seen` nor a file of the directory; it is added to
   * `seen`. `clashes` counts the names tried before it, all of them taken.
   */
  method UniqueFilename(files: set<string>, filename: string, seen: set<string>)
    returns (candidate: string, seenAfter: set<string>, ghost clashes: nat)
    ensures candidate == Candidate(BaseName(filename), clashes)
    ensures candidate !in seen && candidate !in files
    ensures Earlier(BaseName(filename), clashes) <= seen + files
    ensures seenAfter == seen + {candidate}
  {
    var name := SanitizeName(Stem(filename)) + Suffix(filename);
    ghost var blocked := seen + files;
    candidate := name;
    var counter := 1;
    while candidate in seen || (candidate in files)
      invariant counter >= 1 && candidate == Candidate(name, counter - 1)
      invariant Earlier(name, counter - 1) <= blocked
      decreases |blocked| - counter
    {
      ClashBound(name, counter, blocked);
      candidate := Stem(name) + "_" + NatToString(counter) + Suffix(name);
      counter := counter + 1;
    }
    clashes := counter - 1;
    seenAfter := seen + {candidate};
  }

  // ---------------------------------------------------------------------
  // _download_file and run_download

  /** The size of one non-empty read of the response. */
  type ChunkSize = n: int | n > 0 witness 1

  /** What the server sends: the Content-Length header, if any, and the reads until the empty one. */
  datatype Response = Response(contentLength: Option<string>, chunks: seq<ChunkSize>)

  /** int(length) if length and length.isdigit() else 0 */
  function FileTotal(contentLength: Option<string>): nat
  {
    if contentLength.Some? && contentLength.value != "" && AllDigits(contentLength.value) then DigitsValue(contentLength.value) else 0
  }

  function Sum(chunks: seq<ChunkSize>): (total: int)
    ensures total >= 0 && (chunks != [] ==> total > 0)
  {
    if chunks == [] then 0 else Sum(chunks[..|chunks| - 1]) + chunks[|chunks| - 1]
  }

  /** min(99, int(downloaded / total * 100)) */
  function Percent(downloaded: int, total: int): (p: int)
    requires downloaded >= 0 && total > 0
    ensures 0 <= p <= 99
    ensures downloaded < total ==> p == downloaded * 100 / total
  {
    PercentRatio(downloaded, total);
    Min(99, Trunc(downloaded as real / total as real * 100.0))
  }

  lemma PercentRatio(downloaded: int, total: int)
    requires downloaded >= 0 && total > 0
    ensures downloaded as real / total as real * 100.0 >= 0.0
    ensures downloaded < total ==> Trunc(downloaded as real / total as real * 100.0) == downloaded * 100 / total
  {
    var ratio := downloaded as real / total as real * 100.0;
    assert (downloaded * 100) as real / total as real == ratio;
    FloorOfRatio(downloaded * 100, total);
  }

  /** More bytes never lower the progress. */
  lemma PercentMonotone(a: int, b: int, total: int)
    requires 0 <= a <= b && total > 0
    ensures Percent(a, total) <= Percent(b, total)
  {
    var t := total as real;
    assert a as real / t <= b as real / t by {
      assert a as real / t * t == a as real;
      assert b as real / t * t == b as real;
    }
  }

  lemma FloorOfRatio(a: nat, b: int)
    requires b > 0
    ensures (a as real / b as real).Floor == a / b
  {
    var q, r := a / b, a % b;
    assert a == q * b + r;
    assert a as real / b as real == q as real + r as real / b as real;
  }

  /** The job_state dict of a download: the byte counts, the progress and the files of the output directory. */
  class DownloadJob {
    var downloadedBytes: int
    var totalBytes: int
    var progress: int
    var files: set<string>

    constructor(files: set<string>)
      ensures this.files == files && downloadedBytes == 0 && totalBytes == 0 && progress == 0
    {
      this.files := files;
      downloadedBytes := 0;
      totalBytes := 0;
      progress := 0;
    }

    /**
     * _download_file: validates the URL, adds the Content-Length to the
     * running total, writes the file and counts its bytes. The progress is
     * set after every chunk while the total is known, and stays at most 99.
     */
    method DownloadFile(url: string, name: string, response: Response, runningTotal: int) returns (r: Result<int>)
      requires downloadedBytes >= 0
      modifies this
      ensures ValidateUrl(url).Err? ==> r == Err(ValidateUrl(url).error) && unchanged(this)
      ensures ValidateUrl(url).Ok? ==> r == Ok(runningTotal + FileTotal(response.contentLength))
      ensures ValidateUrl(url).Ok? ==> files == old(files) + {name}
      ensures ValidateUrl(url).Ok? ==> downloadedBytes == old(downloadedBytes) + Sum(response.chunks)
      ensures ValidateUrl(url).Ok? ==>
        totalBytes == (if FileTotal(response.contentLength) > 0 then runningTotal + FileTotal(response.contentLength) else old(totalBytes))
      ensures ValidateUrl(url).Ok? ==>
        progress == (if totalBytes > 0 && response.chunks != [] then Percent(downloadedBytes, totalBytes) else old(progress))
    {
      var valid := ValidateUrl(url);
      if valid.Err? {
        return Err(valid.error);
      }
      var fileTotal := FileTotal(response.contentLength);
      var total := runningTotal;
      if fileTotal > 0 {
        total := total + fileTotal;
        totalBytes := total;
      }
      files := files + {name};
      var chunks := response.chunks;
      for i := 0 to |chunks|
        invariant downloadedBytes == old(downloadedBytes) + Sum(chunks[..i])
        invariant totalBytes == (if fileTotal > 0 then total else old(totalBytes))
        invariant files == old(files) + {name}
        invariant progress == (if totalBytes > 0 && i > 0 then Percent(downloadedBytes, totalBytes) else old(progress))
      {
        assert chunks[..i + 1][..i] == chunks[..i];
        downloadedBytes := downloadedBytes + chunks[i];
        if totalBytes > 0 {
          progress := Percent(downloadedBytes, totalBytes);
        }
      }
      assert chunks[..|chunks|] == chunks;
      r := Ok(total);
    }

    /**
     * One pass of run_download's loop: a unique name, then the download
     * under it. Returns the new `seen` set and the running total.
     */
    method DownloadOne(url: string, seen: set<string>, runningTotal: int, overwrite: bool,
                       respond: string -> Response, extracted: string -> set<string>) returns (r: Result<(set<string>, int)>)
      requires 0 <= progress <= 99 && downloadedBytes >= 0
      modifies this
      ensures r.Ok? <==> ValidateUrl(url).Ok?
      ensures r.Err? ==> r.error.ValueError?
      ensures r.Ok? ==> downloadedBytes == old(downloadedBytes) + Sum(respond(url).chunks) && 0 <= progress <= 99
    {
      var filename, seenAfter, _ := UniqueFilename(files, FilenameFromUrl(url), seen);
      var outcome := DownloadNamed(url, filename, runningTotal, overwrite, respond(url), extracted);
      if outcome.Err? {
        return Err(outcome.error);
      }
      r := Ok((seenAfter, outcome.value));
    }

    /**
     * The rest of the pass, once the name is chosen: an existing file is
     * kept unless `overwrite`, then the file is downloaded and a zip archive
     * adds the files it holds.
     */
    method DownloadNamed(url: string, filename: string, runningTotal: int, overwrite: bool,
                         response: Response, extracted: string -> set<string>) returns (r: Result<int>)
      requires 0 <= progress <= 99 && downloadedBytes >= 0
      modifies this
      ensures filename in old(files) && !overwrite ==>
        r == Err(FileExistsError(filename + " already exists")) && unchanged(this)
      ensures !(filename in old(files) && !overwrite) ==> (r.Ok? <==> ValidateUrl(url).Ok?)
      ensures !(filename in old(files) && !overwrite) && r.Err? ==> r.error.ValueError?
      ensures r.Ok? ==> downloadedBytes == old(downloadedBytes) + Sum(response.chunks) && 0 <= progress <= 99
      ensures r.Ok? ==> files == old(files) + {filename} + (if IsZipName(filename) then extracted(filename) else {})
    {
      if filename in files && !overwrite {
        return Err(FileExistsError(filename + " already exists"));
      }
      r := DownloadFile(url, filename, response, runningTotal);
      if r.Ok? && IsZipName(filename) {
        files := files + extracted(filename);
      }
    }

    /**
     * run_download: the stripped, non-empty URLs are downloaded in order
     * under unique names, zip archives are extracted, and the progress ends
     * at 100. The output directory's name is returned.
     */
    method RunDownload(urls: seq<string>, name: string, overwrite: bool, outputAllowed: bool,
                       respond: string -> Response, extracted: string -> set<string>) returns (r: Result<string>)
      modifies this
      ensures Usable(urls) == [] ==> r == Err(ValueError("No valid URLs provided")) && unchanged(this)
      ensures Usable(urls) != [] && !outputAllowed ==> r == Err(ValueError("Invalid output path")) && unchanged(this)
      ensures r.Ok? <==> Usable(urls) != [] && outputAllowed && forall j :: 0 <= j < |Usable(urls)| ==> ValidateUrl(Usable(urls)[j]).Ok?
      ensures r.Ok? ==> r.value == OutputName(urls, name) && progress == 100
      ensures r.Ok? ==> downloadedBytes == SumAll(Usable(urls), respond)
      ensures r.Err? ==> r.error.ValueError?
    {
      var usable := Usable(urls);
      if usable == [] {
        return Err(ValueError("No valid URLs provided"));
      }
      var outputName := SanitizeName(if name != "" then name else DefaultName(usable[0]));
      if !outputAllowed {
        return Err(ValueError("Invalid output path"));
      }
      var seen: set<string> := {};
      var runningTotal := 0;
      downloadedBytes := 0;
      totalBytes := 0;
      progress := 0;
      for i := 0 to |usable|
        invariant 0 <= progress <= 99
        invariant downloadedBytes == SumAll(usable[..i], respond)
        invariant forall j :: 0 <= j < i ==> ValidateUrl(usable[j]).Ok?
      {
        assert usable[..i + 1][..i] == usable[..i];
        var outcome := DownloadOne(usable[i], seen, runningTotal, overwrite, respond, extracted);
        if outcome.Err? {
          return Err(outcome.error);
        }
        seen := outcome.value.0;
        runningTotal := outcome.value.1;
        assert forall j :: 0 <= j < i + 1 ==> ValidateUrl(usable[j]).Ok?;
      }
      assert usable[..|usable|] == usable;
      progress := 100;
      r := Ok(outputName);
    }
  }

  /** Path(filename).suffix.lower() == ".zip" */
  predicate IsZipName(filename: string)
  {
    Lower(Suffix(filename)) == ".zip"
  }

  /** [url.strip() for url in urls if url.strip()] */
  function Usable(urls: seq<string>): (r: seq<string>)
    ensures forall u :: u in r ==> u != "" && exists v :: v in urls && u == Strip(v)
  {
    if urls == [] then []
    else
      var n := |urls| - 1;
      var u := Strip(urls[n]);
      Usable(urls[..n]) + (if u != "" then [u] else [])
  }

  /** _sanitize_name(Path(_filename_from_url(urls[0])).stem or "model") */
  function DefaultName(url: string): string
  {
    var stem := Stem(FilenameFromUrl(url));
    SanitizeName(if stem != "" then stem else "model")
  }

  /** The output directory's name: the request's name, else the first URL's file stem, sanitized. */
  function OutputName(urls: seq<string>, name: string): string
    requires Usable(urls) != []
  {
    SanitizeName(if name != "" then name else DefaultName(Usable(urls)[0]))
  }

  function SumAll(urls: seq<string>, respond: string -> Response): (total: int)
    ensures total >= 0
  {
    if urls == [] then 0 else SumAll(urls[..|urls| - 1], respond) + Sum(respond(urls[|urls| - 1]).chunks)
  }
}
