/**
 * The resumable crawl controller of script.py.
 *
 * The network, the sqlite progress database, the link selector, urljoin, the
 * disk and time.sleep are abstract: the network is a function from (url,
 * global attempt number) to the attempt's outcome, the two tables are maps,
 * the saved pages are a map from (folder number, file name) to contents, and
 * every sleep is appended to a trace.  An uncaught exception stops the run
 * and is reported as a `Fault`; the tables keep what was committed before it.
 */
module Crawler {
  import opened Wrappers
  import opened Text

  type Url = string

  /** Default `retries` and `wait` of fetch_page. */
  const RETRIES: int := 3
  const WAIT: int := 190

  // ---------------------------------------------------------------------------
  // Environment

  /** What one `requests.get` attempt produced. */
  datatype Attempt =
    | Response(status: int, body: string)
    | ConnectionFailure      // requests.ConnectionError
    | OtherRequestFailure    // any other requests.RequestException

  /** The outcome of the attempt with a given global sequence number to a url. */
  type Network = (Url, nat) -> Attempt

  /** Where the script sleeps, and for how many seconds. */
  datatype SleepSite = Pacing | Backoff | SubpagePause | PeriodicPause
  datatype Sleep = Sleep(site: SleepSite, seconds: int)

  /** The external collaborators: network, link selector on index content, urljoin. */
  datatype Env = Env(net: Network, links: string -> seq<Option<string>>, join: (Url, Url) -> Url)

  // ---------------------------------------------------------------------------
  // Persistent state

  datatype FileStatus = Done | Skipped

  /** A row of the `files` table; `reason` is NULL for `done` rows. */
  datatype FileRow = FileRow(status: FileStatus, reason: Option<string>)

  /** The `pages` table (url -> processed) and the `files` table (url -> row). */
  datatype Store = Store(pages: map<Url, int>, files: map<Url, FileRow>)

  /** Saved pages: (page number of the folder, file name) -> contents. */
  type Disk = map<(int, string), string>

  /** Everything a run changes or consumes. */
  datatype World = World(store: Store, disk: Disk, sleeps: seq<Sleep>, attempts: nat)

  /** The uncaught exceptions that end a run. */
  datatype Fault =
    | DuplicateFile(url: Url)        // sqlite3.IntegrityError on INSERT INTO files
    | DuplicatePage(url: Url)        // sqlite3.IntegrityError on INSERT INTO pages
    | MissingHref                    // an anchor without href: None.startswith
    | ResumeIndexError(url: Url)     // resume url without any '/'
    | ResumeValueError(url: Url)     // its segment is not an integer

  datatype Step = Step(world: World, fault: Option<Fault>)

  /** Command-line settings passed to crawl. */
  datatype Config = Config(baseUrl: Url, sleepTime: int, pagesBeforePause: int, pauseTime: int, retrySkipped: bool)

  // ---------------------------------------------------------------------------
  // Pure helpers

  /** validate_and_construct_url: absolute links are kept, others joined to the base. */
  function ValidateAndConstructUrl(baseUrl: Url, link: string, join: (Url, Url) -> Url): (url: Url)
    ensures StartsWith(link, "http:") || StartsWith(link, "https:") ==> url == link
    ensures !(StartsWith(link, "http:") || StartsWith(link, "https:")) ==> url == join(baseUrl, link)
  {
    if StartsWith(link, "http:") || StartsWith(link, "https:") then link else join(baseUrl, link)
  }

  /** The file name process_subpage saves a subpage under. */
  function Filename(url: Url): (name: string)
    ensures '/' !in name
  {
    var parts := Split(url, '/');
    if EndsWith(url, '/') then
      assert Count(url, '/') >= 1 by { CountOfLast(url, '/'); }
      parts[|parts| - 2] + ".html"
    else parts[|parts| - 1]
  }

  lemma {:induction false} CountOfLast(s: string, c: char)
    requires EndsWith(s, c)
    ensures Count(s, c) >= 1
    decreases |s|
  {
    if |s| > 1 {
      assert s[1..][|s[1..]| - 1] == s[|s| - 1];
      CountOfLast(s[1..], c);
    }
  }

  /** A url ending in '/' is saved as its last real segment plus ".html". */
  lemma FilenameOfTrailingSlash(prefix: string, segment: string)
    requires '/' !in segment
    ensures Filename(segment + "/") == segment + ".html"
    ensures Filename(prefix + "/" + segment + "/") == segment + ".html"
  {
    SplitWithoutSeparator(segment, '/');
    SplitAtSeparator(segment, "", '/');
    assert segment + "/" == segment + ['/'] + "";
    SplitAtSeparator(prefix, segment + "/", '/');
    assert prefix + "/" + segment + "/" == prefix + ['/'] + (segment + "/");
  }

  /** Any other url is saved as the text after its last '/', with nothing appended. */
  lemma FilenameOfPlainUrl(prefix: string, segment: string)
    requires '/' !in segment && segment != ""
    ensures Filename(segment) == segment
    ensures Filename(prefix + "/" + segment) == segment
  {
    SplitWithoutSeparator(segment, '/');
    SplitAtSeparator(prefix, segment, '/');
    assert prefix + "/" + segment == prefix + ['/'] + segment;
  }

  /**
   * The page number of a resume url: `int(url.rsplit('/', 2)[-2])`, which is
   * the last-but-one piece of `url.split('/')` when the url has a '/'.
   */
  function ResumeNumber(url: Url): (r: Result<int, Fault>)
    ensures r == Err(ResumeIndexError(url)) <==> '/' !in url
    ensures r.Err? ==> r.error == ResumeIndexError(url) || r.error == ResumeValueError(url)
  {
    var parts := Split(url, '/');
    CountZeroIffAbsent(url, '/');
    if |parts| < 2 then Err(ResumeIndexError(url))
    else match ParseInt(parts[|parts| - 2])
      case None => Err(ResumeValueError(url))
      case Some(n) => Ok(n)
  }

  /** A folder url "…/n/" resumes at page number n. */
  lemma ResumeNumberOfFolderUrl(prefix: string, n: int)
    ensures ResumeNumber(prefix + "/" + IntToString(n) + "/") == Ok(n)
  {
    var seg := IntToString(n);
    assert '/' !in seg by {
      if n < 0 { assert seg == "-" + NatToString(-n); assert seg[1..] == NatToString(-n); }
      forall i | 0 <= i < |seg| ensures seg[i] != '/' {
        if n < 0 && i > 0 { assert seg[i] == NatToString(-n)[i - 1]; }
      }
    }
    SplitWithoutSeparator(seg, '/');
    SplitAtSeparator(seg, "", '/');
    assert seg + "/" == seg + ['/'] + "";
    SplitAtSeparator(prefix, seg + "/", '/');
    assert prefix + "/" + seg + "/" == prefix + ['/'] + (seg + "/");
    ParseIntOfIntToString(n);
  }

  // ---------------------------------------------------------------------------
  // fetch_page

  predicate IsRejection(status: int)
  {
    400 <= status < 600
  }

  /** What fetch_page returns, the next global attempt number and the sleeps it made. */
  datatype Fetched = Fetched(content: Option<string>, code: Option<int>, next: nat, sleeps: seq<Sleep>)

  function Max(a: int, b: int): int
  {
    if a < b then b else a
  }

  /** fetch_page over the attempts numbered k, k+1, … */
  function Fetch(url: Url, sleepTime: int, retries: int, wait: int, net: Network, k: nat): (r: Fetched)
    ensures k <= r.next <= k + Max(0, retries)
    ensures !(r.content.Some? && r.code.Some?)
    ensures r.code.Some? ==> IsRejection(r.code.value)
    decreases retries
  {
    if retries <= 0 then Fetched(None, None, k, [])
    else match net(url, k)
      case Response(status, body) =>
        if IsRejection(status) then Fetched(None, Some(status), k + 1, [Sleep(Pacing, sleepTime)])
        else Fetched(Some(body), None, k + 1, [Sleep(Pacing, sleepTime)])
      case _ =>
        var r := Fetch(url, sleepTime, retries - 1, wait, net, k + 1);
        r.(sleeps := [Sleep(Pacing, sleepTime), Sleep(Backoff, wait)] + r.sleeps)
  }

  /** n failed attempts: each a pacing sleep followed by the backoff. */
  function TransientTrace(sleepTime: int, wait: int, n: nat): (t: seq<Sleep>)
    ensures |t| == 2 * n
  {
    if n == 0 then [] else [Sleep(Pacing, sleepTime), Sleep(Backoff, wait)] + TransientTrace(sleepTime, wait, n - 1)
  }

  /**
   * When attempt k+j is the first to get a response and j < retries, fetch_page
   * stops right there: it made j+1 attempts, slept pacing+backoff for each of
   * the j failures and pacing once more, and classified that response.
   */
  lemma {:induction false} FetchStopsAtFirstResponse(url: Url, sleepTime: int, retries: int, wait: int, net: Network, k: nat, j: nat)
    requires j < retries
    requires forall i :: k <= i < k + j ==> !net(url, i).Response?
    requires net(url, k + j).Response?
    ensures var r := Fetch(url, sleepTime, retries, wait, net, k);
      var a := net(url, k + j);
      && r.next == k + j + 1
      && r.sleeps == TransientTrace(sleepTime, wait, j) + [Sleep(Pacing, sleepTime)]
      && (IsRejection(a.status) ==> r.content == None && r.code == Some(a.status))
      && (!IsRejection(a.status) ==> r.content == Some(a.body) && r.code == None)
    decreases j
  {
    if j > 0 {
      assert !net(url, k).Response?;
      FetchStopsAtFirstResponse(url, sleepTime, retries - 1, wait, net, k + 1, j - 1);
    }
  }

  /**
   * When all `retries` attempts fail transiently, fetch_page returns
   * (None, None) after exactly that many attempts, each followed by the backoff;
   * with retries <= 0 it makes no attempt and does not sleep.
   */
  lemma {:induction false} FetchGivesUpAfterTransients(url: Url, sleepTime: int, retries: int, wait: int, net: Network, k: nat)
    requires forall i :: k <= i < k + retries ==> !net(url, i).Response?
    ensures var n := Max(0, retries);
      Fetch(url, sleepTime, retries, wait, net, k) == Fetched(None, None, k + n, TransientTrace(sleepTime, wait, n))
    decreases retries
  {
    if retries > 0 {
      assert !net(url, k).Response?;
      FetchGivesUpAfterTransients(url, sleepTime, retries - 1, wait, net, k + 1);
    }
  }

  /** The number of sleeps at a site. */
  function CountSite(t: seq<Sleep>, site: SleepSite): nat
  {
    if t == [] then 0 else (if t[0].site == site then 1 else 0) + CountSite(t[1..], site)
  }

  lemma {:induction false} CountSiteAppend(a: seq<Sleep>, b: seq<Sleep>, site: SleepSite)
    ensures CountSite(a + b, site) == CountSite(a, site) + CountSite(b, site)
    decreases |a|
  {
    if a != [] {
      assert (a + b)[0] == a[0];
      assert (a + b)[1..] == a[1..] + b;
      CountSiteAppend(a[1..], b, site);
    } else {
      assert a + b == b;
    }
  }

  /** Every attempt is preceded by exactly one pacing sleep. */
  lemma {:induction false} FetchPacesEveryAttempt(url: Url, sleepTime: int, retries: int, wait: int, net: Network, k: nat)
    ensures var r := Fetch(url, sleepTime, retries, wait, net, k);
      CountSite(r.sleeps, Pacing) == r.next - k
    decreases retries
  {
    if retries > 0 && !net(url, k).Response? {
      var r := Fetch(url, sleepTime, retries - 1, wait, net, k + 1);
      FetchPacesEveryAttempt(url, sleepTime, retries - 1, wait, net, k + 1);
      CountSiteAppend([Sleep(Pacing, sleepTime), Sleep(Backoff, wait)], r.sleeps, Pacing);
    }
  }

  /** One attempt that gets a response ends the fetch, after earlier sleeps `pre`. */
  lemma FetchOnResponse(url: Url, sleepTime: int, retries: int, wait: int, net: Network, k: nat, pre: seq<Sleep>)
    requires retries > 0 && net(url, k).Response?
    ensures var a := net(url, k);
      var r := Fetch(url, sleepTime, retries, wait, net, k);
      r.(sleeps := pre + r.sleeps) ==
        Fetched(if IsRejection(a.status) then None else Some(a.body),
                if IsRejection(a.status) then Some(a.status) else None, k + 1, pre + [Sleep(Pacing, sleepTime)])
  {
  }

  /** One attempt that fails transiently adds pacing and backoff to earlier sleeps `pre`. */
  lemma FetchAfterTransient(url: Url, sleepTime: int, retries: int, wait: int, net: Network, k: nat, pre: seq<Sleep>)
    requires retries > 0 && !net(url, k).Response?
    ensures var r := Fetch(url, sleepTime, retries, wait, net, k);
      var r' := Fetch(url, sleepTime, retries - 1, wait, net, k + 1);
      r.(sleeps := pre + r.sleeps) == r'.(sleeps := (pre + [Sleep(Pacing, sleepTime), Sleep(Backoff, wait)]) + r'.sleeps)
  {
    var r' := Fetch(url, sleepTime, retries - 1, wait, net, k + 1);
    assert (pre + [Sleep(Pacing, sleepTime), Sleep(Backoff, wait)]) + r'.sleeps
        == pre + ([Sleep(Pacing, sleepTime), Sleep(Backoff, wait)] + r'.sleeps);
  }

  /** fetch_page: at most `retries` attempts, each after a pacing sleep. */
  method FetchPage(url: Url, sleepTime: int, retries: int, wait: int, net: Network, k: nat)
    returns (content: Option<string>, code: Option<int>, next: nat, sleeps: seq<Sleep>)
    ensures Fetched(content, code, next, sleeps) == Fetch(url, sleepTime, retries, wait, net, k)
  {
    var attempt := 0;
    next, sleeps := k, [];
    assert Fetch(url, sleepTime, retries, wait, net, k).sleeps == [] + Fetch(url, sleepTime, retries, wait, net, k).sleeps;
    while attempt < retries
      invariant 0 <= attempt && next == k + attempt
      invariant var rest := Fetch(url, sleepTime, retries - attempt, wait, net, next);
        Fetch(url, sleepTime, retries, wait, net, k) == rest.(sleeps := sleeps + rest.sleeps)
      decreases retries - attempt
    {
      var outcome := net(url, next);
      if outcome.Response? {
        var code := if IsRejection(outcome.status) then Some(outcome.status) else None;
        var body := if IsRejection(outcome.status) then None else Some(outcome.body);
        FetchOnResponse(url, sleepTime, retries - attempt, wait, net, next, sleeps);
        return body, code, next + 1, sleeps + [Sleep(Pacing, sleepTime)];
      }
      // requests.ConnectionError or another requests.RequestException: back off
      FetchAfterTransient(url, sleepTime, retries - attempt, wait, net, next, sleeps);
      sleeps := sleeps + [Sleep(Pacing, sleepTime), Sleep(Backoff, wait)];
      next := next + 1;
      attempt := attempt + 1;
    }
    assert sleeps + [] == sleeps;
    content, code := None, None;
  }

  // ---------------------------------------------------------------------------
  // process_page

  /**
   * The skip test at the head of the link loop: only a `skipped` row outside a
   * retry pass stops the fetch; a `done` row does not.
   */
  predicate ShouldFetch(files: map<Url, FileRow>, url: Url, retrySkipped: bool)
    ensures url !in files ==> ShouldFetch(files, url, retrySkipped)
    ensures url in files && files[url].status == Done ==> ShouldFetch(files, url, retrySkipped)
    ensures retrySkipped ==> ShouldFetch(files, url, retrySkipped)
    ensures !ShouldFetch(files, url, retrySkipped) ==> url in files && files[url].status == Skipped
  {
    !(url in files && !retrySkipped && files[url].status == Skipped)
  }

  /** The reason stored for a failed fetch: f"HTTP error {code}". */
  function ErrorReason(code: Option<int>): (reason: string)
    ensures StartsWith(reason, "HTTP error ")
    ensures reason == "HTTP error None" <==> code.None?
  {
    match code
    case None => "HTTP error None"
    case Some(c) =>
      var reason := "HTTP error " + IntToString(c);
      assert reason[11] == IntToString(c)[0];
      reason
  }

  /** The status code can be read back from the stored reason. */
  lemma ErrorReasonNamesCode(c: int)
    ensures ParseInt(ErrorReason(Some(c))[11..]) == Some(c)
  {
    assert ErrorReason(Some(c))[11..] == IntToString(c);
    ParseIntOfIntToString(c);
  }

  /** The reason stored for a 404. */
  lemma ReasonFor404()
    ensures ErrorReason(Some(404)) == "HTTP error 404"
  {
    assert IntToString(404) == "404" by {
      assert NatToString(4) == "4";
      assert NatToString(40) == "40";
    }
  }

  /** One iteration of the link loop of process_page. */
  function LinkStep(w: World, cfg: Config, env: Env, page: int, href: Option<string>): (s: Step)
    ensures Extends(w.store, s.world.store) && s.world.store.pages == w.store.pages
    ensures href.None? ==> s == Step(w, Some(MissingHref))
    ensures s.fault.None? || s.fault == Some(MissingHref) || s.fault.value.DuplicateFile?
    ensures w.attempts <= s.world.attempts <= w.attempts + RETRIES
  {
    match href
    case None => Step(w, Some(MissingHref))
    case Some(link) =>
      var url := ValidateAndConstructUrl(cfg.baseUrl, link, env.join);
      if !ShouldFetch(w.store.files, url, cfg.retrySkipped) then Step(w, None)
      else
        var f := Fetch(url, cfg.sleepTime, RETRIES, WAIT, env.net, w.attempts);
        var disk := if f.content.Some? then w.disk[(page, Filename(url)) := f.content.value] else w.disk;
        var w1 := w.(disk := disk, sleeps := w.sleeps + f.sleeps, attempts := f.next);
        if url in w.store.files then Step(w1, Some(DuplicateFile(url)))
        else
          var row := if f.content.None? then FileRow(Skipped, Some(ErrorReason(f.code))) else FileRow(Done, None);
          Step(w1.(store := w.store.(files := w.store.files[url := row]),
                   sleeps := w1.sleeps + [Sleep(SubpagePause, cfg.pauseTime)]), None)
  }

  /** The link loop of process_page, stopped by the first uncaught exception. */
  function LinksRun(w: World, cfg: Config, env: Env, page: int, hrefs: seq<Option<string>>): (s: Step)
    ensures Extends(w.store, s.world.store) && s.world.store.pages == w.store.pages
    decreases |hrefs|
  {
    if hrefs == [] then Step(w, None)
    else
      var s := LinkStep(w, cfg, env, page, hrefs[0]);
      if s.fault.Some? then s else LinksRun(s.world, cfg, env, page, hrefs[1..])
  }

  /** process_page: fetch the index, walk its links, then mark the index processed. */
  function PageRun(w: World, cfg: Config, env: Env, url: Url, page: int): (s: Step)
    ensures Extends(w.store, s.world.store)
    ensures s.fault.None? ==> url !in w.store.pages && s.world.store.pages == w.store.pages[url := 1]
    ensures s.fault.Some? ==> s.world.store.pages == w.store.pages
  {
    var f := Fetch(url, cfg.sleepTime, RETRIES, WAIT, env.net, w.attempts);
    var w1 := w.(sleeps := w.sleeps + f.sleeps, attempts := f.next);
    var s := if f.content.Some? && f.content.value != "" then LinksRun(w1, cfg, env, page, env.links(f.content.value))
             else Step(w1, None);
    if s.fault.Some? then s
    else if url in s.world.store.pages then Step(s.world, Some(DuplicatePage(url)))
    else Step(s.world.(store := s.world.store.(pages := s.world.store.pages[url := 1])), None)
  }

  method ProcessPage(w: World, cfg: Config, env: Env, url: Url, page: int) returns (s: Step)
    ensures s == PageRun(w, cfg, env, url, page)
  {
    var content, _, next, pacing := FetchPage(url, cfg.sleepTime, RETRIES, WAIT, env.net, w.attempts);
    var cur := w.(sleeps := w.sleeps + pacing, attempts := next);
    if content.Some? && content.value != "" {
      var hrefs := env.links(content.value);
      ghost var start := cur;
      var i := 0;
      while i < |hrefs|
        invariant 0 <= i <= |hrefs|
        invariant LinksRun(start, cfg, env, page, hrefs) == LinksRun(cur, cfg, env, page, hrefs[i..])
      {
        assert hrefs[i..][0] == hrefs[i] && hrefs[i..][1..] == hrefs[i + 1..];
        match hrefs[i] {
          case None =>
            return Step(cur, Some(MissingHref));
          case Some(link) =>
            var subUrl := ValidateAndConstructUrl(cfg.baseUrl, link, env.join);
            if ShouldFetch(cur.store.files, subUrl, cfg.retrySkipped) {
              var subContent, subCode, subNext, subSleeps := FetchPage(subUrl, cfg.sleepTime, RETRIES, WAIT, env.net, cur.attempts);
              var known := subUrl in cur.store.files;
              var files := cur.store.files;
              if subContent.Some? {
                cur := cur.(disk := cur.disk[(page, Filename(subUrl)) := subContent.value]);
              }
              cur := cur.(sleeps := cur.sleeps + subSleeps, attempts := subNext);
              if known {
                return Step(cur, Some(DuplicateFile(subUrl)));
              }
              var row := if subContent.None? then FileRow(Skipped, Some(ErrorReason(subCode))) else FileRow(Done, None);
              cur := cur.(store := cur.store.(files := files[subUrl := row]));
              cur := cur.(sleeps := cur.sleeps + [Sleep(SubpagePause, cfg.pauseTime)]);
            }
        }
        i := i + 1;
      }
    }
    if url in cur.store.pages {
      return Step(cur, Some(DuplicatePage(url)));
    }
    s := Step(cur.(store := cur.store.(pages := cur.store.pages[url := 1])), None);
  }

  // ---------------------------------------------------------------------------
  // Properties of process_page

  /** A `skipped` link outside a retry pass is not fetched and changes nothing. */
  lemma SkippedLinkIsNotFetched(w: World, cfg: Config, env: Env, page: int, link: string)
    requires var url := ValidateAndConstructUrl(cfg.baseUrl, link, env.join);
      url in w.store.files && w.store.files[url].status == Skipped && !cfg.retrySkipped
    ensures LinkStep(w, cfg, env, page, Some(link)) == Step(w, None)
  {
  }

  /**
   * Every other link is fetched: a url without a row gets exactly one new row
   * (`done` with no reason when content came back, else `skipped` with
   * "HTTP error <code>") followed by one subpage pause; a url that already has
   * a row, `done` or `skipped`, makes the INSERT fail. Content that came back
   * is saved before the INSERT, so also when it fails.
   */
  lemma FetchedLinkGetsOneRecord(w: World, cfg: Config, env: Env, page: int, link: string)
    requires ShouldFetch(w.store.files, ValidateAndConstructUrl(cfg.baseUrl, link, env.join), cfg.retrySkipped)
    ensures var url := ValidateAndConstructUrl(cfg.baseUrl, link, env.join);
      var f := Fetch(url, cfg.sleepTime, RETRIES, WAIT, env.net, w.attempts);
      var s := LinkStep(w, cfg, env, page, Some(link));
      && s.world.attempts == f.next
      && s.world.store.pages == w.store.pages
      && (url in w.store.files <==> s.fault == Some(DuplicateFile(url)))
      && s.world.disk == (if f.content.Some? then w.disk[(page, Filename(url)) := f.content.value] else w.disk)
    ensures var url := ValidateAndConstructUrl(cfg.baseUrl, link, env.join);
      var f := Fetch(url, cfg.sleepTime, RETRIES, WAIT, env.net, w.attempts);
      var s := LinkStep(w, cfg, env, page, Some(link));
      url in w.store.files ==> s.world.store == w.store && s.world.sleeps == w.sleeps + f.sleeps
    ensures var url := ValidateAndConstructUrl(cfg.baseUrl, link, env.join);
      var f := Fetch(url, cfg.sleepTime, RETRIES, WAIT, env.net, w.attempts);
      var s := LinkStep(w, cfg, env, page, Some(link));
      url !in w.store.files ==>
        && s.fault == None
        && s.world.store.files.Keys == w.store.files.Keys + {url}
        && (forall v :: v in w.store.files ==> s.world.store.files[v] == w.store.files[v])
        && s.world.store.files[url] == (if f.content.Some? then FileRow(Done, None)
                                        else FileRow(Skipped, Some(ErrorReason(f.code))))
        && s.world.sleeps == w.sleeps + f.sleeps + [Sleep(SubpagePause, cfg.pauseTime)]
  {
    var url := ValidateAndConstructUrl(cfg.baseUrl, link, env.join);
    var f := Fetch(url, cfg.sleepTime, RETRIES, WAIT, env.net, w.attempts);
    var s := LinkStep(w, cfg, env, page, Some(link));
    if url !in w.store.files {
      var row := if f.content.None? then FileRow(Skipped, Some(ErrorReason(f.code))) else FileRow(Done, None);
      assert s.world.store.files == w.store.files[url := row];
    }
  }

  /** The first-run record of a link the server answers with 404. */
  lemma RejectedLinkRecord(w: World, cfg: Config, env: Env, page: int, link: string, body: string)
    requires var url := ValidateAndConstructUrl(cfg.baseUrl, link, env.join);
      url !in w.store.files && env.net(url, w.attempts) == Response(404, body)
    ensures var url := ValidateAndConstructUrl(cfg.baseUrl, link, env.join);
      var s := LinkStep(w, cfg, env, page, Some(link));
      s.fault == None && s.world.store.files[url] == FileRow(Skipped, Some("HTTP error 404"))
  {
    var url := ValidateAndConstructUrl(cfg.baseUrl, link, env.join);
    FetchStopsAtFirstResponse(url, cfg.sleepTime, RETRIES, WAIT, env.net, w.attempts, 0);
    ReasonFor404();
    var f := Fetch(url, cfg.sleepTime, RETRIES, WAIT, env.net, w.attempts);
    assert f.content == None && f.code == Some(404);
    FetchedLinkGetsOneRecord(w, cfg, env, page, link);
  }

  /** Rows are never replaced: process_page keeps every existing row of both tables. */
  predicate Extends(before: Store, after: Store)
  {
    && before.pages.Keys <= after.pages.Keys
    && (forall u :: u in before.pages ==> after.pages[u] == before.pages[u])
    && before.files.Keys <= after.files.Keys
    && (forall u :: u in before.files ==> after.files[u] == before.files[u])
  }

  /**
   * A url that is already in `pages` can never be processed to the end: either
   * a link fails or the final INSERT INTO pages does.
   */
  lemma KnownIndexPageAlwaysFails(w: World, cfg: Config, env: Env, url: Url, page: int)
    requires url in w.store.pages
    ensures PageRun(w, cfg, env, url, page).fault.Some?
  {
  }

  /**
   * When the index fetch returns nothing (or empty text), no link is visited
   * and the index url is still inserted with processed = 1.
   */
  lemma IndexMarkedEvenIfFetchFailed(w: World, cfg: Config, env: Env, url: Url, page: int)
    requires url !in w.store.pages
    requires var f := Fetch(url, cfg.sleepTime, RETRIES, WAIT, env.net, w.attempts);
      f.content.None? || f.content.value == ""
    ensures var s := PageRun(w, cfg, env, url, page);
      && s.fault == None
      && s.world.store.pages == w.store.pages[url := 1]
      && s.world.store.files == w.store.files
      && s.world.disk == w.disk
  {
  }

  /**
   * On a link loop that completes, the subpage pause is slept once per new row
   * (that is, once per fetched link) and never for a link skipped by
   * `continue`; and every attempt is preceded by one pacing sleep.
   */
  lemma {:induction false} LinksRunSleeps(w: World, cfg: Config, env: Env, page: int, hrefs: seq<Option<string>>)
    requires LinksRun(w, cfg, env, page, hrefs).fault == None
    ensures var s := LinksRun(w, cfg, env, page, hrefs);
      && w.sleeps <= s.world.sleeps
      && CountSite(s.world.sleeps[|w.sleeps|..], SubpagePause) == |s.world.store.files.Keys| - |w.store.files.Keys|
      && CountSite(s.world.sleeps[|w.sleeps|..], Pacing) == s.world.attempts - w.attempts
    decreases |hrefs|
  {
    if hrefs != [] {
      var s := LinkStep(w, cfg, env, page, hrefs[0]);
      assert s.fault == None;
      LinkStepSleeps(w, cfg, env, page, hrefs[0]);
      LinksRunSleeps(s.world, cfg, env, page, hrefs[1..]);
      var e := LinksRun(s.world, cfg, env, page, hrefs[1..]);
      assert LinksRun(w, cfg, env, page, hrefs) == e;
      SleepsCompose(w.sleeps, s.world.sleeps, e.world.sleeps);
    }
  }

  /** Site counts of the sleeps added over two consecutive stretches add up. */
  lemma SleepsCompose(a: seq<Sleep>, b: seq<Sleep>, c: seq<Sleep>)
    requires a <= b <= c
    ensures a <= c
    ensures CountSite(c[|a|..], SubpagePause) == CountSite(b[|a|..], SubpagePause) + CountSite(c[|b|..], SubpagePause)
    ensures CountSite(c[|a|..], Pacing) == CountSite(b[|a|..], Pacing) + CountSite(c[|b|..], Pacing)
  {
    assert c[|a|..] == b[|a|..] + c[|b|..];
    CountSiteAppend(b[|a|..], c[|b|..], SubpagePause);
    CountSiteAppend(b[|a|..], c[|b|..], Pacing);
  }

  lemma LinkStepSleeps(w: World, cfg: Config, env: Env, page: int, href: Option<string>)
    requires LinkStep(w, cfg, env, page, href).fault == None
    ensures var s := LinkStep(w, cfg, env, page, href);
      && w.sleeps <= s.world.sleeps
      && w.attempts <= s.world.attempts
      && w.store.files.Keys <= s.world.store.files.Keys
      && CountSite(s.world.sleeps[|w.sleeps|..], SubpagePause) == |s.world.store.files.Keys| - |w.store.files.Keys|
      && CountSite(s.world.sleeps[|w.sleeps|..], Pacing) == s.world.attempts - w.attempts
  {
    var s := LinkStep(w, cfg, env, page, href);
    if href.Some? {
      var url := ValidateAndConstructUrl(cfg.baseUrl, href.value, env.join);
      if ShouldFetch(w.store.files, url, cfg.retrySkipped) {
        FetchedLinkSleeps(w, cfg, env, page, href.value);
      } else {
        assert s.world == w;
        assert s.world.sleeps[|w.sleeps|..] == [];
      }
    }
  }

  /** The sleeps of one fetched link that gets its row: the fetch's own, then one subpage pause. */
  lemma FetchedLinkSleeps(w: World, cfg: Config, env: Env, page: int, link: string)
    requires ShouldFetch(w.store.files, ValidateAndConstructUrl(cfg.baseUrl, link, env.join), cfg.retrySkipped)
    requires LinkStep(w, cfg, env, page, Some(link)).fault == None
    ensures var s := LinkStep(w, cfg, env, page, Some(link));
      && w.sleeps <= s.world.sleeps
      && w.attempts <= s.world.attempts
      && w.store.files.Keys <= s.world.store.files.Keys
      && CountSite(s.world.sleeps[|w.sleeps|..], SubpagePause) == |s.world.store.files.Keys| - |w.store.files.Keys|
      && CountSite(s.world.sleeps[|w.sleeps|..], Pacing) == s.world.attempts - w.attempts
  {
    var url := ValidateAndConstructUrl(cfg.baseUrl, link, env.join);
    var f := Fetch(url, cfg.sleepTime, RETRIES, WAIT, env.net, w.attempts);
    var s := LinkStep(w, cfg, env, page, Some(link));
    var added := f.sleeps + [Sleep(SubpagePause, cfg.pauseTime)];
    FetchedLinkGetsOneRecord(w, cfg, env, page, link);
    assert url !in w.store.files;
    assert s.world.sleeps == w.sleeps + added;
    assert s.world.sleeps[|w.sleeps|..] == added;
    assert |s.world.store.files.Keys| == |w.store.files.Keys| + 1;
    FetchPacesEveryAttempt(url, cfg.sleepTime, RETRIES, WAIT, env.net, w.attempts);
    FetchOnlyPaces(url, cfg.sleepTime, RETRIES, WAIT, env.net, w.attempts);
    CountSiteAppend(f.sleeps, [Sleep(SubpagePause, cfg.pauseTime)], SubpagePause);
    CountSiteAppend(f.sleeps, [Sleep(SubpagePause, cfg.pauseTime)], Pacing);
  }

  /** fetch_page never sleeps the subpage pause. */
  lemma {:induction false} FetchOnlyPaces(url: Url, sleepTime: int, retries: int, wait: int, net: Network, k: nat)
    ensures CountSite(Fetch(url, sleepTime, retries, wait, net, k).sleeps, SubpagePause) == 0
    decreases retries
  {
    if retries > 0 && !net(url, k).Response? {
      var r := Fetch(url, sleepTime, retries - 1, wait, net, k + 1);
      FetchOnlyPaces(url, sleepTime, retries - 1, wait, net, k + 1);
      CountSiteAppend([Sleep(Pacing, sleepTime), Sleep(Backoff, wait)], r.sleeps, SubpagePause);
    }
  }

  // ---------------------------------------------------------------------------
  // crawl

  /**
   * The page_counter rule after each page: pause when the counter has reached
   * pages_before_pause, then reset; the counter is incremented either way.
   */
  function PauseRule(counter: int, pagesBeforePause: int): (r: (bool, int))
    ensures r.0 <==> counter >= pagesBeforePause
    ensures 0 <= counter <= Max(1, pagesBeforePause) ==> 1 <= r.1 <= Max(1, pagesBeforePause)
    ensures r.0 ==> r.1 == 1
  {
    if counter >= pagesBeforePause then (true, 1) else (false, counter + 1)
  }

  datatype CrawlEnd = CrawlEnd(world: World, counter: int, fault: Option<Fault>)

  /** The while loop of crawl over a queue that nothing is ever appended to. */
  function QueueRun(w: World, counter: int, queue: seq<(Url, int)>, cfg: Config, env: Env): (r: CrawlEnd)
    ensures 0 <= counter <= Max(1, cfg.pagesBeforePause) ==> 0 <= r.counter <= Max(1, cfg.pagesBeforePause)
    ensures queue != [] && r.fault.None? && counter >= 0 ==> 1 <= r.counter
    ensures Extends(w.store, r.world.store)
    decreases |queue|
  {
    if queue == [] then CrawlEnd(w, counter, None)
    else
      var s := PageRun(w, cfg, env, queue[0].0, queue[0].1);
      if s.fault.Some? then CrawlEnd(s.world, counter, s.fault)
      else
        var (paused, next) := PauseRule(counter, cfg.pagesBeforePause);
        var w1 := if paused then s.world.(sleeps := s.world.sleeps + [Sleep(PeriodicPause, cfg.pauseTime)]) else s.world;
        QueueRun(w1, next, queue[1..], cfg, env)
  }

  /** The initial queue: the base url as page 1, or the resume cursor and its number. */
  function StartQueue(baseUrl: Url, cursor: Option<Url>): (r: Result<seq<(Url, int)>, Fault>)
    ensures cursor.None? ==> r == Ok([(baseUrl, 1)])
    ensures cursor.Some? ==> (r.Ok? <==> ResumeNumber(cursor.value).Ok?)
    ensures cursor.Some? && r.Ok? ==> r.value == [(cursor.value, ResumeNumber(cursor.value).value)]
    ensures r.Err? ==> cursor.Some? && r.error == ResumeNumber(cursor.value).error
    ensures r.Ok? ==> |r.value| == 1
  {
    match cursor
    case None => Ok([(baseUrl, 1)])
    case Some(url) =>
      match ResumeNumber(url)
      case Err(e) => Err(e)
      case Ok(n) => Ok([(url, n)])
  }

  /** What `SELECT url FROM pages WHERE processed = 0` may return. */
  predicate IsResumeCursor(pages: map<Url, int>, cursor: Option<Url>)
  {
    match cursor
    case None => forall u :: u in pages ==> pages[u] != 0
    case Some(u) => u in pages && pages[u] == 0
  }

  /** crawl: build the queue, then run the while loop with page_counter = 0. */
  function CrawlRun(w: World, cfg: Config, env: Env, cursor: Option<Url>): (r: CrawlEnd)
    ensures Extends(w.store, r.world.store)
  {
    match StartQueue(cfg.baseUrl, cursor)
    case Err(e) => CrawlEnd(w, 0, Some(e))
    case Ok(queue) => QueueRun(w, 0, queue, cfg, env)
  }

  method Crawl(w: World, cfg: Config, env: Env, cursor: Option<Url>) returns (r: CrawlEnd)
    requires IsResumeCursor(w.store.pages, cursor)
    ensures r == CrawlRun(w, cfg, env, cursor)
  {
    var queue: seq<(Url, int)>;
    match StartQueue(cfg.baseUrl, cursor) {
      case Err(e) => return CrawlEnd(w, 0, Some(e));
      case Ok(q) => queue := q;
    }
    ghost var initial := queue;
    var cur := w;
    var pageCounter := 0;
    while queue != []
      invariant QueueRun(w, 0, initial, cfg, env) == QueueRun(cur, pageCounter, queue, cfg, env)
      decreases |queue|
    {
      var (currentUrl, pageNumber) := queue[0];
      queue := queue[1..];
      var s := ProcessPage(cur, cfg, env, currentUrl, pageNumber);
      if s.fault.Some? {
        return CrawlEnd(s.world, pageCounter, s.fault);
      }
      cur := s.world;
      if pageCounter >= cfg.pagesBeforePause {
        cur := cur.(sleeps := cur.sleeps + [Sleep(PeriodicPause, cfg.pauseTime)]);
        pageCounter := 0;
      }
      pageCounter := pageCounter + 1;
    }
    r := CrawlEnd(cur, pageCounter, None);
  }

  // ---------------------------------------------------------------------------
  // Properties of crawl

  /**
   * The crawl processes exactly its start entry and stops: it runs process_page
   * once and pauses afterwards iff the zero page counter has reached
   * pages_before_pause.
   */
  lemma CrawlRunsOnlyStartEntry(w: World, cfg: Config, env: Env, cursor: Option<Url>)
    requires StartQueue(cfg.baseUrl, cursor).Ok?
    ensures var (url, page) := StartQueue(cfg.baseUrl, cursor).value[0];
      var s := PageRun(w, cfg, env, url, page);
      var r := CrawlRun(w, cfg, env, cursor);
      && r.fault == s.fault
      && (s.fault.Some? ==> r.world == s.world)
      && (s.fault.None? && cfg.pagesBeforePause <= 0 ==>
            r.world == s.world.(sleeps := s.world.sleeps + [Sleep(PeriodicPause, cfg.pauseTime)]) && r.counter == 1)
      && (s.fault.None? && cfg.pagesBeforePause > 0 ==> r.world == s.world && r.counter == 1)
  {
    var queue := StartQueue(cfg.baseUrl, cursor).value;
    assert queue[1..] == [];
    var s := PageRun(w, cfg, env, queue[0].0, queue[0].1);
    if s.fault.None? {
      var (paused, next) := PauseRule(0, cfg.pagesBeforePause);
      var w1 := if paused then s.world.(sleeps := s.world.sleeps + [Sleep(PeriodicPause, cfg.pauseTime)]) else s.world;
      assert QueueRun(w, 0, queue, cfg, env) == QueueRun(w1, next, [], cfg, env);
    }
  }

  /** Rerunning on a database that already lists the base url never completes. */
  lemma RerunAlwaysFails(w: World, cfg: Config, env: Env)
    requires IsResumeCursor(w.store.pages, None)
    requires cfg.baseUrl in w.store.pages
    ensures CrawlRun(w, cfg, env, None).fault.Some?
  {
    KnownIndexPageAlwaysFails(w, cfg, env, cfg.baseUrl, 1);
  }

  /** Resuming never completes either: the cursor's row is already in `pages`. */
  lemma ResumeAlwaysFails(w: World, cfg: Config, env: Env, cursor: Url)
    requires IsResumeCursor(w.store.pages, Some(cursor))
    ensures CrawlRun(w, cfg, env, Some(cursor)).fault.Some?
  {
    match ResumeNumber(cursor) {
      case Err(_) =>
      case Ok(n) => KnownIndexPageAlwaysFails(w, cfg, env, cursor, n);
    }
  }

  /**
   * Starting from the empty database, a completed crawl leaves only
   * processed = 1 rows, so the next run finds no cursor, reprocesses the base
   * url and fails.
   */
  lemma SecondRunFails(w: World, cfg: Config, env: Env, env2: Env)
    requires w.store.pages == map[]
    requires CrawlRun(w, cfg, env, None).fault == None
    ensures var w2 := CrawlRun(w, cfg, env, None).world;
      IsResumeCursor(w2.store.pages, None) && CrawlRun(w2, cfg, env2, None).fault.Some?
  {
    CrawlRunsOnlyStartEntry(w, cfg, env, None);
    var w2 := CrawlRun(w, cfg, env, None).world;
    assert w2.store.pages == map[cfg.baseUrl := 1];
    RerunAlwaysFails(w2, cfg, env2);
  }

  // ---------------------------------------------------------------------------
  // A worked run

  const EXAMPLE_BASE: Url := "https://x.test/list/1/"
  const EXAMPLE_A: Url := "https://x.test/item/a"
  const EXAMPLE_B: Url := "https://x.test/item/b"

  /** The index lists /item/a and /item/b; /item/a answers 200, /item/b answers 404. */
  function ExampleEnv(): Env
  {
    Env((u: Url, k: nat) => if u == EXAMPLE_B then Response(404, "") else if u == EXAMPLE_A then Response(200, "A") else Response(200, "index"),
        (content: string) => [Some("/item/a"), Some("/item/b")],
        (base: Url, link: string) => "https://x.test" + link)
  }

  function ExampleConfig(): Config
  {
    Config(EXAMPLE_BASE, 0, 10, 60, false)
  }

  /** /item/a resolves to EXAMPLE_A and is saved as "a". */
  lemma ExampleFirstLinkName()
    ensures ValidateAndConstructUrl(EXAMPLE_BASE, "/item/a", ExampleEnv().join) == EXAMPLE_A
    ensures Filename(EXAMPLE_A) == "a"
  {
    assert !StartsWith("/item/a", "http:") && !StartsWith("/item/a", "https:") by {
      assert "/item/a"[0] != "http:"[0] && "https:"[0] == "http:"[0];
    }
    assert ExampleEnv().join(EXAMPLE_BASE, "/item/a") == "https://x.test" + "/item/a";
    assert "https://x.test" + "/item/a" == EXAMPLE_A;
    ExampleFilenameA();
  }

  lemma ExampleFilenameA()
    ensures Filename(EXAMPLE_A) == "a"
  {
    FilenameOfPlainUrl("https://x.test/item", "a");
    assert "https://x.test/item" + "/" + "a" == EXAMPLE_A;
  }

  /** EXAMPLE_A answers 200 on its first attempt. */
  lemma ExampleFirstLinkFetch()
    ensures Fetch(EXAMPLE_A, 0, RETRIES, WAIT, ExampleEnv().net, 1) == Fetched(Some("A"), None, 2, [Sleep(Pacing, 0)])
  {
    var env := ExampleEnv();
    assert env.net(EXAMPLE_A, 1) == Response(200, "A") by { assert EXAMPLE_A[20] != EXAMPLE_B[20]; }
    FetchStopsAtFirstResponse(EXAMPLE_A, 0, RETRIES, WAIT, env.net, 1, 0);
  }

  lemma ExampleFirstLink(w: World)
    requires w.store.files == map[] && w.attempts == 1
    ensures var s := LinkStep(w, ExampleConfig(), ExampleEnv(), 1, Some("/item/a"));
      && s.fault == None && s.world.attempts == 2 && s.world.store.pages == w.store.pages
      && s.world.store.files == map[EXAMPLE_A := FileRow(Done, None)]
      && s.world.disk == w.disk[(1, "a") := "A"]
  {
    ExampleFirstLinkName();
    ExampleFirstLinkFetch();
    FetchedLinkGetsOneRecord(w, ExampleConfig(), ExampleEnv(), 1, "/item/a");
    var s := LinkStep(w, ExampleConfig(), ExampleEnv(), 1, Some("/item/a"));
    assert s.world.store.files == map[][EXAMPLE_A := FileRow(Done, None)];
  }

  lemma ExampleSecondLink(w: World)
    requires w.store.files == map[EXAMPLE_A := FileRow(Done, None)] && w.attempts == 2
    ensures var s := LinkStep(w, ExampleConfig(), ExampleEnv(), 1, Some("/item/b"));
      && s.fault == None && s.world.attempts == 3 && s.world.store.pages == w.store.pages
      && s.world.store.files == map[EXAMPLE_A := FileRow(Done, None), EXAMPLE_B := FileRow(Skipped, Some("HTTP error 404"))]
      && s.world.disk == w.disk
  {
    var env := ExampleEnv();
    assert !StartsWith("/item/b", "http:") && !StartsWith("/item/b", "https:") by { assert "/item/b"[0] == '/'; }
    assert ValidateAndConstructUrl(EXAMPLE_BASE, "/item/b", env.join) == EXAMPLE_B;
    assert EXAMPLE_A != EXAMPLE_B by { assert EXAMPLE_A[20] != EXAMPLE_B[20]; }
    assert env.net(EXAMPLE_B, 2) == Response(404, "");
    FetchStopsAtFirstResponse(EXAMPLE_B, 0, RETRIES, WAIT, env.net, 2, 0);
    ReasonFor404();
    var f := Fetch(EXAMPLE_B, 0, RETRIES, WAIT, env.net, 2);
    assert f.content == None && f.code == Some(404) && f.next == 3;
    FetchedLinkGetsOneRecord(w, ExampleConfig(), env, 1, "/item/b");
    var s := LinkStep(w, ExampleConfig(), env, 1, Some("/item/b"));
    assert s.world.store.files == w.store.files[EXAMPLE_B := FileRow(Skipped, Some("HTTP error 404"))];
  }

  /**
   * A first crawl of that index on an empty database records /item/a as done,
   * /item/b as skipped with "HTTP error 404", saves saved_pages/1/a and marks
   * the index processed.
   */
  lemma ExampleRun()
    ensures var r := CrawlRun(World(Store(map[], map[]), map[], [], 0), ExampleConfig(), ExampleEnv(), None);
      && r.fault == None
      && r.world.store.pages == map[EXAMPLE_BASE := 1]
      && r.world.store.files == map[EXAMPLE_A := FileRow(Done, None), EXAMPLE_B := FileRow(Skipped, Some("HTTP error 404"))]
      && r.world.disk == map[(1, "a") := "A"]
      && r.world.attempts == 3
  {
    var w := World(Store(map[], map[]), map[], [], 0);
    ExampleIndexPage(w);
    CrawlRunsOnlyStartEntry(w, ExampleConfig(), ExampleEnv(), None);
  }

  /** process_page on the example index: one attempt for the index, then the two links. */
  lemma ExampleIndexPage(w: World)
    requires w == World(Store(map[], map[]), map[], [], 0)
    ensures var s := PageRun(w, ExampleConfig(), ExampleEnv(), EXAMPLE_BASE, 1);
      && s.fault == None
      && s.world.store.pages == map[EXAMPLE_BASE := 1]
      && s.world.store.files == map[EXAMPLE_A := FileRow(Done, None), EXAMPLE_B := FileRow(Skipped, Some("HTTP error 404"))]
      && s.world.disk == map[(1, "a") := "A"]
      && s.world.attempts == 3
  {
    var env := ExampleEnv();
    var cfg := ExampleConfig();
    var f := Fetch(EXAMPLE_BASE, 0, RETRIES, WAIT, env.net, 0);
    assert f.content == Some("index") && f.next == 1 by {
      assert env.net(EXAMPLE_BASE, 0) == Response(200, "index") by {
        assert EXAMPLE_BASE[15] != EXAMPLE_A[15] && EXAMPLE_BASE[15] != EXAMPLE_B[15];
      }
      FetchStopsAtFirstResponse(EXAMPLE_BASE, 0, RETRIES, WAIT, env.net, 0, 0);
    }
    var w1 := w.(sleeps := w.sleeps + f.sleeps, attempts := f.next);
    ExampleLinks(w1);
  }

  /** The link loop over the example index's two links. */
  lemma ExampleLinks(w1: World)
    requires w1.store == Store(map[], map[]) && w1.disk == map[] && w1.attempts == 1
    ensures var s := LinksRun(w1, ExampleConfig(), ExampleEnv(), 1, ExampleEnv().links("index"));
      && s.fault == None
      && s.world.store.pages == map[]
      && s.world.store.files == map[EXAMPLE_A := FileRow(Done, None), EXAMPLE_B := FileRow(Skipped, Some("HTTP error 404"))]
      && s.world.disk == map[(1, "a") := "A"]
      && s.world.attempts == 3
  {
    var env := ExampleEnv();
    var cfg := ExampleConfig();
    var hrefs := env.links("index");
    assert hrefs == [Some("/item/a"), Some("/item/b")];
    ExampleFirstLink(w1);
    var s1 := LinkStep(w1, cfg, env, 1, hrefs[0]);
    ExampleSecondLink(s1.world);
    var s2 := LinkStep(s1.world, cfg, env, 1, hrefs[1]);
    assert hrefs[1..][1..] == [];
    assert LinksRun(w1, cfg, env, 1, hrefs) == s2;
  }

  // ---------------------------------------------------------------------------
  // The command line (__main__)

  datatype Args = Args(url: Option<string>, speed: int, pages: int, pause: int, retry: bool)

  const USAGE := "No URL provided. Usage: python scriptname.py -u [URL] -s [SPEED] -p [PAGES] -t [PAUSE] -r"

  /** The argument checks, in their order; Err carries the message printed before exit(1). */
  function CheckArgs(args: Args): (r: Result<Config, string>)
    ensures r.Ok? <==> (args.url.Some? && args.url.value != "" && 0 <= args.speed <= 10 && args.pages >= 0 && args.pause >= 0)
    ensures r.Ok? ==> r.value == Config(args.url.value, args.speed, args.pages, args.pause, args.retry)
    ensures args.url.None? || args.url == Some("") ==> r == Err(USAGE)
  {
    if args.url.None? || args.url.value == "" then Err(USAGE)
    else if args.speed < 0 || args.speed > 10 then Err("Speed must be between 0 and 10.")
    else if args.pages < 0 then Err("Number of pages before pause must be a positive integer.")
    else if args.pause < 0 then Err("Pause time must be a positive integer.")
    else Ok(Config(args.url.value, args.speed, args.pages, args.pause, args.retry))
  }

  /** Exit status 1 for a rejected command line or an uncaught exception, else 0. */
  datatype ScriptEnd = ScriptEnd(exitStatus: int, message: Option<string>, world: World)

  function ScriptRun(args: Args, w: World, env: Env, cursor: Option<Url>): (r: ScriptEnd)
    ensures r.exitStatus == 0 || r.exitStatus == 1
    ensures r.message.Some? <==> CheckArgs(args).Err?
    ensures r.exitStatus == 0 <==> CheckArgs(args).Ok? && CrawlRun(w, CheckArgs(args).value, env, cursor).fault.None?
    ensures Extends(w.store, r.world.store)
  {
    match CheckArgs(args)
    case Err(msg) => ScriptEnd(1, Some(msg), w)
    case Ok(cfg) =>
      var r := CrawlRun(w, cfg, env, cursor);
      ScriptEnd(if r.fault.Some? then 1 else 0, None, r.world)
  }

  method RunScript(args: Args, w: World, env: Env, cursor: Option<Url>) returns (r: ScriptEnd)
    requires IsResumeCursor(w.store.pages, cursor)
    ensures r == ScriptRun(args, w, env, cursor)
  {
    match CheckArgs(args) {
      case Err(msg) =>
        return ScriptEnd(1, Some(msg), w);
      case Ok(cfg) =>
        var e := Crawl(w, cfg, env, cursor);
        return ScriptEnd(if e.fault.Some? then 1 else 0, None, e.world);
    }
  }

  /**
   * A rejected command line exits with status 1 before crawl: no attempt, no
   * sleep, no row and no file.
   */
  lemma RejectedArgsTouchNothing(args: Args, w: World, env: Env, cursor: Option<Url>)
    requires !(args.url.Some? && args.url.value != "" && 0 <= args.speed <= 10 && args.pages >= 0 && args.pause >= 0)
    ensures var r := ScriptRun(args, w, env, cursor);
      r.exitStatus == 1 && r.message.Some? && r.world == w
  {
  }
}
