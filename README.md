# webarchive_echomskru crawler and extraction pass, modelled in Dafny

This project models two scripts and the extraction pass that goes with them.

**The crawler (`script.py`).** It fetches an index page, follows the links the page lists, and
saves each subpage under `saved_pages/<page number>/`. Progress is kept in a sqlite database
with two tables:
- `pages`: url → processed flag;
- `files`: url → status and reason.

Its controller is modelled in the `Crawler` module:
- `fetch_page`, a bounded retry loop. A 4xx/5xx response ends it at once. Transient
  request errors get a long backoff.
- the link loop of `process_page`, including its skip rule and its plain `INSERT`s.
- the file name a subpage is saved under.
- how `crawl` builds its queue from the resume cursor, and its pause-every-N-pages counter.
- the command-line checks of `__main__`.

**The extraction pass (`html2md.py`, and its earlier copy `spider.py`).** It walks the saved
pages. It extracts each page's text into `scrap_texts.md` and keeps a per-file status table in
`htmls2txt.db`. The loop the two scripts share is the `ExtractPass` module. Their two
`extract_text` rules are the `Html2Md` and `Spider` modules. `log_file` and
`should_process_file` are word-for-word the same in both scripts:
- `spider.py:26-31` is the same as `html2md.py:26-31`;
- `spider.py:36-42` is the same as `html2md.py:38-44`.

Both pairs are modelled once, by `ExtractPass.LogFile` and `ExtractPass.ShouldProcessFile`.

How the outside world is represented:
- **Network:** a function from (url, global attempt number) to the outcome of that
  `requests.get`: a response with a status and a body, a connection error, or another request
  error.
- **Tables:** maps.
- **Saved pages:** a map from (page number, file name) to contents. A second save under the
  same name overwrites the first.
- **Sleeps:** every `time.sleep` is appended to a trace, tagged with where it happens
  (pacing, backoff, subpage pause, periodic pause).
- **Uncaught exceptions:** they end a run with a `Fault`. The tables keep what was committed
  before it, because `script.py` commits after every row.

Each loop is a method that returns the new state. It is proved equal to a recursive
specification function, and the properties are lemmas about those functions.

The model follows the code where it behaves differently from what its structure suggests:
- `files` and `pages` are written with plain `INSERT`. An existing key is an
  `IntegrityError`, not a replacement. The model proves what follows from that:
  - a `done` link is fetched again and then fails (`script.py:74`);
  - a `--retry` pass fails on the first skipped link that it fetches;
  - after a completed run, the next run on the same base url fails;
  - the resume path can never complete, because the cursor's row is already in `pages`
    (`script.py:86`, `script.py:94`).
- The index page is marked processed even when its fetch returned nothing
  (`script.py:67-68`, `script.py:86`).
- `.html` is appended only to urls that end in `/` (`script.py:55`).
- The crawl queue holds a single entry and is never extended (`script.py:94-98`).
- A rejected fetch is recorded with the reason `HTTP error <code>`. After retries run out, the
  reason is `HTTP error None`.
- The subpage pause is slept only after a fetched link. It is not slept for a link skipped by
  `continue`.

## Model

| member | source | states |
|---|---|---|
| `Text.Split` | script.py:55 | `str.split('/')`: one more piece than there are separators, and no piece contains the separator |
| `Text.JoinSplit` | script.py:55 | joining the pieces of a split with the separator gives back the original string |
| `Text.SplitAtSeparator` | script.py:55 | splitting `a + sep + b` gives the pieces of `a` followed by the pieces of `b` |
| `Text.ParseInt` | script.py:94 | `int()` accepts only an optional sign followed by digits: a non-empty all-digit string gives a non-negative value, a non-digit after the first character gives `ValueError`, and a negative value needs a leading `-` |
| `Text.ParseIntOfIntToString` | script.py:94 | `int()` of the decimal rendering of any integer gives that integer back |
| `Crawler.ValidateAndConstructUrl` | script.py:31-33 | a link starting with `http:` or `https:` is returned unchanged; any other link is joined to the base url |
| `Crawler.Filename` | script.py:55 | the derived file name never contains `/`, and it is defined for every url, including `""` and `"/"` |
| `Crawler.FilenameOfTrailingSlash` | script.py:55 | a url `…/seg/` or `seg/` is saved as `seg.html` |
| `Crawler.FilenameOfPlainUrl` | script.py:55 | a url not ending in `/` is saved as the text after its last `/`, with no extension |
| `Crawler.ResumeNumber` | script.py:94 | the page number of the resume url: `IndexError` exactly when the url has no `/`, otherwise the number or a `ValueError` |
| `Crawler.ResumeNumberOfFolderUrl` | script.py:94 | `int(url.rsplit('/', 2)[-2])` of a url `…/n/` is `n` |
| `Crawler.Fetch` | script.py:35-52 | at most `retries` attempts (none when `retries <= 0`); content and error code are never both present; an error code is always in [400,600) |
| `Crawler.FetchStopsAtFirstResponse` | script.py:38-44 | at the first attempt that gets a response, the fetch stops: a 4xx/5xx gives `(None, status)`, anything else `(text, None)`; before it come one pacing sleep and one backoff per failed attempt, then one more pacing sleep |
| `Crawler.FetchGivesUpAfterTransients` | script.py:36-52 | when every attempt fails with a transient error, the fetch returns `(None, None)` after exactly `max(0, retries)` attempts, slept as pacing then `wait` for each |
| `Crawler.FetchPacesEveryAttempt` | script.py:36-39 | the trace holds exactly one pacing sleep per attempt made |
| `Crawler.FetchPage` | script.py:35-52 | the imperative retry loop with its early returns computes `Fetch` |
| `Crawler.ShouldFetch` | script.py:72-75 | only a `skipped` row outside a retry pass prevents the fetch; a `done` row, a retry pass or a missing row all lead to a fetch |
| `Crawler.SkippedLinkIsNotFetched` | script.py:74-75 | a link with a `skipped` row and no `--retry` makes no attempt, no sleep and no change |
| `Crawler.FetchedLinkGetsOneRecord` | script.py:77-84 | a fetched link without a row gets exactly one new row (`done` with NULL reason on content, else `skipped` with `HTTP error <code>`) and then one subpage pause; a fetched link with any row fails with a duplicate-key error; content that came back is saved under `(page, filename)` before the INSERT, so also when it fails, and nothing is saved for `(None, code)` |
| `Crawler.ErrorReason` | script.py:79 | the reason always starts with `HTTP error `, and it is `HTTP error None` exactly when there is no status code |
| `Crawler.ErrorReasonNamesCode` | script.py:79 | the status code can be read back from the reason: `int()` of the text after `HTTP error ` is the code |
| `Crawler.LinkStep` | script.py:71-84 | one link keeps every existing row and leaves `pages` alone; a link without `href` stops the run at once with nothing changed; the only errors a link raises are the missing `href` and the duplicate-key INSERT; it makes between 0 and 3 (`retries=3`) attempts |
| `Crawler.LinksRun` | script.py:70-84 | the link loop keeps every existing row and leaves `pages` alone, also when it stops at an error |
| `Crawler.RejectedLinkRecord` | script.py:40-79 | a link answered with 404, whatever the body, is recorded as `skipped` with reason `HTTP error 404` |
| `Crawler.PageRun` | script.py:62-87 | process_page keeps every existing row of `pages` and `files`; when it completes, its url was new and is now inserted with `processed=1`; when it fails, `pages` is unchanged |
| `Crawler.KnownIndexPageAlwaysFails` | script.py:86 | processing an index url that is already in `pages` always ends in an uncaught error |
| `Crawler.IndexMarkedEvenIfFetchFailed` | script.py:67-68 | when the index fetch returns nothing or empty text, no link is visited, no file is saved and the index is still inserted with `processed=1` |
| `Crawler.LinksRunSleeps` | script.py:70-84 | over a completed link loop there is one subpage pause per new row (per fetched link) and one pacing sleep per attempt |
| `Crawler.ProcessPage` | script.py:62-87 | the imperative process_page computes its specification `PageRun` |
| `Crawler.PauseRule` | script.py:102-106 | a pause happens iff `page_counter >= pages_before_pause`; afterwards the counter is 1, and a counter in [0, max(1, N)] stays in [1, max(1, N)] |
| `Crawler.QueueRun` | script.py:97-106 | the crawl loop keeps the page counter in [0, max(1, N)], and it is at least 1 after a completed non-empty queue |
| `Crawler.StartQueue` | script.py:93-94 | the queue is `[(base_url, 1)]` without a cursor and `[(cursor, its number)]` with one; it fails exactly when the cursor's number cannot be read, with that error; it always has one entry |
| `Crawler.CrawlRunsOnlyStartEntry` | script.py:94-106 | the crawl runs process_page exactly once, on the start entry; after it, it pauses iff `pages_before_pause <= 0`, and the counter ends at 1 |
| `Crawler.RerunAlwaysFails` | script.py:93-100 | with no `processed=0` row and the base url already in `pages`, the crawl never completes |
| `Crawler.ResumeAlwaysFails` | script.py:93-100 | resuming from a `processed=0` cursor never completes |
| `Crawler.SecondRunFails` | script.py:89-108 | after a completed first crawl on an empty database, the next crawl finds no cursor and fails |
| `Crawler.CrawlRun` | script.py:89-108 | crawl keeps every existing row of both tables, whether it completes or not |
| `Crawler.Crawl` | script.py:89-108 | the imperative crawl loop computes `CrawlRun` |
| `Crawler.ExampleRun` | script.py:62-87 | an index linking to a 200 page `/item/a` and a 404 page `/item/b` ends with `a` done, `b` skipped with `HTTP error 404`, `saved_pages/1/a` saved, and the index marked processed |
| `Crawler.CheckArgs` | script.py:120-134 | the command line is accepted iff the url is present and non-empty, speed is in [0,10], and pages and pause are non-negative; a missing url gives the usage message |
| `Crawler.ScriptRun` | script.py:110-136 | the exit status is 0 or 1; a message is printed exactly when the command line is rejected; the status is 0 exactly when the command line is accepted and crawl completes; existing rows are kept |
| `Crawler.RunScript` | script.py:110-136 | the main block checks the arguments, then runs crawl; the exit status is 1 on a rejected command line or an uncaught error |
| `Crawler.RejectedArgsTouchNothing` | script.py:120-134 | a rejected command line exits with status 1 and a message, with no attempt, sleep, row or file |
| `ExtractPass.LogFile` | html2md.py:26-31 | insert-or-replace: the path maps to exactly `(status, length, reason)` and every other row is unchanged |
| `ExtractPass.ShouldProcessFile` | html2md.py:38-44 | a path with no row is processed; a `done` path never is; a `skipped` path is processed only with `--retry` |
| `ExtractPass.Record` | html2md.py:59-71 | a row is `done` exactly when something is appended to the markdown, and then it carries `len(text)` > 0, an empty reason, and text + separator is what is appended; a `skipped` row has length 0 and the exception text or the no-content reason |
| `ExtractPass.ProcessFile` | html2md.py:57-72 | one walked file: afterwards its path has a row, other rows are unchanged, the markdown only grows, and a file that is declined changes nothing |
| `ExtractPass.Run` | html2md.py:55-72 | the pass keeps every path that had a row |
| `ExtractPass.ProcessFolder` | html2md.py:53-72 | the loop over the walked files computes the specification `Run` |
| `ExtractPass.ProcessedFileRecord` | html2md.py:58-72 | a processed file gets one row: `done` with `len(text)` and appended text+separator, or `skipped` with the no-content reason, or `skipped` with the exception text; the last two append nothing; other rows are untouched |
| `ExtractPass.UnprocessedFileUntouched` | html2md.py:58 | a file `should_process_file` declines keeps its row and appends nothing |
| `ExtractPass.RunCoversPaths` | html2md.py:55-72 | after the pass every walked path has a row, and no row is lost |
| `ExtractPass.RerunWithoutRetryIsNoOp` | html2md.py:58-71 | a second run without `--retry` over the same file list changes no row and appends no output |
| `ExtractPass.DoneRowsArePermanent` | html2md.py:44 | a `done` row survives every run, with or without `--retry` |
| `ExtractPass.RunMatchesPerFileDecisions` | html2md.py:55-72 | on a walk without repeats, the output grows by exactly the texts of the processed non-empty files in walk order, and each walked path holds its new row if it was processed, its old row otherwise |
| `ExtractPass.RunAppendsReference` | html2md.py:62-64 | on a walk without repeats, the markdown output grows by exactly text+separator of each processed file with non-empty text, in walk order |
| `ExtractPass.RunRowsMatchDecisions` | html2md.py:58-71 | on a walk without repeats, each walked path ends with the row of its own decision against the starting table |
| `Html2Md.ExtractText` | html2md.py:46-51 | the `.mmplayer` text when non-empty, otherwise the `.conthead.discuss` text; empty only when both are |
| `Html2Md.FileRecordOfDocument` | html2md.py:58-72 | per-file rows for html2md: the length of whichever selector supplied the text, `No content in .mmplayer or .conthead.discuss` when both are empty, or the exception text |
| `Spider.ExtractText` | spider.py:44-47 | empty exactly when `.mmplayer` is, and the same text as html2md.py's rule whenever `.mmplayer` is non-empty |
| `Spider.NoFallback` | spider.py:44-47 | spider's text ignores the discussion block and is empty exactly when `.mmplayer` is |
| `Spider.SkipsWhatHtml2MdKeeps` | spider.py:44-47 | a page with only a discussion block is `skipped` by spider.py and `done` in html2md.py |
| `Spider.FileRecordOfDocument` | spider.py:54-68 | a processed file gets `done` with the length of the `.mmplayer` text, or `skipped` with `No content in .mmplayer`, or `skipped` with the exception text; other rows are untouched |
| `Spider.DeclinedFileUntouched` | spider.py:36-42 | a file with a `done` row, or any row without `--retry`, keeps its row and appends nothing |
| `Spider.OutputOnlyForDone` | spider.py:58-61 | on a walk without repeats the output grows exactly by the processed files' non-empty `.mmplayer` texts plus the separator, in walk order |
| `Spider.RerunWithoutRetryIsNoOp` | spider.py:54-67 | a rerun of spider.py without `--retry` changes no row and appends nothing |

## Left out

- HTTP transport (`requests.get`, `raise_for_status`) is replaced by the network function. An exception from `requests.get` that is not a `RequestException` is not modelled.
- Opening, committing and closing the sqlite connection is not modelled. `setup_database` and `initialize_db` are represented by the tables given as maps, empty on a first run.
- The resume query is a parameter. `SELECT url FROM pages WHERE processed = 0` may return any such row, so the cursor is any row with `processed = 0`, or none when there is none.
- Statuses are `done` and `skipped` only. These are the only values the scripts write; rows edited by hand are not modelled.
- The `.txt a.dark` selection with BeautifulSoup, and the pyquery selectors, are abstract. The link list is given, with a missing `href` modelled as absent. A parsed page is the text of its two selectors.
- `urljoin` is an uninterpreted function.
- File system operations are not modelled: `os.makedirs`, a failing `open`/`write`, and `os.path.join`. The `os.walk` order is a given list of paths.
- `time.sleep` is a trace. A negative duration, which would raise `ValueError`, is not modelled, because the command line excludes it.
- argparse itself is not modelled: its `type=int` conversions, and its own exit status 2.
- Logging, colour output and `print` text are not modelled, apart from the message for a rejected command line.
- Crashes from outside the program, and external termination, are not modelled.
- Crawler.ResumeNumber: accepts an optional sign followed by ASCII digits. Python's `int` also accepts surrounding whitespace, `_` between digits and non-ASCII digits. `rsplit('/', 2)[-2]` is modelled as the last-but-one piece of `split('/')`; the two agree whenever the url contains a `/`.
- ExtractPass.ProcessFolder: an exception raised after the markdown append (in `log_file` or the append itself) is not modelled. Only reading and parsing a file can raise.
- ExtractPass.ProcessFolder: `len(text)` is the length of the modelled character sequence. No Unicode normalisation is modelled.
