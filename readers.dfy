/**
 * Reader: resolves which projects and logs to read and the time window,
 * builds the Cloud Logging filter expression, and yields the FlowRecords of
 * every project in turn. The logging service is injected as a LogStore: what
 * listing the entries of one project returns, page by page.
 */
module Readers {
  import opened Wrappers
  import opened Text
  import opened DateTimes
  import opened Payloads
  import opened FlowRecords

  // ---------------------------------------------------------------- projects and logs

  const LOG_NAME_PREFIX := "projects/"
  const LOG_NAME_SUFFIX := "/logs/compute.googleapis.com%2Fvpc_flows"

  /** BASE_LOG_NAME.format(project) */
  function BaseLogName(project: string): string
  {
    LOG_NAME_PREFIX + project + LOG_NAME_SUFFIX
  }

  /** The project a default log name was made for can be read back from it. */
  lemma BaseLogNameProject(project: string)
    ensures BaseLogName(project)[|LOG_NAME_PREFIX|..|BaseLogName(project)| - |LOG_NAME_SUFFIX|] == project
  {
  }

  /** Distinct projects get distinct default log names. */
  lemma BaseLogNameInjective(p: string, q: string)
    ensures BaseLogName(p) == BaseLogName(q) ==> p == q
  {
    if BaseLogName(p) == BaseLogName(q) {
      BaseLogNameProject(p);
      BaseLogNameProject(q);
    }
  }

  /** What listing the projects visible to the credentials gives: their ids, or a GoogleAPIError. */
  datatype Discovery = Listed(ids: seq<string>) | Denied

  /** project_list: the client's own project, or every discovered project (falling back to the client's on an API error). */
  function ProjectList(collectMultipleProjects: bool, clientProject: string, discovery: Discovery): (r: seq<string>)
    ensures !collectMultipleProjects ==> r == [clientProject]
    ensures collectMultipleProjects && discovery.Listed? ==> r == discovery.ids
    ensures collectMultipleProjects && discovery.Denied? ==> r == [clientProject]
  {
    if !collectMultipleProjects then [clientProject]
    else
      match discovery
      case Listed(ids) => ids
      case Denied => [clientProject]
  }

  /** log_list: the given log name alone, or one default log name per project, in project order. */
  function LogList(logName: Option<string>, projects: seq<string>): (r: seq<string>)
    ensures logName.Some? && logName.value != "" ==> r == [logName.value]
    ensures logName.None? || logName.value == "" ==>
      |r| == |projects| && forall i :: 0 <= i < |r| ==> r[i] == BaseLogName(projects[i])
  {
    if logName.Some? && logName.value != "" then [logName.value]
    else seq(|projects|, i requires 0 <= i < |projects| => BaseLogName(projects[i]))
  }

  // ---------------------------------------------------------------- time window

  /** The exceptions reading can end with. */
  datatype ReadError = Overflow | BadRecord(error: PyError)

  /** dt + timedelta(seconds=s), with OverflowError outside years 1..9999. */
  function Shift(dt: DateTime, seconds: int): (r: Result<DateTime, ReadError>)
    ensures r.Failure? ==> r.error == Overflow
  {
    match AddSeconds(dt, seconds)
    case Some(d) => Success(d)
    case None => Failure(Overflow)
  }

  /** end_time defaults to now; start_time defaults to one hour before the end. */
  function ResolveTimes(startTime: Option<DateTime>, endTime: Option<DateTime>, now: DateTime): (r: Result<(DateTime, DateTime), ReadError>)
    ensures startTime.Some? ==> r.Success? && r.value.0 == startTime.value
    ensures r.Success? ==> r.value.1 == (if endTime.Some? then endTime.value else now)
  {
    var end := if endTime.Some? then endTime.value else now;
    if startTime.Some? then Success((startTime.value, end))
    else
      var start :- Shift(end, -3600);
      Success((start, end))
  }

  /** Without a start time the window is exactly the hour before the end; it fails only within the first hour of year 1. */
  lemma DefaultWindow(endTime: Option<DateTime>, now: DateTime)
    ensures var r, end := ResolveTimes(None, endTime, now), if endTime.Some? then endTime.value else now;
      && (r.Success? <==> EpochSeconds(end) >= 3600)
      && (r.Success? ==> EpochSeconds(r.value.1) - EpochSeconds(r.value.0) == 3600
                         && r.value.0.microsecond == r.value.1.microsecond)
  {
    var end := if endTime.Some? then endTime.value else now;
    AddSecondsExact(end, -3600);
    EpochSecondsRange(end);
  }

  // ---------------------------------------------------------------- filter expression

  /** _format_dt: strftime('%Y-%m-%dT%H:%M:%SZ'). */
  function FormatDt(dt: DateTime): string
  {
    Strftime(dt) + "Z"
  }

  /** A record's timestamp parser reads back what _format_dt wrote, to the second. */
  lemma GetDtFormatDt(dt: DateTime)
    requires dt.microsecond == 0
    ensures GetDt(JStr(FormatDt(dt))) == Success(dt)
  {
    GetDtIgnoresSuffix(dt, "Z");
  }

  function Quoted(s: string): string
  {
    "\"" + s + "\""
  }

  /** `(logName="a" OR logName="b" ...)` */
  function LogClause(logs: seq<string>): string
  {
    "(" + Join(seq(|logs|, i requires 0 <= i < |logs| => "logName=" + Quoted(logs[i])), " OR ") + ")"
  }

  /** The six clauses that follow the user's filters. */
  function FixedClauses(logs: seq<string>, timestampStart: DateTime, timestampEnd: DateTime,
                        payloadStart: DateTime, payloadEnd: DateTime): (r: seq<string>)
    ensures |r| == 6
  {
    [ "resource.type=" + Quoted("gce_subnetwork"),
      LogClause(logs),
      "Timestamp >= " + Quoted(FormatDt(timestampStart)),
      "Timestamp < " + Quoted(FormatDt(timestampEnd)),
      "jsonPayload.start_time >= " + Quoted(FormatDt(payloadStart)),
      "jsonPayload.start_time < " + Quoted(FormatDt(payloadEnd)) ]
  }

  /**
   * The expression passed to every listing call: the user's filters, then the
   * resource type, the logs, the indexed Timestamp window widened by one
   * minute on each side, and the exact window on the payload's start_time.
   */
  function Expression(filters: seq<string>, logs: seq<string>, startTime: DateTime, endTime: DateTime): Result<string, ReadError>
  {
    var timestampStart :- Shift(startTime, -60);
    var timestampEnd :- Shift(endTime, 60);
    Success(Join(filters + FixedClauses(logs, timestampStart, timestampEnd, startTime, endTime), " AND "))
  }

  /** The expression exists exactly when the padded window stays within years 1..9999. */
  lemma ExpressionDefined(filters: seq<string>, logs: seq<string>, startTime: DateTime, endTime: DateTime)
    ensures Expression(filters, logs, startTime, endTime).Success? <==>
      EpochSeconds(startTime) >= 60 && EpochSeconds(endTime) + 60 <= LastEpochSecond()
  {
    AddSecondsExact(startTime, -60);
    AddSecondsExact(endTime, 60);
    EpochSecondsRange(startTime);
    EpochSecondsRange(endTime);
  }

  /**
   * The expression starts with the user's filters joined by AND, followed by
   * the fixed clauses, whose Timestamp bounds lie exactly one minute outside
   * the payload bounds.
   */
  lemma ExpressionLayout(filters: seq<string>, logs: seq<string>, startTime: DateTime, endTime: DateTime)
    requires Expression(filters, logs, startTime, endTime).Success?
    ensures AddSeconds(startTime, -60).Some? && AddSeconds(endTime, 60).Some?
    ensures EpochSeconds(AddSeconds(startTime, -60).value) == EpochSeconds(startTime) - 60
    ensures EpochSeconds(AddSeconds(endTime, 60).value) == EpochSeconds(endTime) + 60
    ensures Expression(filters, logs, startTime, endTime).value ==
      (if filters == [] then "" else Join(filters, " AND ") + " AND ") +
      Join(FixedClauses(logs, AddSeconds(startTime, -60).value, AddSeconds(endTime, 60).value, startTime, endTime), " AND ")
  {
    AddSecondsExact(startTime, -60);
    AddSecondsExact(endTime, 60);
    var fixed := FixedClauses(logs, AddSeconds(startTime, -60).value, AddSeconds(endTime, 60).value, startTime, endTime);
    if filters != [] {
      JoinAppend(filters, fixed, " AND ");
    } else {
      assert filters + fixed == fixed;
    }
  }

  // ---------------------------------------------------------------- iteration

  /** What one listing call yields: its pages of entries, and whether it ended in a GoogleAPIError. */
  datatype ListingEnd = Exhausted | ApiError
  datatype Listing = Listing(pages: seq<seq<Entry>>, end: ListingEnd)

  /** list_entries(filter_=expression, page_size=page_size, projects=[project]) */
  type LogStore = (string, int, string) -> Listing

  /** What a consumer of the generator sees: the records yielded, then the exception that ended it, if any. */
  datatype Stream = Stream(records: seq<FlowRecord>, failure: Option<ReadError>)

  /** a followed by b; nothing of b once a has raised. */
  function Then(a: Stream, b: Stream): (r: Stream)
    ensures a.failure.Some? ==> r == a
    ensures a.failure.None? ==> r.records == a.records + b.records && r.failure == b.failure
  {
    if a.failure.Some? then a else Stream(a.records + b.records, b.failure)
  }

  /** The streams one after another, stopping at the first that raised. */
  function Chain(xs: seq<Stream>): Stream
  {
    if xs == [] then Stream([], None) else Then(Chain(xs[..|xs| - 1]), xs[|xs| - 1])
  }

  /** All the records of the streams, in order. */
  function Flatten(xs: seq<Stream>): seq<FlowRecord>
  {
    if xs == [] then [] else Flatten(xs[..|xs| - 1]) + xs[|xs| - 1].records
  }

  /**
   * Chaining yields every stream's records up to and including the first one
   * that raised, and that stream's exception; when none raised, all records.
   */
  lemma {:induction false} ChainFirstFailure(xs: seq<Stream>, k: nat)
    requires k <= |xs|
    requires forall i :: 0 <= i < k ==> xs[i].failure.None?
    requires k < |xs| ==> xs[k].failure.Some?
    ensures Chain(xs) == Stream(Flatten(xs[..if k < |xs| then k + 1 else k]), if k < |xs| then xs[k].failure else None)
    decreases |xs|
  {
    if xs != [] {
      var n := |xs| - 1;
      assert Chain(xs) == Then(Chain(xs[..n]), xs[n]);
      if k < n {
        ChainFirstFailure(xs[..n], k);
        assert xs[..n][..k + 1] == xs[..k + 1];
        assert Chain(xs[..n]).failure.Some?;
      } else {
        ChainFirstFailure(xs[..n], n);
        assert xs[..n][..n] == xs[..n];
        assert Chain(xs[..n]) == Stream(Flatten(xs[..n]), None);
        if k == n {
          assert xs[..k + 1] == xs;
        } else {
          assert xs[..k] == xs;
        }
        assert Flatten(xs) == Flatten(xs[..n]) + xs[n].records;
      }
    }
  }

  /** Once a prefix has raised, nothing after it matters. */
  lemma {:induction false} ChainSticks(xs: seq<Stream>, k: nat)
    requires k <= |xs| && Chain(xs[..k]).failure.Some?
    ensures Chain(xs) == Chain(xs[..k])
    decreases |xs|
  {
    if k < |xs| {
      var n := |xs| - 1;
      assert xs[..n][..k] == xs[..k];
      ChainSticks(xs[..n], k);
    } else {
      assert xs[..k] == xs;
    }
  }

  /** One entry: its record, or the exception FlowRecord(entry) raises. */
  function EntryStream(e: Entry, lib: IpLibrary): Stream
  {
    match Normalize(e, lib)
    case Success(r) => Stream([r], None)
    case Failure(err) => Stream([], Some(BadRecord(err)))
  }

  function EntryStreams(entries: seq<Entry>, lib: IpLibrary): seq<Stream>
  {
    seq(|entries|, i requires 0 <= i < |entries| => EntryStream(entries[i], lib))
  }

  /** The records of one project's listing, page by page; a GoogleAPIError just ends it. */
  function ListingStream(listing: Listing, lib: IpLibrary): Stream
  {
    Chain(seq(|listing.pages|, i requires 0 <= i < |listing.pages| => Chain(EntryStreams(listing.pages[i], lib))))
  }

  /**
   * `except GoogleAPIError: pass`: a listing cut short by the API yields what
   * it had, and no exception. The equality holds by definition, since
   * `ListingStream` never looks at how the listing ended; the content is that
   * the only exception a listing can raise is a record's `BadRecord`.
   */
  lemma ApiErrorSwallowed(pages: seq<seq<Entry>>, lib: IpLibrary)
    ensures ListingStream(Listing(pages, ApiError), lib) == ListingStream(Listing(pages, Exhausted), lib)
    ensures ListingStream(Listing(pages, ApiError), lib).failure.Some? ==>
      ListingStream(Listing(pages, ApiError), lib).failure.value.BadRecord?
  {
    var listing := Listing(pages, ApiError);
    var xs := seq(|listing.pages|, i requires 0 <= i < |listing.pages| => Chain(EntryStreams(listing.pages[i], lib)));
    assert ListingStream(listing, lib) == Chain(xs);
    ChainFailureFrom(xs);
    if Chain(xs).failure.Some? {
      var i :| 0 <= i < |xs| && xs[i].failure == Chain(xs).failure;
      PageFailures(pages[i], lib);
    }
  }

  /** A page can only raise the exception of one of its entries' conversions. */
  lemma PageFailures(page: seq<Entry>, lib: IpLibrary)
    ensures Chain(EntryStreams(page, lib)).failure.Some? ==> Chain(EntryStreams(page, lib)).failure.value.BadRecord?
  {
    var xs := EntryStreams(page, lib);
    ChainFailureFrom(xs);
    if Chain(xs).failure.Some? {
      var i :| 0 <= i < |xs| && xs[i].failure == Chain(xs).failure;
      assert xs[i] == EntryStream(page[i], lib);
    }
  }

  /** The exception a chain ends with is the exception of one of its parts. */
  lemma {:induction false} ChainFailureFrom(xs: seq<Stream>)
    ensures Chain(xs).failure.Some? ==> exists i :: 0 <= i < |xs| && xs[i].failure == Chain(xs).failure
    decreases |xs|
  {
    if xs != [] {
      var n := |xs| - 1;
      ChainFailureFrom(xs[..n]);
      if Chain(xs[..n]).failure.Some? {
        var i :| 0 <= i < n && xs[..n][i].failure == Chain(xs[..n]).failure;
        assert xs[i].failure == Chain(xs).failure;
      } else if Chain(xs).failure.Some? {
        assert xs[n].failure == Chain(xs).failure;
      }
    }
  }

  function ProjectStreams(store: LogStore, expression: string, pageSize: int, projects: seq<string>, lib: IpLibrary): seq<Stream>
  {
    seq(|projects|, i requires 0 <= i < |projects| => ListingStream(store(expression, pageSize, projects[i]), lib))
  }

  /**
   * Everything the reader yields: project by project, every call with the
   * same expression and page size; an overflow in the padded window raises
   * before anything is listed.
   */
  function ReadAll(projects: seq<string>, logs: seq<string>, startTime: DateTime, endTime: DateTime,
                   pageSize: int, filters: seq<string>, store: LogStore, lib: IpLibrary): Stream
  {
    match Expression(filters, logs, startTime, endTime)
    case Failure(e) => Stream([], Some(e))
    case Success(expression) => Chain(ProjectStreams(store, expression, pageSize, projects, lib))
  }

  lemma ChainStep(xs: seq<Stream>, k: nat)
    requires k < |xs|
    ensures Chain(xs[..k + 1]) == Then(Chain(xs[..k]), xs[k])
  {
    assert xs[..k + 1][..k] == xs[..k];
  }

  /** Records once yielded stay yielded: a shorter chain's records begin the longer chain's. */
  lemma {:induction false} ChainPrefix(xs: seq<Stream>, k: nat)
    requires k <= |xs|
    ensures Chain(xs[..k]).records <= Chain(xs).records
    decreases |xs|
  {
    if k < |xs| {
      var n := |xs| - 1;
      assert xs[..n][..k] == xs[..k];
      ChainPrefix(xs[..n], k);
    } else {
      assert xs[..k] == xs;
    }
  }

  /** The records of entries that all convert, in entry order. */
  function Converted(page: seq<Entry>, lib: IpLibrary): seq<FlowRecord>
    requires forall k :: 0 <= k < |page| ==> Normalize(page[k], lib).Success?
  {
    seq(|page|, k requires 0 <= k < |page| => Normalize(page[k], lib).value)
  }

  /** Streams of one record each chain into those records, in order. */
  lemma {:induction false} ChainSingletons(xs: seq<Stream>)
    requires forall i :: 0 <= i < |xs| ==> xs[i].failure.None? && |xs[i].records| == 1
    ensures Chain(xs) == Stream(seq(|xs|, i requires 0 <= i < |xs| => xs[i].records[0]), None)
    decreases |xs|
  {
    if xs != [] {
      var n := |xs| - 1;
      ChainSingletons(xs[..n]);
      assert xs[n].records == [xs[n].records[0]];
    }
  }

  /** A page whose entries all convert yields their records, in entry order, and no exception. */
  lemma PageAllConverted(page: seq<Entry>, lib: IpLibrary)
    requires forall k :: 0 <= k < |page| ==> Normalize(page[k], lib).Success?
    ensures Chain(EntryStreams(page, lib)) == Stream(Converted(page, lib), None)
  {
    var es := EntryStreams(page, lib);
    forall i | 0 <= i < |es|
      ensures es[i] == Stream([Normalize(page[i], lib).value], None)
    {
    }
    ChainSingletons(es);
  }

  /**
   * Without a record that fails to convert, the reader yields the records of
   * every project in project order, each project's in page order, and ends
   * without an exception, whether or not a project's listing ended in an API error.
   */
  lemma ReadAllComplete(projects: seq<string>, logs: seq<string>, startTime: DateTime, endTime: DateTime,
                        pageSize: int, filters: seq<string>, store: LogStore, lib: IpLibrary)
    requires Expression(filters, logs, startTime, endTime).Success?
    requires forall i :: 0 <= i < |projects| ==>
      ListingStream(store(Expression(filters, logs, startTime, endTime).value, pageSize, projects[i]), lib).failure.None?
    ensures ReadAll(projects, logs, startTime, endTime, pageSize, filters, store, lib) ==
      Stream(Flatten(ProjectStreams(store, Expression(filters, logs, startTime, endTime).value, pageSize, projects, lib)), None)
  {
    var xs := ProjectStreams(store, Expression(filters, logs, startTime, endTime).value, pageSize, projects, lib);
    ChainFirstFailure(xs, |xs|);
    assert xs[..|xs|] == xs;
  }

  /** A record that fails to convert ends the whole reading: its exception, after everything yielded before it. */
  lemma ReadAllStops(projects: seq<string>, logs: seq<string>, startTime: DateTime, endTime: DateTime,
                     pageSize: int, filters: seq<string>, store: LogStore, lib: IpLibrary, i: nat)
    requires Expression(filters, logs, startTime, endTime).Success? && i < |projects|
    requires forall j :: 0 <= j < i ==>
      ListingStream(store(Expression(filters, logs, startTime, endTime).value, pageSize, projects[j]), lib).failure.None?
    requires ListingStream(store(Expression(filters, logs, startTime, endTime).value, pageSize, projects[i]), lib).failure.Some?
    ensures var xs := ProjectStreams(store, Expression(filters, logs, startTime, endTime).value, pageSize, projects, lib);
      ReadAll(projects, logs, startTime, endTime, pageSize, filters, store, lib) == Stream(Flatten(xs[..i + 1]), xs[i].failure)
  {
    var xs := ProjectStreams(store, Expression(filters, logs, startTime, endTime).value, pageSize, projects, lib);
    ChainFirstFailure(xs, i);
  }

  // ---------------------------------------------------------------- the reader object

  class Reader {
    var projectList: seq<string>
    var logList: seq<string>
    var startTime: DateTime
    var endTime: DateTime
    var pageSize: int
    var filters: seq<string>

    constructor (projectList: seq<string>, logList: seq<string>, startTime: DateTime, endTime: DateTime,
                 pageSize: int, filters: seq<string>)
      ensures this.projectList == projectList && this.logList == logList
      ensures this.startTime == startTime && this.endTime == endTime
      ensures this.pageSize == pageSize && this.filters == filters
    {
      this.projectList := projectList;
      this.logList := logList;
      this.startTime := startTime;
      this.endTime := endTime;
      this.pageSize := pageSize;
      this.filters := filters;
    }

    /**
     * Reader(...): the project list (discovered or the client's own), the log
     * list, the time window and the filters; fails only where computing the
     * default start time overflows.
     */
    static method Open(logName: Option<string>, startTime: Option<DateTime>, endTime: Option<DateTime>,
                       filters: Option<seq<string>>, collectMultipleProjects: bool, clientProject: string,
                       discovery: Discovery, pageSize: int, now: DateTime) returns (r: Result<Reader, ReadError>)
      ensures r.Failure? <==> ResolveTimes(startTime, endTime, now).Failure?
      ensures r.Failure? ==> r.error == Overflow
      ensures r.Success? ==>
        && fresh(r.value)
        && r.value.projectList == ProjectList(collectMultipleProjects, clientProject, discovery)
        && r.value.logList == LogList(logName, r.value.projectList)
        && (r.value.startTime, r.value.endTime) == ResolveTimes(startTime, endTime, now).value
        && r.value.pageSize == pageSize
        && r.value.filters == (if filters.Some? then filters.value else [])
    {
      var projects := ProjectList(collectMultipleProjects, clientProject, discovery);
      var logs := LogList(logName, projects);
      var times :- ResolveTimes(startTime, endTime, now);
      var reader := new Reader(projects, logs, times.0, times.1, pageSize, if filters.Some? then filters.value else []);
      r := Success(reader);
    }

    /** Iterating the reader to the end (or to the exception that ends it). */
    method Records(store: LogStore, lib: IpLibrary) returns (s: Stream)
      ensures s == ReadAll(projectList, logList, startTime, endTime, pageSize, filters, store, lib)
    {
      var expression := Expression(filters, logList, startTime, endTime);
      if expression.Failure? {
        return Stream([], Some(expression.error));
      }
      var expr := expression.value;
      ghost var projects := ProjectStreams(store, expr, pageSize, projectList, lib);
      var out: seq<FlowRecord> := [];
      for i := 0 to |projectList|
        invariant Chain(projects[..i]) == Stream(out, None)
      {
        var listing := store(expr, pageSize, projectList[i]);
        var project := ReadListing(listing, lib);
        ChainStep(projects, i);
        if project.failure.Some? {
          ChainSticks(projects, i + 1);
          return Stream(out + project.records, project.failure);
        }
        out := out + project.records;
      }
      assert projects[..|projectList|] == projects;
      s := Stream(out, None);
    }
  }

  /** The pages of one listing call, one after another; the try/except lets a GoogleAPIError end only this project. */
  method ReadListing(listing: Listing, lib: IpLibrary) returns (s: Stream)
    ensures s == ListingStream(listing, lib)
  {
    ghost var pages := seq(|listing.pages|, j requires 0 <= j < |listing.pages| => Chain(EntryStreams(listing.pages[j], lib)));
    var out: seq<FlowRecord> := [];
    for j := 0 to |listing.pages|
      invariant Chain(pages[..j]) == Stream(out, None)
    {
      var page := ReadPage(listing.pages[j], lib);
      ChainStep(pages, j);
      if page.failure.Some? {
        ChainSticks(pages, j + 1);
        return Stream(out + page.records, page.failure);
      }
      out := out + page.records;
    }
    assert pages[..|listing.pages|] == pages;
    s := Stream(out, None);
  }

  /** The entries of one page, each turned into a FlowRecord; the first that cannot be ends the stream. */
  method ReadPage(page: seq<Entry>, lib: IpLibrary) returns (s: Stream)
    ensures s == Chain(EntryStreams(page, lib))
  {
    ghost var entries := EntryStreams(page, lib);
    var out: seq<FlowRecord> := [];
    for k := 0 to |page|
      invariant Chain(entries[..k]) == Stream(out, None)
    {
      var record := NewFlowRecord(page[k], lib);
      ChainStep(entries, k);
      if record.Failure? {
        ChainSticks(entries, k + 1);
        return Stream(out, Some(BadRecord(record.error)));
      }
      out := out + [record.value];
    }
    assert entries[..|page|] == entries;
    s := Stream(out, None);
  }
}
