/**
 * The link validator's decision logic: for each link of a batch, resolve its
 * service supporter, assemble the request (with a proxy when the pool has
 * any), or count the link's host as unsupported; and emit the end-of-run
 * summary once the last link's request has been handled.
 *
 * Log lines, handleError calls and each completed step that
 * handleResult(record) returned are events appended to `log`. Each chain
 * settles right after its dispatch, so the log's order is the model's order,
 * not the order in which the source's chains settle.
 */
module App {
  import opened Values
  import opened Registry
  import opened Tracker
  import opened ProxyPool
  import opened Batch

  /**
   * How a dispatched request's promise chain settles: `Resolved` when the
   * request, the supporter's verification and the step handleResult(record)
   * returned all complete, `Rejected` when any of them fails.
   */
  datatype ChainOutcome = Resolved | Rejected

  /** What the input source hands to its callback: an error flag, the link column and the rows. */
  datatype InputBatch = InputBatch(failed: bool, column: string, records: seq<LinkRecord>)

  datatype Event =
    | StartRun                                      // run-log notice "=====start run====="
    | InputError                                    // the input source reported an error
    | Processing(link: Option<string>)              // debug line "processing " + link
    | UsingProxy(proxy: Proxy)                      // notice "using proxy:" + proxy
    | Dispatched(options: ReqFields)                // the request sent, as its options stood
    | ResultHandled(record: LinkRecord)             // the step handleResult(record) returned ran to completion
    | ErrorLogged(link: Option<string>)             // an error logged with the link's url
    | NoSupport(url: string)                        // run-log notice "No support found for file service: " + url
    | HandleError(message: string, attribs: LinkRecord?) // the result handler's handleError call
    | Summary(counts: map<string, nat>)             // run-log notice "--Unsupported Services Summary--"
    | FinishRun                                     // run-log notice "=====finish run====="

  /** How many end-of-run summaries a log holds. */
  function SummaryCount(events: seq<Event>): nat
  {
    if events == [] then 0
    else SummaryCount(events[..|events| - 1]) + (if events[|events| - 1].Summary? then 1 else 0)
  }

  /** How many times a log shows the result handler's handleError being called. */
  function HandleErrorCount(events: seq<Event>): nat
  {
    if events == [] then 0
    else HandleErrorCount(events[..|events| - 1]) + (if events[|events| - 1].HandleError? then 1 else 0)
  }

  /** The records of the ResultHandled events: whose returned handleResult step ran to completion, in the log's order. */
  function HandledRecords(events: seq<Event>): seq<LinkRecord>
  {
    if events == [] then []
    else
      var last := events[|events| - 1];
      HandledRecords(events[..|events| - 1]) + (if last.ResultHandled? then [last.record] else [])
  }

  lemma AppendAssoc<T>(a: seq<T>, b: seq<T>, c: seq<T>)
    ensures (a + b) + c == a + (b + c)
  {
  }

  /** Two sequences that extend equal prefixes by the same suffix are equal. */
  lemma SameExtension<T>(x: seq<T>, y: seq<T>, z: seq<T>, w: seq<T>, c: seq<T>)
    requires x == y + c && y == z && w == z + c
    ensures x == w
  {
  }

  /**
   * The link each row holds in the link column, `result[dlLinkColumnName]`;
   * `None` when the row has no string there: the column is missing
   * (undefined) or holds null, and a null value is modelled as a column
   * absent from `columns`. Either way `URL.parse` fails and the row is
   * logged as an error.
   */
  function Links(records: seq<LinkRecord>, column: string): seq<Option<string>>
  {
    seq(|records|, i requires 0 <= i < |records| =>
      if column in records[i].columns then Some(records[i].columns[column]) else None)
  }

  /** The provenance properties `url` and `proxy` of each record, as values. */
  ghost function Stamps(records: seq<LinkRecord>): (r: seq<(Option<string>, Option<Proxy>)>)
    reads records
    ensures |r| == |records|
  {
    seq(|records|, k requires 0 <= k < |records| reads records => (records[k].url, records[k].proxy))
  }

  /** No later row of the batch holds the same record object as row k. */
  ghost predicate LastUse(records: seq<LinkRecord>, k: nat, end: nat)
    requires k < end <= |records|
  {
    forall j :: k < j < end ==> records[j] != records[k]
  }

  /**
   * The state app.js keeps at module level: the loaded supporters, the proxy
   * list, the hostname parser, and the unsupported-service counters.
   */
  class Validator {
    const supporters: seq<Supporter>
    const proxies: seq<Proxy>
    /** `URL.parse(url).hostname`; `None` stands for a null hostname. */
    const hostnameOf: string -> Option<string>
    var foundUnsupportedServices: map<string, nat>
    var log: seq<Event>

    constructor (supporters: seq<Supporter>, proxies: seq<Proxy>, hostnameOf: string -> Option<string>)
      ensures this.supporters == supporters && this.proxies == proxies && this.hostnameOf == hostnameOf
      ensures foundUnsupportedServices == map[] && log == []
    {
      this.supporters, this.proxies, this.hostnameOf := supporters, proxies, hostnameOf;
      foundUnsupportedServices, log := map[], [];
    }

    /** The supporter a url resolves to, by its index. */
    function Provider(url: string): Option<nat>
    {
      IdentifyProvider(hostnameOf(url), supporters)
    }

    /** Whether a row's link is present and resolves to a supporter. */
    predicate Supported(link: Option<string>)
    {
      link.Some? && Provider(link.value).Some?
    }

    /** The counter key of a url's host. */
    function Key(url: string): string
    {
      CounterKey(hostnameOf(url))
    }

    /** The supporters' shared request templates. */
    function Templates(): set<RequestOptions>
    {
      set i | 0 <= i < |supporters| && supporters[i].reqOpts.Some? :: supporters[i].reqOpts.value
    }

    /** The template supporter p hands out by reference: its `reqOpts`, unless it builds its own request. */
    function SharedTemplate(p: nat): (r: set<RequestOptions>)
      requires p < |supporters|
      ensures r <= Templates()
    {
      if !supporters[p].setupRequest && supporters[p].reqOpts.Some? then
        assert supporters[p].reqOpts.value in Templates();
        {supporters[p].reqOpts.value}
      else {}
    }

    /** The template a row writes to when it dispatches: its supporter's shared one, if any. */
    function TemplateFor(link: Option<string>): (r: set<RequestOptions>)
      ensures r <= Templates()
    {
      if Supported(link) then SharedTemplate(Provider(link.value).value) else {}
    }

    /** The records of the rows whose link resolves to a supporter: the only records a batch writes to. */
    function SupportedRecords(links: seq<Option<string>>, records: seq<LinkRecord>): set<LinkRecord>
      requires |links| == |records|
    {
      set k | 0 <= k < |links| && Supported(links[k]) :: records[k]
    }

    /**
     * getRandomProxy: `None` (the source's `false`) on an empty list,
     * otherwise the proxy at the index `floor(random(0, length - 1))`.
     */
    function GetRandomProxy(u: real): (r: Option<Proxy>)
      requires 0.0 <= u < 1.0
      ensures r.None? <==> proxies == []
      ensures r.Some? ==> r.value in proxies
    {
      if |proxies| != 0 then Some(proxies[ProxyIndexAsWritten(|proxies|, u)]) else None
    }

    /** With two or more proxies, the proxy at the last position is never drawn: every draw picks a position before it. */
    lemma LastProxyNeverDrawn(u: real)
      requires |proxies| >= 2 && 0.0 <= u < 1.0
      ensures GetRandomProxy(u).value in proxies[..|proxies| - 1]
    {
      ProxyIndexAsWrittenSkipsLast(|proxies|, u);
      assert proxies[ProxyIndexAsWritten(|proxies|, u)] == proxies[..|proxies| - 1][ProxyIndexAsWritten(|proxies|, u)];
    }

    /** The options getReqOpts yields for supporter p, before the pipeline writes to them. */
    function BaseFields(p: nat, url: string): ReqFields
      requires p < |supporters|
      reads Templates()
    {
      var s := supporters[p];
      if s.setupRequest then s.getCustomRequest(url)
      else if s.reqOpts.Some? then
        assert s.reqOpts.value in Templates();
        s.reqOpts.value.Fields()
      else EmptyRequest
    }

    /**
     * The options after assembly: `uri` is the link, and when the pool has
     * proxies, `proxy` is a drawn one and `tunnel` is false; all else is kept.
     */
    function AssembledFields(base: ReqFields, url: string, u: real): (r: ReqFields)
      requires 0.0 <= u < 1.0
      ensures r.uri == Some(url) && r.rest == base.rest
      ensures proxies != [] ==> r.proxy == GetRandomProxy(u) && r.proxy.Some? && r.proxy.value in proxies && r.tunnel == Some(false)
      ensures proxies == [] ==> r.proxy == base.proxy && r.tunnel == base.tunnel
    {
      if proxies != [] then base.(uri := Some(url), proxy := GetRandomProxy(u), tunnel := Some(false))
      else base.(uri := Some(url))
    }

    /** The options a supported url is dispatched with, from the current templates. */
    function DispatchedFields(url: string, u: real): ReqFields
      requires Provider(url).Some? && 0.0 <= u < 1.0
      reads Templates()
    {
      AssembledFields(BaseFields(Provider(url).value, url), url, u)
    }

    /** The proxy notice assembly logs: with proxies, the one the options now carry. */
    function ProxyEvents(options: ReqFields): seq<Event>
    {
      if proxies != [] && options.proxy.Some? then [UsingProxy(options.proxy.value)] else []
    }

    /** The hosts reported as unsupported, in the order of their notices. */
    function ReportedHosts(events: seq<Event>): seq<string>
    {
      if events == [] then []
      else
        var last := events[|events| - 1];
        ReportedHosts(events[..|events| - 1]) + (if last.NoSupport? then [Key(last.url)] else [])
    }

    /** Each projection of a log is the projection of its first part followed by that of the rest. */
    lemma {:induction false} ProjectionsAppend(a: seq<Event>, b: seq<Event>)
      ensures SummaryCount(a + b) == SummaryCount(a) + SummaryCount(b)
      ensures HandleErrorCount(a + b) == HandleErrorCount(a) + HandleErrorCount(b)
      ensures HandledRecords(a + b) == HandledRecords(a) + HandledRecords(b)
      ensures ReportedHosts(a + b) == ReportedHosts(a) + ReportedHosts(b)
    {
      if b == [] {
        assert a + b == a;
      } else {
        assert (a + b)[..|a + b| - 1] == a + b[..|b| - 1];
        ProjectionsAppend(a, b[..|b| - 1]);
      }
    }

    /** Append one event to the log. */
    method Emit(e: Event)
      modifies this`log
      ensures log == old(log) + [e]
    {
      log := log + [e];
    }

    /** When the pool has proxies, draw one into the options, turn tunnelling off and log it. */
    method AttachProxy(options: RequestOptions, u: real)
      requires 0.0 <= u < 1.0
      modifies this`log, options
      ensures options.Fields() == if proxies != [] then
        old(options.Fields()).(proxy := GetRandomProxy(u), tunnel := Some(false))
        else old(options.Fields())
      ensures log == old(log) + ProxyEvents(options.Fields())
    {
      if proxies != [] {
        var chosen := GetRandomProxy(u);
        options.proxy := chosen;
        options.tunnel := Some(false);
        Emit(UsingProxy(chosen.value));
      }
    }

    /**
     * The supported branch of verifyDownload up to the request: fetch the
     * options, attach a proxy, replace a missing link record by a fresh one,
     * and write the provenance fields and the target url.
     */
    method AssembleRequest(p: nat, url: string, attribs: LinkRecord?, u: real)
      returns (options: RequestOptions, record: LinkRecord)
      requires p < |supporters| && 0.0 <= u < 1.0
      modifies this`log, attribs, SharedTemplate(p)
      ensures options.Fields() == AssembledFields(old(BaseFields(p, url)), url, u)
      ensures supporters[p].setupRequest || supporters[p].reqOpts.None? ==> fresh(options)
      ensures !supporters[p].setupRequest && supporters[p].reqOpts.Some? ==> options == supporters[p].reqOpts.value
      ensures attribs != null ==> record == attribs
      ensures attribs == null ==> fresh(record) && record.columns == map[]
      ensures record.url == Some(url) && record.proxy == options.proxy
      ensures log == old(log) + ProxyEvents(options.Fields())
      ensures forall t :: t in SharedTemplate(p) ==> SameDispatch(t.Fields(), old(t.Fields()))
    {
      options := GetReqOpts(supporters[p], url);
      AttachProxy(options, u);
      if attribs == null {
        record := new LinkRecord(map[]);
      } else {
        record := attribs;
      }
      record.proxy := options.proxy;
      record.url := Some(url);
      options.uri := Some(url);
    }

    /** The first sighting of an unsupported host: the run-log notice and the handler's error call. */
    method ReportUnsupported(url: string, attribs: LinkRecord?)
      modifies this`log
      ensures log == old(log) + [NoSupport(url), HandleError(NoSupportMessage, attribs)]
    {
      Emit(NoSupport(url));
      Emit(HandleError(NoSupportMessage, attribs));
      AppendAssoc(old(log), [NoSupport(url)], [HandleError(NoSupportMessage, attribs)]);
    }

    /**
     * The unsupported branch of verifyDownload: count the host, and on its
     * first occurrence log it and report it to the result handler.
     */
    method TrackUnsupported(url: string, attribs: LinkRecord?)
      modifies this`foundUnsupportedServices, this`log
      ensures foundUnsupportedServices == Record(old(foundUnsupportedServices), Key(url)).counts
      ensures log == old(log) +
        if Record(old(foundUnsupportedServices), Key(url)).first
        then [NoSupport(url), HandleError(NoSupportMessage, attribs)]
        else []
    {
      var host := Key(url);
      if host !in foundUnsupportedServices || foundUnsupportedServices[host] == 0 {
        foundUnsupportedServices := foundUnsupportedServices[host := 1];
        ReportUnsupported(url, attribs);
        assert Record(old(foundUnsupportedServices), host).first;
      } else {
        foundUnsupportedServices := foundUnsupportedServices[host := foundUnsupportedServices[host] + 1];
        assert !Record(old(foundUnsupportedServices), host).first;
      }
    }

    /**
     * What follows a dispatched request once its chain settles: on success the
     * step handleResult(record) returned runs to completion and, for the last link, the summary of
     * the counters and the finish marker follow; on failure the error is
     * logged with the link's url.
     */
    function Completion(url: string, record: LinkRecord, isLast: bool, chain: ChainOutcome,
                        counts: map<string, nat>): seq<Event>
    {
      if chain.Resolved?
      then [ResultHandled(record)] + (if isLast then [Summary(counts), FinishRun] else [])
      else [ErrorLogged(Some(url))]
    }

    /** The settling of a dispatched request's promise chain. */
    method Settle(url: string, record: LinkRecord, isLast: bool, chain: ChainOutcome)
      modifies this`log
      ensures log == old(log) + Completion(url, record, isLast, chain, foundUnsupportedServices)
    {
      if chain == Resolved {
        Emit(ResultHandled(record));
        if isLast {
          Emit(Summary(foundUnsupportedServices));
          Emit(FinishRun);
        }
      } else {
        Emit(ErrorLogged(Some(url)));
      }
    }

    /**
     * verifyDownload for one link. A supported link has its request assembled
     * and dispatched and leaves the counters alone; when its chain resolves
     * the step handleResult(record) returned runs to completion and, for the
     * last link, the summary follows. An unsupported link touches only its own counter.
     */
    method VerifyDownload(url: string, attribs: LinkRecord?, isLast: bool, u: real, chain: ChainOutcome)
      returns (options: RequestOptions?, record: LinkRecord?)
      requires 0.0 <= u < 1.0
      modifies this`foundUnsupportedServices, this`log, if Provider(url).Some? then {attribs} else {}, TemplateFor(Some(url))
      ensures forall t :: t in TemplateFor(Some(url)) ==> SameDispatch(t.Fields(), old(t.Fields()))
      ensures Provider(url).Some? ==>
        && options != null && record != null
        && foundUnsupportedServices == old(foundUnsupportedServices)
        && options.Fields() == old(DispatchedFields(url, u))
        && (attribs != null ==> record == attribs)
        && (attribs == null ==> fresh(record))
        && (var s := supporters[Provider(url).value];
            && (s.setupRequest || s.reqOpts.None? ==> fresh(options))
            && (!s.setupRequest && s.reqOpts.Some? ==> options == s.reqOpts.value))
        && record.url == Some(url) && record.proxy == options.proxy
        && log == old(log) + ProxyEvents(options.Fields()) + [Dispatched(options.Fields())] +
             Completion(url, record, isLast, chain, foundUnsupportedServices)
      ensures Provider(url).None? ==>
        && options == null && record == attribs
        && foundUnsupportedServices == Record(old(foundUnsupportedServices), Key(url)).counts
        && (attribs != null ==> unchanged(attribs))
        && log == old(log) +
             if Record(old(foundUnsupportedServices), Key(url)).first
             then [NoSupport(url), HandleError(NoSupportMessage, attribs)]
             else []
    {
      var p := IdentifyProvider(hostnameOf(url), supporters);
      if p.Some? {
        options, record := AssembleRequest(p.value, url, attribs, u);
        Emit(Dispatched(options.Fields()));
        Settle(url, record, isLast, chain);
      } else {
        TrackUnsupported(url, attribs);
        options, record := null, attribs;
      }
    }

    /** The counter keys of the links that resolve to no supporter, in batch order. */
    function UnsupportedKeys(links: seq<Option<string>>): seq<string>
    {
      if links == [] then []
      else
        UnsupportedKeys(links[..|links| - 1]) + RowKeys(links[|links| - 1])
    }

    /** The counter key a row contributes: its link's, when the link is present and unsupported. */
    function RowKeys(link: Option<string>): seq<string>
    {
      if link.Some? && Provider(link.value).None? then [Key(link.value)] else []
    }

    /** The options a row's link is dispatched with; empty for a row that dispatches nothing. */
    function RowFields(link: Option<string>, u: real): (r: ReqFields)
      requires 0.0 <= u < 1.0
      reads Templates()
      ensures Supported(link) ==>
        && r.uri == link
        && (proxies != [] ==> r.proxy == GetRandomProxy(u) && r.tunnel == Some(false))
    {
      if Supported(link) then DispatchedFields(link.value, u) else EmptyRequest
    }

    /**
     * Two states of a template dispatch alike: they agree on every option the
     * pipeline never writes, and, when the pool is empty (so the template's
     * own proxy and tunnel are sent), on `proxy` and `tunnel` as well.
     */
    predicate SameDispatch(a: ReqFields, b: ReqFields)
    {
      a.rest == b.rest && (proxies == [] ==> a.proxy == b.proxy && a.tunnel == b.tunnel)
    }

    /** Templates that dispatch alike assemble the same options. */
    lemma AssembledAlike(a: ReqFields, b: ReqFields, url: string, u: real)
      requires SameDispatch(a, b) && 0.0 <= u < 1.0
      ensures AssembledFields(a, url, u) == AssembledFields(b, url, u)
    {
    }

    /** The fields every template holds, as one value. */
    function TemplateState(): map<RequestOptions, ReqFields>
      reads Templates()
    {
      map t | t in Templates() :: t.Fields()
    }

    /** Every template of the snapshot `now` dispatches alike with its fields in the snapshot `start`. */
    predicate Alike(now: map<RequestOptions, ReqFields>, start: map<RequestOptions, ReqFields>)
    {
      forall t :: t in now ==> t in start && SameDispatch(now[t], start[t])
    }

    /**
     * The options a row's link is dispatched with when the templates hold
     * the fields in `state`; empty for a row that dispatches nothing.
     */
    function RowFieldsFrom(state: map<RequestOptions, ReqFields>, link: Option<string>, u: real): (r: ReqFields)
      requires 0.0 <= u < 1.0
      ensures Supported(link) ==>
        && r.uri == link
        && (proxies != [] ==> r.proxy == GetRandomProxy(u) && r.tunnel == Some(false))
    {
      if !Supported(link) then EmptyRequest
      else
        var s := supporters[Provider(link.value).value];
        var base :=
          if s.setupRequest then s.getCustomRequest(link.value)
          else if s.reqOpts.Some? && s.reqOpts.value in state then state[s.reqOpts.value]
          else EmptyRequest;
        AssembledFields(base, link.value, u)
    }

    /**
     * While the templates dispatch alike with a snapshot, every row is
     * dispatched with the options the snapshot gives it: writing a shared
     * template's `uri`, `proxy` and `tunnel` changes no later dispatch.
     */
    lemma RowFieldsAlike(start: map<RequestOptions, ReqFields>, link: Option<string>, u: real)
      requires 0.0 <= u < 1.0 && Alike(TemplateState(), start)
      ensures RowFields(link, u) == RowFieldsFrom(start, link, u)
    {
      if Supported(link) {
        var s := supporters[Provider(link.value).value];
        if !s.setupRequest && s.reqOpts.Some? {
          var t := s.reqOpts.value;
          assert t in TemplateState();
          AssembledAlike(t.Fields(), start[t], link.value, u);
        }
      }
    }

    /**
     * The events verifyDownload produces for a row, given the counters before
     * it and the options it dispatches: a missing link fails and is logged; a
     * supported one is dispatched and settled; an unsupported one is reported
     * on its host's first sighting.
     */
    function RowEvents(link: Option<string>, attribs: LinkRecord, isLast: bool, chain: ChainOutcome,
                       counts: map<string, nat>, fields: ReqFields): seq<Event>
    {
      if link.None? then [ErrorLogged(None)]
      else if Provider(link.value).Some? then
        ProxyEvents(fields) + [Dispatched(fields)] + Completion(link.value, attribs, isLast, chain, counts)
      else if Record(counts, Key(link.value)).first then
        [NoSupport(link.value), HandleError(NoSupportMessage, attribs)]
      else []
    }

    /** An event that no projection of the log sees. */
    predicate Quiet(e: Event)
    {
      !e.Summary? && !e.HandleError? && !e.ResultHandled? && !e.NoSupport?
    }

    /** Events that no projection sees leave every projection empty. */
    lemma {:induction false} QuietProjections(events: seq<Event>)
      requires forall i :: 0 <= i < |events| ==> Quiet(events[i])
      ensures SummaryCount(events) == 0 && HandleErrorCount(events) == 0
      ensures HandledRecords(events) == [] && ReportedHosts(events) == []
    {
      if events != [] {
        QuietProjections(events[..|events| - 1]);
      }
    }

    /** Each projection of a log extended by one event is that of the log plus the event's share. */
    lemma SingleProjections(e: Event)
      ensures SummaryCount([e]) == if e.Summary? then 1 else 0
      ensures HandleErrorCount([e]) == if e.HandleError? then 1 else 0
      ensures HandledRecords([e]) == if e.ResultHandled? then [e.record] else []
      ensures ReportedHosts([e]) == if e.NoSupport? then [Key(e.url)] else []
    {
      assert [e][..0] == [];
    }

    /**
     * A settled chain runs the step handleResult(record) returned to completion
     * exactly when it resolves, and holds a summary exactly when it resolves for the last link.
     */
    lemma CompletionProjections(url: string, record: LinkRecord, isLast: bool, chain: ChainOutcome,
                                counts: map<string, nat>)
      ensures var events := Completion(url, record, isLast, chain, counts);
        && SummaryCount(events) == (if isLast && chain.Resolved? then 1 else 0)
        && HandledRecords(events) == (if chain.Resolved? then [record] else [])
        && HandleErrorCount(events) == 0 && ReportedHosts(events) == []
    {
      if chain.Rejected? {
        SingleProjections(ErrorLogged(Some(url)));
      } else if !isLast {
        SingleProjections(ResultHandled(record));
      } else {
        var tail := [Summary(counts), FinishRun];
        SummaryTailProjections(counts);
        SingleProjections(ResultHandled(record));
        ProjectionsAppend([ResultHandled(record)], tail);
        assert [ResultHandled(record)] + tail == Completion(url, record, isLast, chain, counts);
        assert [record] + [] == [record] && [] + [] == ReportedHosts([]);
      }
    }

    /** The summary and the finish marker: one summary, seen by no other projection. */
    lemma SummaryTailProjections(counts: map<string, nat>)
      ensures var tail := [Summary(counts), FinishRun];
        && SummaryCount(tail) == 1 && HandleErrorCount(tail) == 0
        && HandledRecords(tail) == [] && ReportedHosts(tail) == []
    {
      SingleProjections(Summary(counts));
      SingleProjections(FinishRun);
      ProjectionsAppend([Summary(counts)], [FinishRun]);
      assert [Summary(counts)] + [FinishRun] == [Summary(counts), FinishRun];
    }

    /** The first sighting of an unsupported host adds one reported host and one handleError call. */
    lemma ReportProjections(url: string, attribs: LinkRecord?)
      ensures var events := [NoSupport(url), HandleError(NoSupportMessage, attribs)];
        && SummaryCount(events) == 0 && HandledRecords(events) == []
        && HandleErrorCount(events) == 1 && ReportedHosts(events) == [Key(url)]
    {
      SingleProjections(NoSupport(url));
      SingleProjections(HandleError(NoSupportMessage, attribs));
      ProjectionsAppend([NoSupport(url)], [HandleError(NoSupportMessage, attribs)]);
      assert [NoSupport(url)] + [HandleError(NoSupportMessage, attribs)] ==
        [NoSupport(url), HandleError(NoSupportMessage, attribs)];
    }

    /** The proxy notice and the dispatch line are seen by no projection. */
    lemma DispatchFrontProjections(fields: ReqFields)
      ensures var front := ProxyEvents(fields) + [Dispatched(fields)];
        && SummaryCount(front) == 0 && HandleErrorCount(front) == 0
        && HandledRecords(front) == [] && ReportedHosts(front) == []
    {
      SingleProjections(Dispatched(fields));
      if proxies != [] && fields.proxy.Some? {
        SingleProjections(UsingProxy(fields.proxy.value));
        ProjectionsAppend([UsingProxy(fields.proxy.value)], [Dispatched(fields)]);
      } else {
        assert ProxyEvents(fields) + [Dispatched(fields)] == [Dispatched(fields)];
      }
    }

    /**
     * A dispatched request adds a ResultHandled event exactly when its chain
     * resolves and a summary exactly when it resolves for the last link; the
     * proxy notice and the dispatch itself are seen by no projection.
     */
    lemma DispatchProjections(url: string, record: LinkRecord, isLast: bool, chain: ChainOutcome,
                              counts: map<string, nat>, fields: ReqFields)
      ensures var events := ProxyEvents(fields) + [Dispatched(fields)] + Completion(url, record, isLast, chain, counts);
        && SummaryCount(events) == (if isLast && chain.Resolved? then 1 else 0)
        && HandledRecords(events) == (if chain.Resolved? then [record] else [])
        && HandleErrorCount(events) == 0 && ReportedHosts(events) == []
    {
      var front := ProxyEvents(fields) + [Dispatched(fields)];
      var done := Completion(url, record, isLast, chain, counts);
      DispatchFrontProjections(fields);
      assert SummaryCount(done) == (if isLast && chain.Resolved? then 1 else 0)
        && HandledRecords(done) == (if chain.Resolved? then [record] else [])
        && HandleErrorCount(done) == 0 && ReportedHosts(done) == [] by {
        CompletionProjections(url, record, isLast, chain, counts);
      }
      ProjectionsAppend(front, done);
      assert [] + HandledRecords(done) == HandledRecords(done) && [] + ReportedHosts(done) == ReportedHosts(done);
    }

    /**
     * A row's events hold a summary exactly when its link is last, supported
     * and resolves; a ResultHandled event for the row's record exactly when
     * its link is supported and resolves; and one notice and one handleError
     * call exactly when its host is an unsupported one sighted for the first time.
     */
    lemma RowEventsProjections(link: Option<string>, attribs: LinkRecord, isLast: bool, chain: ChainOutcome,
                               counts: map<string, nat>, fields: ReqFields)
      ensures var events := RowEvents(link, attribs, isLast, chain, counts, fields);
        var tally := TallyAll(counts, RowKeys(link));
        && SummaryCount(events) == (if isLast && Supported(link) && chain.Resolved? then 1 else 0)
        && HandledRecords(events) == (if Supported(link) && chain.Resolved? then [attribs] else [])
        && ReportedHosts(events) == tally.reported
        && HandleErrorCount(events) == |tally.reported|
    {
      var events := RowEvents(link, attribs, isLast, chain, counts, fields);
      if link.None? {
        assert RowKeys(link) == [];
        assert events == [ErrorLogged(None)];
        SingleProjections(ErrorLogged(None));
      } else if Provider(link.value).Some? {
        assert RowKeys(link) == [];
        DispatchProjections(link.value, attribs, isLast, chain, counts, fields);
      } else {
        var key := Key(link.value);
        assert RowKeys(link) == [key];
        assert [key][..0] == [];
        if Record(counts, key).first {
          assert events == [NoSupport(link.value), HandleError(NoSupportMessage, attribs)];
          ReportProjections(link.value, attribs);
        } else {
          assert events == [];
        }
      }
    }

    /**
     * One iteration of the run loop: log the link being processed, then
     * verify it, or, when the row has no link, log the failure
     * verifyDownload raises and go on.
     */
    method VerifyRow(link: Option<string>, attribs: LinkRecord, isLast: bool, u: real, chain: ChainOutcome)
      returns (ghost emitted: seq<Event>)
      requires 0.0 <= u < 1.0
      modifies this`foundUnsupportedServices, this`log, if Supported(link) then {attribs} else {}, TemplateFor(link)
      ensures emitted == [Processing(link)] +
        RowEvents(link, attribs, isLast, chain, old(foundUnsupportedServices), old(RowFields(link, u)))
      ensures log == old(log) + emitted
      ensures foundUnsupportedServices == TallyAll(old(foundUnsupportedServices), RowKeys(link)).counts
      ensures Supported(link) ==>
        attribs.url == link && attribs.proxy == old(DispatchedFields(link.value, u)).proxy
      ensures Supported(link) && proxies != [] ==> attribs.proxy == GetRandomProxy(u)
      ensures !Supported(link) ==> unchanged(attribs)
      ensures forall t :: t in TemplateFor(link) ==> t.Fields() == old(RowFields(link, u))
      ensures !Supported(link) ==> forall t :: t in Templates() ==> unchanged(t)
      ensures forall t :: t in Templates() ==> SameDispatch(t.Fields(), old(t.Fields()))
    {
      ghost var counts0, fields0 := foundUnsupportedServices, RowFields(link, u);
      ghost var events := RowEvents(link, attribs, isLast, chain, counts0, fields0);
      Emit(Processing(link));
      ghost var before := log;
      if link.Some? {
        var options, record := VerifyDownload(link.value, attribs, isLast, u, chain);
        if Provider(link.value).Some? {
          assert options.Fields() == fields0 && record == attribs;
          assert events == ProxyEvents(fields0) + [Dispatched(fields0)] + Completion(link.value, attribs, isLast, chain, counts0);
        } else {
          assert [Key(link.value)][..0] == [];
          assert TallyAll(counts0, RowKeys(link)).counts == Record(counts0, Key(link.value)).counts;
        }
      } else {
        Emit(ErrorLogged(None));
      }
      assert log == before + events;
      emitted := [Processing(link)] + events;
      AppendAssoc(old(log), [Processing(link)], events);
    }

    /**
     * A row's effect on the log's projections: the reported hosts and the
     * handleError calls follow the row's tally, one ResultHandled event is
     * added for a supported resolved link, and a summary for a last one.
     */
    lemma RowProjections(log0: seq<Event>, link: Option<string>, attribs: LinkRecord, isLast: bool,
                         chain: ChainOutcome, counts: map<string, nat>, fields: ReqFields, row: seq<Event>)
      requires row == [Processing(link)] + RowEvents(link, attribs, isLast, chain, counts, fields)
      ensures var log1 := log0 + row;
        var tally := TallyAll(counts, RowKeys(link));
        && SummaryCount(log1) == SummaryCount(log0) + (if isLast && Supported(link) && chain.Resolved? then 1 else 0)
        && HandledRecords(log1) == HandledRecords(log0) + (if Supported(link) && chain.Resolved? then [attribs] else [])
        && ReportedHosts(log1) == ReportedHosts(log0) + tally.reported
        && HandleErrorCount(log1) == HandleErrorCount(log0) + |tally.reported|
    {
      var tally := TallyAll(counts, RowKeys(link));
      var events := RowEvents(link, attribs, isLast, chain, counts, fields);
      assert
        && SummaryCount(row) == SummaryCount(events) && HandleErrorCount(row) == HandleErrorCount(events)
        && HandledRecords(row) == HandledRecords(events) && ReportedHosts(row) == ReportedHosts(events)
      by {
        SingleProjections(Processing(link));
        ProjectionsAppend([Processing(link)], events);
        assert [] + HandledRecords(events) == HandledRecords(events);
        assert [] + ReportedHosts(events) == ReportedHosts(events);
      }
      RowEventsProjections(link, attribs, isLast, chain, counts, fields);
      ProjectionsAppend(log0, row);
    }

    /** One more row of the batch is one more tally over that row's keys. */
    lemma BatchTallyStep(counts: map<string, nat>, links: seq<Option<string>>, i: nat)
      requires i < |links|
      ensures var mid := TallyAll(counts, UnsupportedKeys(links[..i]));
        var step := TallyAll(mid.counts, RowKeys(links[i]));
        TallyAll(counts, UnsupportedKeys(links[..i + 1])) == Tally(step.counts, mid.reported + step.reported)
    {
      assert links[..i + 1][..i] == links[..i];
      TallyAppend(counts, UnsupportedKeys(links[..i]), RowKeys(links[i]));
    }

    /** Whether the summary fires: the last link is present, supported, and its chain resolves. */
    predicate SummaryFires(links: seq<Option<string>>, outcomes: seq<ChainOutcome>)
      requires |links| == |outcomes|
    {
      && |links| > 0
      && Supported(links[|links| - 1])
      && outcomes[|links| - 1].Resolved?
    }

    /** The records of the rows whose link is supported and whose chain resolves, in batch order. */
    function HandledRows(links: seq<Option<string>>, records: seq<LinkRecord>, outcomes: seq<ChainOutcome>): seq<LinkRecord>
      requires |links| == |records| == |outcomes|
    {
      if links == [] then []
      else
        var n := |links| - 1;
        HandledRows(links[..n], records[..n], outcomes[..n]) +
        (if Supported(links[n]) && outcomes[n].Resolved? then [records[n]] else [])
    }

    /**
     * run: log the start, then (unless the input source failed) verify each
     * row's link in order, flagging only the last. A row without a link fails
     * inside verifyDownload; the failure is logged and the loop goes on.
     */
    method Run(input: InputBatch, draws: seq<real>, outcomes: seq<ChainOutcome>)
      returns (flags: seq<bool>, ghost fields: seq<ReqFields>)
      requires |draws| == |input.records| && |outcomes| == |input.records|
      requires forall i :: 0 <= i < |draws| ==> 0.0 <= draws[i] < 1.0
      modifies this`foundUnsupportedServices, this`log, Templates()
      modifies SupportedRecords(Links(input.records, input.column), input.records)
      ensures input.failed ==>
        && flags == [] && foundUnsupportedServices == old(foundUnsupportedServices)
        && log == old(log) + [StartRun, InputError]
        && (forall r :: r in input.records ==> unchanged(r))
        && (forall t :: t in Templates() ==> unchanged(t))
      ensures !input.failed ==>
        var links := Links(input.records, input.column);
        && |flags| == |links| && LastFlags(flags) && |fields| == |links|
        && (forall k :: 0 <= k < |links| ==> fields[k] == old(RowFields(links[k], draws[k])))
        && log == old(log) + [StartRun] +
             BatchEvents(links, input.records, outcomes, old(foundUnsupportedServices), fields, |links|)
        && foundUnsupportedServices == TallyAll(old(foundUnsupportedServices), UnsupportedKeys(links)).counts
        && DispatchedAsDrawn(links, draws, fields, |links|)
        && forall k :: 0 <= k < |links| && Supported(links[k]) && LastUse(input.records, k, |links|) ==>
             input.records[k].url == links[k] && input.records[k].proxy == fields[k].proxy
      ensures forall t :: t in Templates() ==> SameDispatch(t.Fields(), old(t.Fields()))
    {
      Emit(StartRun);
      if input.failed {
        Emit(InputError);
        flags, fields := [], [];
      } else {
        flags, fields := VerifyBatch(Links(input.records, input.column), input.records, draws, outcomes);
      }
    }

    /**
     * What a whole batch logs, seen through the projections: one report and
     * one handleError call per host first sighted, a ResultHandled event for
     * each supported row whose chain resolves, in the model's (batch) order, and one
     * summary exactly when the summary fires.
     */
    lemma BatchProjections(links: seq<Option<string>>, records: seq<LinkRecord>,
                           outcomes: seq<ChainOutcome>, counts: map<string, nat>, fields: seq<ReqFields>)
      requires |links| == |records| == |outcomes| && |links| <= |fields|
      ensures var events := BatchEvents(links, records, outcomes, counts, fields, |links|);
        var tally := TallyAll(counts, UnsupportedKeys(links));
        && ReportedHosts(events) == tally.reported
        && HandleErrorCount(events) == |tally.reported|
        && HandledRecords(events) == HandledRows(links, records, outcomes)
        && SummaryCount(events) == if SummaryFires(links, outcomes) then 1 else 0
    {
      var n := |links|;
      assert links[..n] == links && records[..n] == records && outcomes[..n] == outcomes;
      BatchEventsReports(links, records, outcomes, counts, fields, n);
      BatchEventsErrors(links, records, outcomes, counts, fields, n);
      BatchEventsHandled(links, records, outcomes, counts, fields, n);
      BatchEventsSummary(links, records, outcomes, counts, fields, n);
    }

    /**
     * What a run adds to the log's projections: nothing when the input
     * source fails; otherwise one report and one handleError call per host
     * first sighted in the batch, a ResultHandled event for each supported row
     * whose chain resolves, in the model's order, and one summary exactly when the last link is
     * supported and resolves.
     */
    lemma RunProjections(log0: seq<Event>, input: InputBatch, outcomes: seq<ChainOutcome>,
                         counts: map<string, nat>, fields: seq<ReqFields>, log: seq<Event>)
      requires |outcomes| == |input.records| && |fields| == |input.records|
      requires input.failed ==> log == log0 + [StartRun, InputError]
      requires !input.failed ==> (log == log0 + [StartRun] +
        BatchEvents(Links(input.records, input.column), input.records, outcomes, counts, fields, |input.records|))
      ensures var links := Links(input.records, input.column);
        var tally := if input.failed then Tally(counts, []) else TallyAll(counts, UnsupportedKeys(links));
        && ReportedHosts(log) == ReportedHosts(log0) + tally.reported
        && HandleErrorCount(log) == HandleErrorCount(log0) + |tally.reported|
        && HandledRecords(log) == HandledRecords(log0) +
             (if input.failed then [] else HandledRows(links, input.records, outcomes))
        && SummaryCount(log) == SummaryCount(log0) +
             if !input.failed && SummaryFires(links, outcomes) then 1 else 0
    {
      var links := Links(input.records, input.column);
      if input.failed {
        assert SummaryCount(log) == SummaryCount(log0) && HandleErrorCount(log) == HandleErrorCount(log0)
          && HandledRecords(log) == HandledRecords(log0) && ReportedHosts(log) == ReportedHosts(log0) by {
          QuietProjections([StartRun, InputError]);
          ProjectionsAppend(log0, [StartRun, InputError]);
          assert HandledRecords(log0) + [] == HandledRecords(log0) && ReportedHosts(log0) + [] == ReportedHosts(log0);
        }
        assert ReportedHosts(log0) + [] == ReportedHosts(log0) && HandledRecords(log0) + [] == HandledRecords(log0);
      } else {
        var events := BatchEvents(links, input.records, outcomes, counts, fields, |links|);
        BatchProjections(links, input.records, outcomes, counts, fields);
        var started := log0 + [StartRun];
        assert SummaryCount(started) == SummaryCount(log0) && HandleErrorCount(started) == HandleErrorCount(log0)
          && HandledRecords(started) == HandledRecords(log0) && ReportedHosts(started) == ReportedHosts(log0) by {
          SingleProjections(StartRun);
          ProjectionsAppend(log0, [StartRun]);
          assert HandledRecords(log0) + [] == HandledRecords(log0) && ReportedHosts(log0) + [] == ReportedHosts(log0);
        }
        ProjectionsAppend(started, events);
      }
    }

    /** The run loop over the rows, given each row's link. */
    method VerifyBatch(links: seq<Option<string>>, records: seq<LinkRecord>, draws: seq<real>, outcomes: seq<ChainOutcome>)
      returns (flags: seq<bool>, ghost fields: seq<ReqFields>)
      requires |links| == |records| == |draws| == |outcomes|
      requires forall i :: 0 <= i < |draws| ==> 0.0 <= draws[i] < 1.0
      modifies this`foundUnsupportedServices, this`log, Templates(), SupportedRecords(links, records)
      ensures |flags| == |links| && LastFlags(flags)
      ensures |fields| == |links|
      ensures log == old(log) + BatchEvents(links, records, outcomes, old(foundUnsupportedServices), fields, |links|)
      ensures foundUnsupportedServices == TallyAll(old(foundUnsupportedServices), UnsupportedKeys(links)).counts
      ensures forall k :: 0 <= k < |links| ==> fields[k] == old(RowFields(links[k], draws[k]))
      ensures DispatchedAsDrawn(links, draws, fields, |links|)
      ensures forall k :: 0 <= k < |links| && Supported(links[k]) && LastUse(records, k, |links|) ==>
        records[k].url == links[k] && records[k].proxy == fields[k].proxy
      ensures forall t :: t in Templates() ==> SameDispatch(t.Fields(), old(t.Fields()))
    {
      ghost var found0, log0, start := foundUnsupportedServices, log, TemplateState();
      var n := |links|;
      forall k | 0 <= k < n ensures RowFields(links[k], draws[k]) == RowFieldsFrom(start, links[k], draws[k]) {
        RowFieldsAlike(start, links[k], draws[k]);
      }
      fields := [];
      assert links[..0] == [];
      flags := [];
      var i := 0;
      while i < n
        invariant 0 <= i <= n
        invariant |flags| == i && FlagsSoFar(flags, n)
        invariant |fields| == i
        invariant log == log0 + BatchEvents(links, records, outcomes, found0, fields, i)
        invariant foundUnsupportedServices == TallyAll(found0, UnsupportedKeys(links[..i])).counts
        invariant Provenance(links, records, Stamps(records), fields, i)
        invariant Alike(TemplateState(), start) && DispatchedFrom(start, links, draws, fields, i)
      {
        var isLast := i == n - 1;
        ghost var rowFields := VerifyNext(links, records, draws, outcomes, i, isLast, found0, log0, fields, start);
        FlagsStep(flags, n);
        flags := flags + [isLast];
        fields := fields + [rowFields];
        i := i + 1;
      }
      assert links[..n] == links;
      DispatchedFromDrawn(start, links, draws, fields, n);
      ghost var stamps := Stamps(records);
      assert forall k :: 0 <= k < n ==> stamps[k] == (records[k].url, records[k].proxy);
      forall t | t in Templates() ensures SameDispatch(t.Fields(), old(t.Fields())) {
        assert t in TemplateState() && start[t] == old(t.Fields());
      }
      assert LastFlags(flags) by {
        assert forall j :: 0 <= j < n ==> flags[j] == (j == n - 1);
      }
    }

    /** The flags given so far in a batch of n links: only index n - 1 is flagged. */
    ghost predicate FlagsSoFar(flags: seq<bool>, n: nat)
    {
      forall j :: 0 <= j < |flags| ==> flags[j] == (j == n - 1)
    }

    /** Flagging the next link keeps the flags given so far. */
    lemma FlagsStep(flags: seq<bool>, n: nat)
      requires FlagsSoFar(flags, n)
      ensures FlagsSoFar(flags + [|flags| == n - 1], n)
    {
    }

    /**
     * One row of a batch, with what it leaves behind stated on snapshots:
     * only the row's own record may change, and then it names the row's link
     * and proxy; every template still dispatches alike.
     */
    method VerifyAt(links: seq<Option<string>>, records: seq<LinkRecord>, i: nat, isLast: bool, u: real, chain: ChainOutcome)
      returns (ghost emitted: seq<Event>, ghost rowFields: ReqFields)
      requires i < |links| == |records| && 0.0 <= u < 1.0
      modifies this`foundUnsupportedServices, this`log, TemplateFor(links[i])
      modifies if Supported(links[i]) then {records[i]} else {}
      ensures rowFields == old(RowFields(links[i], u))
      ensures emitted == [Processing(links[i])] +
        RowEvents(links[i], records[i], isLast, chain, old(foundUnsupportedServices), rowFields)
      ensures log == old(log) + emitted
      ensures foundUnsupportedServices == TallyAll(old(foundUnsupportedServices), RowKeys(links[i])).counts
      ensures StampedRow(links, records, old(Stamps(records)), Stamps(records), rowFields, i)
      ensures Alike(TemplateState(), old(TemplateState()))
    {
      ghost var before, state0 := Stamps(records), TemplateState();
      rowFields := RowFields(links[i], u);
      emitted := VerifyRow(links[i], records[i], isLast, u, chain);
      ghost var after := Stamps(records);
      if Supported(links[i]) {
        forall k | 0 <= k < |records| && records[k] != records[i] ensures after[k] == before[k] {
          assert unchanged(records[k]);
        }
      } else {
        assert after == before;
      }
      forall t | t in TemplateState() ensures t in state0 && SameDispatch(TemplateState()[t], state0[t]) {
        assert SameDispatch(t.Fields(), old(t.Fields()));
      }
    }

    /** One iteration of the run loop, stated against the batch: row i's events extend the log and its key the tally. */
    method VerifyNext(links: seq<Option<string>>, records: seq<LinkRecord>, draws: seq<real>, outcomes: seq<ChainOutcome>,
                      i: nat, isLast: bool, ghost found0: map<string, nat>, ghost log0: seq<Event>, ghost fields: seq<ReqFields>,
                      ghost start: map<RequestOptions, ReqFields>)
      returns (ghost rowFields: ReqFields)
      requires i < |links| == |records| == |draws| == |outcomes| && |fields| == i
      requires isLast == (i == |links| - 1)
      requires forall k :: 0 <= k < |draws| ==> 0.0 <= draws[k] < 1.0
      requires log == log0 + BatchEvents(links, records, outcomes, found0, fields, i)
      requires foundUnsupportedServices == TallyAll(found0, UnsupportedKeys(links[..i])).counts
      requires Provenance(links, records, Stamps(records), fields, i)
      requires Alike(TemplateState(), start) && DispatchedFrom(start, links, draws, fields, i)
      modifies this`foundUnsupportedServices, this`log, TemplateFor(links[i])
      modifies if Supported(links[i]) then {records[i]} else {}
      ensures log == log0 + BatchEvents(links, records, outcomes, found0, fields + [rowFields], i + 1)
      ensures foundUnsupportedServices == TallyAll(found0, UnsupportedKeys(links[..i + 1])).counts
      ensures Provenance(links, records, Stamps(records), fields + [rowFields], i + 1)
      ensures rowFields == old(RowFields(links[i], draws[i]))
      ensures Alike(TemplateState(), start) && DispatchedFrom(start, links, draws, fields + [rowFields], i + 1)
    {
      ghost var before, state0 := Stamps(records), TemplateState();
      RowFieldsAlike(start, links[i], draws[i]);
      ghost var emitted;
      emitted, rowFields := VerifyAt(links, records, i, isLast, draws[i], outcomes[i]);
      ProvenanceStep(links, records, before, Stamps(records), fields, rowFields, i);
      BatchLogStep(log0, links, records, outcomes, found0, fields, rowFields, i, emitted);
      BatchTallyStep(found0, links, i);
      DispatchedFromStep(start, links, draws, fields, rowFields, i);
    }

    /**
     * The options of the first n rows as dispatched: a supported row's carry
     * its link as the target and, when the pool has proxies, the proxy its
     * draw picks with tunnelling off.
     */
    predicate DispatchedAsDrawn(links: seq<Option<string>>, draws: seq<real>, fields: seq<ReqFields>, n: nat)
      requires n <= |links| == |draws| && n <= |fields|
      requires forall k :: 0 <= k < |draws| ==> 0.0 <= draws[k] < 1.0
    {
      forall k :: 0 <= k < n && Supported(links[k]) ==>
        && fields[k].uri == links[k]
        && (proxies != [] ==> fields[k].proxy == GetRandomProxy(draws[k]) && fields[k].tunnel == Some(false))
    }

    /** The options of the first n rows are those the template snapshot `start` gives them. */
    predicate DispatchedFrom(start: map<RequestOptions, ReqFields>, links: seq<Option<string>>, draws: seq<real>,
                             fields: seq<ReqFields>, n: nat)
      requires n <= |links| == |draws| && n <= |fields|
      requires forall k :: 0 <= k < |draws| ==> 0.0 <= draws[k] < 1.0
    {
      forall k :: 0 <= k < n ==> fields[k] == RowFieldsFrom(start, links[k], draws[k])
    }

    /** One more row dispatched from the snapshot extends the rows dispatched from it. */
    lemma DispatchedFromStep(start: map<RequestOptions, ReqFields>, links: seq<Option<string>>, draws: seq<real>,
                             fields: seq<ReqFields>, f: ReqFields, i: nat)
      requires i < |links| == |draws| && |fields| == i
      requires forall k :: 0 <= k < |draws| ==> 0.0 <= draws[k] < 1.0
      requires DispatchedFrom(start, links, draws, fields, i)
      requires f == RowFieldsFrom(start, links[i], draws[i])
      ensures DispatchedFrom(start, links, draws, fields + [f], i + 1)
    {
      assert forall k :: 0 <= k < i ==> (fields + [f])[k] == fields[k];
    }

    /** Rows dispatched from a snapshot are dispatched as drawn: target, proxy and tunnel. */
    lemma DispatchedFromDrawn(start: map<RequestOptions, ReqFields>, links: seq<Option<string>>, draws: seq<real>,
                              fields: seq<ReqFields>, n: nat)
      requires n <= |links| == |draws| && n <= |fields|
      requires forall k :: 0 <= k < |draws| ==> 0.0 <= draws[k] < 1.0
      requires DispatchedFrom(start, links, draws, fields, n)
      ensures DispatchedAsDrawn(links, draws, fields, n)
    {
      forall k | 0 <= k < n && Supported(links[k])
        ensures fields[k].uri == links[k]
        ensures proxies != [] ==> fields[k].proxy == GetRandomProxy(draws[k]) && fields[k].tunnel == Some(false)
      {
        assert fields[k] == RowFieldsFrom(start, links[k], draws[k]);
      }
    }

    /**
     * Provenance of the first n rows, over the records' `url` and `proxy`
     * given as `stamps`: the record a supported row used last holds that
     * row's link and the proxy of the options it was dispatched with.
     */
    ghost predicate Provenance(links: seq<Option<string>>, records: seq<LinkRecord>,
                         stamps: seq<(Option<string>, Option<Proxy>)>, fields: seq<ReqFields>, n: nat)
      requires n <= |links| == |records| == |stamps| && n <= |fields|
    {
      forall k :: 0 <= k < n && Supported(links[k]) && LastUse(records, k, n) ==>
        stamps[k] == (links[k], fields[k].proxy)
    }

    /** Between two snapshots only record i's stamp may differ, and for a supported row it names the row's link and proxy. */
    predicate StampedRow(links: seq<Option<string>>, records: seq<LinkRecord>,
                         before: seq<(Option<string>, Option<Proxy>)>, after: seq<(Option<string>, Option<Proxy>)>,
                         f: ReqFields, i: nat)
      requires i < |links| == |records| == |before| == |after|
    {
      && (forall k :: 0 <= k < |records| && records[k] != records[i] ==> after[k] == before[k])
      && (Supported(links[i]) ==> after[i] == (links[i], f.proxy))
    }

    /**
     * Provenance survives one more row when only that row's record may have
     * changed and, for a supported row, it now holds the row's link and proxy.
     */
    lemma ProvenanceStep(links: seq<Option<string>>, records: seq<LinkRecord>,
                         before: seq<(Option<string>, Option<Proxy>)>, after: seq<(Option<string>, Option<Proxy>)>,
                         fields: seq<ReqFields>, f: ReqFields, i: nat)
      requires i < |links| == |records| == |before| == |after| && |fields| == i
      requires Provenance(links, records, before, fields, i)
      requires StampedRow(links, records, before, after, f, i)
      ensures Provenance(links, records, after, fields + [f], i + 1)
    {
      forall k | 0 <= k < i + 1 && Supported(links[k]) && LastUse(records, k, i + 1)
        ensures after[k] == (links[k], (fields + [f])[k].proxy)
      {
        if k < i {
          assert records[i] != records[k] && LastUse(records, k, i);
        }
      }
    }

    /**
     * What the run loop logs for the first n rows of a batch: each row's
     * processing line followed by that row's events, with the counters as
     * the rows before it left them and the options its link was dispatched
     * with. Only the row at index |links| - 1 is the last.
     */
    function BatchEvents(links: seq<Option<string>>, records: seq<LinkRecord>,
                         outcomes: seq<ChainOutcome>, counts: map<string, nat>, fields: seq<ReqFields>, n: nat): seq<Event>
      requires n <= |links| == |records| == |outcomes| && n <= |fields|
    {
      if n == 0 then []
      else
        BatchEvents(links, records, outcomes, counts, fields, n - 1) +
        ([Processing(links[n - 1])] +
         RowEvents(links[n - 1], records[n - 1], n == |links|, outcomes[n - 1],
                   TallyAll(counts, UnsupportedKeys(links[..n - 1])).counts, fields[n - 1]))
    }

    /** The events of the first n rows depend only on the options of those rows. */
    lemma {:induction false} BatchEventsPrefix(links: seq<Option<string>>, records: seq<LinkRecord>,
                                               outcomes: seq<ChainOutcome>, counts: map<string, nat>,
                                               fields: seq<ReqFields>, fields': seq<ReqFields>, n: nat)
      requires n <= |links| == |records| == |outcomes| && n <= |fields| && n <= |fields'|
      requires fields[..n] == fields'[..n]
      ensures BatchEvents(links, records, outcomes, counts, fields, n) ==
              BatchEvents(links, records, outcomes, counts, fields', n)
    {
      if n > 0 {
        assert fields[..n - 1] == fields[..n][..n - 1] && fields'[..n - 1] == fields'[..n][..n - 1];
        assert fields[n - 1] == fields[..n][n - 1] && fields'[n - 1] == fields'[..n][n - 1];
        BatchEventsPrefix(links, records, outcomes, counts, fields, fields', n - 1);
      }
    }

    /** The log after one more row: the log before it, then that row's processing line and events. */
    lemma BatchLogStep(log0: seq<Event>, links: seq<Option<string>>, records: seq<LinkRecord>,
                       outcomes: seq<ChainOutcome>, counts: map<string, nat>, fields: seq<ReqFields>,
                       rowFields: ReqFields, i: nat, emitted: seq<Event>)
      requires i < |links| == |records| == |outcomes| && |fields| == i
      requires emitted == [Processing(links[i])] + RowEvents(links[i], records[i], i == |links| - 1, outcomes[i],
                                                            TallyAll(counts, UnsupportedKeys(links[..i])).counts, rowFields)
      ensures log0 + BatchEvents(links, records, outcomes, counts, fields, i) + emitted ==
        log0 + BatchEvents(links, records, outcomes, counts, fields + [rowFields], i + 1)
    {
      BatchEventsSnoc(links, records, outcomes, counts, fields, rowFields, i);
      AppendAssoc(log0, BatchEvents(links, records, outcomes, counts, fields, i), emitted);
    }

    /** Verifying one more row adds that row's processing line and events after those of the rows before it. */
    lemma BatchEventsSnoc(links: seq<Option<string>>, records: seq<LinkRecord>,
                          outcomes: seq<ChainOutcome>, counts: map<string, nat>, fields: seq<ReqFields>,
                          rowFields: ReqFields, i: nat)
      requires i < |links| == |records| == |outcomes| && |fields| == i
      ensures BatchEvents(links, records, outcomes, counts, fields + [rowFields], i + 1) ==
        BatchEvents(links, records, outcomes, counts, fields, i) +
        ([Processing(links[i])] + RowEvents(links[i], records[i], i == |links| - 1, outcomes[i],
                                            TallyAll(counts, UnsupportedKeys(links[..i])).counts, rowFields))
    {
      BatchEventsPrefix(links, records, outcomes, counts, fields, fields + [rowFields], i);
    }

    /**
     * Row n - 1's events extend each projection of the log of the first n - 1
     * rows by that row's share, and its key extends their tally.
     */
    lemma BatchStepProjections(links: seq<Option<string>>, records: seq<LinkRecord>,
                               outcomes: seq<ChainOutcome>, counts: map<string, nat>, fields: seq<ReqFields>, n: nat)
      requires 0 < n <= |links| == |records| == |outcomes| && n <= |fields|
      ensures var before := BatchEvents(links, records, outcomes, counts, fields, n - 1);
        var after := BatchEvents(links, records, outcomes, counts, fields, n);
        var mid := TallyAll(counts, UnsupportedKeys(links[..n - 1]));
        var step := TallyAll(mid.counts, RowKeys(links[n - 1]));
        var handled := Supported(links[n - 1]) && outcomes[n - 1].Resolved?;
        && TallyAll(counts, UnsupportedKeys(links[..n])) == Tally(step.counts, mid.reported + step.reported)
        && ReportedHosts(after) == ReportedHosts(before) + step.reported
        && HandleErrorCount(after) == HandleErrorCount(before) + |step.reported|
        && HandledRecords(after) == HandledRecords(before) + (if handled then [records[n - 1]] else [])
        && HandledRows(links[..n], records[..n], outcomes[..n]) ==
             HandledRows(links[..n - 1], records[..n - 1], outcomes[..n - 1]) + (if handled then [records[n - 1]] else [])
        && SummaryCount(after) == SummaryCount(before) + (if handled && n == |links| then 1 else 0)
    {
      var i := n - 1;
      assert i + 1 == n;
      var mid := TallyAll(counts, UnsupportedKeys(links[..i]));
      var row := [Processing(links[i])] +
        RowEvents(links[i], records[i], n == |links|, outcomes[i], mid.counts, fields[i]);
      RowProjections(BatchEvents(links, records, outcomes, counts, fields, i),
                     links[i], records[i], n == |links|, outcomes[i], mid.counts, fields[i], row);
      BatchTallyStep(counts, links, i);
      HandledRowsStep(links, records, outcomes, i);
    }

    /** If the reported hosts match the tally over n - 1 rows, they match it over n rows. */
    lemma ReportsStep(links: seq<Option<string>>, records: seq<LinkRecord>,
                      outcomes: seq<ChainOutcome>, counts: map<string, nat>, fields: seq<ReqFields>, n: nat)
      requires 0 < n <= |links| == |records| == |outcomes| && n <= |fields|
      requires ReportedHosts(BatchEvents(links, records, outcomes, counts, fields, n - 1)) ==
        TallyAll(counts, UnsupportedKeys(links[..n - 1])).reported
      ensures ReportedHosts(BatchEvents(links, records, outcomes, counts, fields, n)) ==
        TallyAll(counts, UnsupportedKeys(links[..n])).reported
    {
      var mid := TallyAll(counts, UnsupportedKeys(links[..n - 1]));
      var step := TallyAll(mid.counts, RowKeys(links[n - 1]));
      BatchStepProjections(links, records, outcomes, counts, fields, n);
      SameExtension(ReportedHosts(BatchEvents(links, records, outcomes, counts, fields, n)),
                    ReportedHosts(BatchEvents(links, records, outcomes, counts, fields, n - 1)),
                    mid.reported, TallyAll(counts, UnsupportedKeys(links[..n])).reported, step.reported);
    }

    /** Over the first n rows, the log's reported hosts are the reports of those rows' tally, in order. */
    lemma {:induction false} BatchEventsReports(links: seq<Option<string>>, records: seq<LinkRecord>,
                                                outcomes: seq<ChainOutcome>, counts: map<string, nat>,
                                                fields: seq<ReqFields>, n: nat)
      requires n <= |links| == |records| == |outcomes| && n <= |fields|
      ensures ReportedHosts(BatchEvents(links, records, outcomes, counts, fields, n)) ==
        TallyAll(counts, UnsupportedKeys(links[..n])).reported
    {
      if n == 0 {
        assert links[..0] == [] && ReportedHosts([]) == [];
      } else {
        BatchEventsReports(links, records, outcomes, counts, fields, n - 1);
        ReportsStep(links, records, outcomes, counts, fields, n);
      }
    }

    /** Over the first n rows, handleError is called once per reported host. */
    lemma {:induction false} BatchEventsErrors(links: seq<Option<string>>, records: seq<LinkRecord>,
                                               outcomes: seq<ChainOutcome>, counts: map<string, nat>,
                                               fields: seq<ReqFields>, n: nat)
      requires n <= |links| == |records| == |outcomes| && n <= |fields|
      ensures HandleErrorCount(BatchEvents(links, records, outcomes, counts, fields, n)) ==
        |TallyAll(counts, UnsupportedKeys(links[..n])).reported|
    {
      if n == 0 {
        assert links[..0] == [] && HandleErrorCount([]) == 0;
      } else {
        BatchEventsErrors(links, records, outcomes, counts, fields, n - 1);
        BatchStepProjections(links, records, outcomes, counts, fields, n);
      }
    }

    /** Over the first n rows, the ResultHandled events name the records of the supported rows whose chains resolved, in batch order. */
    lemma {:induction false} BatchEventsHandled(links: seq<Option<string>>, records: seq<LinkRecord>,
                                                outcomes: seq<ChainOutcome>, counts: map<string, nat>,
                                                fields: seq<ReqFields>, n: nat)
      requires n <= |links| == |records| == |outcomes| && n <= |fields|
      ensures HandledRecords(BatchEvents(links, records, outcomes, counts, fields, n)) ==
        HandledRows(links[..n], records[..n], outcomes[..n])
    {
      if n == 0 {
        assert links[..0] == [] && records[..0] == [] && outcomes[..0] == [] && HandledRecords([]) == [];
      } else {
        BatchEventsHandled(links, records, outcomes, counts, fields, n - 1);
        BatchStepProjections(links, records, outcomes, counts, fields, n);
      }
    }

    /** Over the first n rows, the summary appears once, exactly when the whole batch is done and its last link fires. */
    lemma {:induction false} BatchEventsSummary(links: seq<Option<string>>, records: seq<LinkRecord>,
                                                outcomes: seq<ChainOutcome>, counts: map<string, nat>,
                                                fields: seq<ReqFields>, n: nat)
      requires n <= |links| == |records| == |outcomes| && n <= |fields|
      ensures SummaryCount(BatchEvents(links, records, outcomes, counts, fields, n)) ==
        if n == |links| && SummaryFires(links, outcomes) then 1 else 0
    {
      if n == 0 {
        assert SummaryCount([]) == 0;
      } else {
        BatchEventsSummary(links, records, outcomes, counts, fields, n - 1);
        BatchStepProjections(links, records, outcomes, counts, fields, n);
      }
    }

    /**
     * When the summary fires, the counters it logs are the final ones: the
     * tally of the whole batch's unsupported hosts.
     */
    lemma BatchEventsSummaryCounts(links: seq<Option<string>>, records: seq<LinkRecord>,
                                   outcomes: seq<ChainOutcome>, counts: map<string, nat>, fields: seq<ReqFields>)
      requires |links| == |records| == |outcomes| && |links| <= |fields|
      requires SummaryFires(links, outcomes)
      ensures Summary(TallyAll(counts, UnsupportedKeys(links)).counts) in
        BatchEvents(links, records, outcomes, counts, fields, |links|)
    {
      var i := |links| - 1;
      var mid := TallyAll(counts, UnsupportedKeys(links[..i]));
      var row := [Processing(links[i])] + RowEvents(links[i], records[i], true, outcomes[i], mid.counts, fields[i]);
      assert Summary(mid.counts) in row by {
        SummaryInRow(links[i], records[i], outcomes[i], mid.counts, fields[i]);
      }
      assert BatchEvents(links, records, outcomes, counts, fields, |links|) ==
        BatchEvents(links, records, outcomes, counts, fields, i) + row;
      assert UnsupportedKeys(links) == UnsupportedKeys(links[..i]) by {
        assert RowKeys(links[i]) == [];
      }
    }

    /** A last supported row whose chain resolves logs the summary of the counters it is given. */
    lemma SummaryInRow(link: Option<string>, attribs: LinkRecord, chain: ChainOutcome,
                       counts: map<string, nat>, fields: ReqFields)
      requires Supported(link) && chain.Resolved?
      ensures Summary(counts) in [Processing(link)] + RowEvents(link, attribs, true, chain, counts, fields)
    {
      var completion := Completion(link.value, attribs, true, chain, counts);
      assert completion[1] == Summary(counts);
      assert [Processing(link)] + RowEvents(link, attribs, true, chain, counts, fields) ==
        ([Processing(link)] + ProxyEvents(fields) + [Dispatched(fields)]) + completion;
    }

    /** One more row of the batch hands on its record when its link is supported and its chain resolves. */
    lemma HandledRowsStep(links: seq<Option<string>>, records: seq<LinkRecord>, outcomes: seq<ChainOutcome>, i: nat)
      requires i < |links| == |records| == |outcomes|
      ensures HandledRows(links[..i + 1], records[..i + 1], outcomes[..i + 1]) ==
        HandledRows(links[..i], records[..i], outcomes[..i]) +
        (if Supported(links[i]) && outcomes[i].Resolved? then [records[i]] else [])
    {
      assert links[..i + 1][..i] == links[..i];
      assert records[..i + 1][..i] == records[..i];
      assert outcomes[..i + 1][..i] == outcomes[..i];
    }
  }
}
