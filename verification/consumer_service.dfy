/**
 * The job execution engine (G2.Service/Jobs/ConsumerService.cs): a dequeued
 * job is admitted or requeued, the target page's traffic is captured per URL
 * while the browser visits it, and a terminal status is written back.
 *
 * The browser, the technology detector, DNS and the memory counters are
 * outside the model: their results arrive as `RunInputs`. The SSRF verdict of
 * each intercepted URL arrives with its event.
 */
module ConsumerService {
  import opened Common
  import opened Text
  import opened Entities
  import G2DbContext

  /** Size of the run semaphore. */
  const MaxConcurrency: nat := 10

  /**
   * What happens while the page is open, in order: an intercepted browser
   * event, where `safe` is SSRFChecker.IsUrlSafe of its URL, or a
   * JobService.CancelJob elsewhere adding `id` to the "job:cancel" set.
   */
  datatype Event =
    | Request(url: string, httpMethod: string, headers: seq<Header>, query: seq<Get>, postData: Option<string>, safe: bool)
    | Response(url: string, headers: seq<Header>, safe: bool)
    | CancelRequested(id: int)

  /** An intercepted event whose URL passed the SSRF check: the one kind the handlers act on. */
  predicate Handled(ev: Event)
  {
    !ev.CancelRequested? && ev.safe
  }

  /** One technology as the detector reports it. */
  datatype DetectedTech = DetectedTech(
    slug: string,
    name: string,
    description: Option<string>,
    confidence: int,
    version: Option<string>,
    website: Option<string>)

  /**
   * The step of the run that throws, if any. SetupFails is the setup before
   * the try block: the DI scope, Playwright.CreateAsync, or the known-header
   * and job queries.
   */
  datatype Failure = NoFailure | SetupFails | LaunchFails | NavigationFails | ScreenshotFails | CloseFails | CommitFails

  /** Everything a run learns from outside the process. */
  datatype RunInputs = RunInputs(
    memUsed: nat,
    memTotal: nat,
    ipAddresses: seq<string>,
    detection: Option<seq<DetectedTech>>,
    events: seq<Event>,
    screenshot: string,
    failure: Failure,
    startedAt: int,
    finishedAt: int)

  /**
   * Escaped: an exception leaves the run, either from the setup before the
   * try block or because the requeue and the catch block both dereference a
   * missing record.
   */
  datatype Outcome = Completed | Failed | Requeued | Escaped

  // ---------------------------------------------------------------------------
  // Header filtering

  /** Some known header of direction `kind` has this name, both compared ignoring case. */
  predicate IsKnown(key: string, known: seq<KnownHeader>, kind: string)
  {
    exists k :: 0 <= k < |known| && EqualsIgnoreCase(known[k].kind, kind) && EqualsIgnoreCase(known[k].name, key)
  }

  /** The headers worth recording: those no known header of direction `kind` names. */
  function Unexpected(headers: seq<Header>, known: seq<KnownHeader>, kind: string): (r: seq<Header>)
    ensures forall k :: 0 <= k < |r| ==> r[k] in headers && !IsKnown(r[k].key, known, kind)
    ensures forall k :: 0 <= k < |headers| && !IsKnown(headers[k].key, known, kind) ==> headers[k] in r
  {
    Filter(headers, (h: Header) => !IsKnown(h.key, known, kind))
  }

  /** The known headers a run loads: FindList(x => !x.IsDeleted). */
  function LiveHeaders(knownHeaders: seq<KnownHeader>): (r: seq<KnownHeader>)
    ensures forall k :: 0 <= k < |r| ==> r[k] in knownHeaders && !r[k].isDeleted
    ensures forall k :: 0 <= k < |knownHeaders| && !knownHeaders[k].isDeleted ==> knownHeaders[k] in r
  {
    Filter(knownHeaders, (h: KnownHeader) => !h.isDeleted)
  }

  /** A live known header of the right direction and name makes a header known. */
  lemma KnownInLive(known: seq<KnownHeader>, k: nat, key: string, kind: string)
    requires k < |known| && !known[k].isDeleted
    requires EqualsIgnoreCase(known[k].kind, kind) && EqualsIgnoreCase(known[k].name, key)
    ensures IsKnown(key, LiveHeaders(known), kind)
  {
    var live := LiveHeaders(known);
    assert known[k] in live;
    var j :| 0 <= j < |live| && live[j] == known[k];
  }

  /** With the seeded table, the CDN headers cf-ray, x-cache and x-served-by are never recorded as response headers. */
  lemma SeededCdnHeadersDropped(createdAt: int, headers: seq<Header>)
    ensures var r := Unexpected(headers, LiveHeaders(G2DbContext.KnownHeaderSeeds(createdAt)), "response");
      forall k :: 0 <= k < |r| ==>
        ToLower(r[k].key) != "cf-ray" && ToLower(r[k].key) != "x-cache" && ToLower(r[k].key) != "x-served-by"
  {
    var s := G2DbContext.KnownHeaderSeeds(createdAt);
    G2DbContext.CdnHeadersSeeded(createdAt);
    forall key: string | ToLower(key) == "cf-ray" || ToLower(key) == "x-cache" || ToLower(key) == "x-served-by"
      ensures IsKnown(key, LiveHeaders(s), "response")
    {
      CdnHeaderKnown(createdAt, key);
    }
  }

  lemma CdnHeaderKnown(createdAt: int, key: string)
    requires ToLower(key) == "cf-ray" || ToLower(key) == "x-cache" || ToLower(key) == "x-served-by"
    ensures IsKnown(key, LiveHeaders(G2DbContext.KnownHeaderSeeds(createdAt)), "response")
  {
    var s := G2DbContext.KnownHeaderSeeds(createdAt);
    G2DbContext.CdnHeadersSeeded(createdAt);
    assert ToLower("response") == "response";
    if ToLower(key) == "cf-ray" {
      assert ToLower(s[109].name) == "cf-ray";
      KnownInLive(s, 109, key, "response");
    } else if ToLower(key) == "x-cache" {
      assert ToLower(s[117].name) == "x-cache";
      KnownInLive(s, 117, key, "response");
    } else {
      assert ToLower(s[118].name) == "x-served-by";
      KnownInLive(s, 118, key, "response");
    }
  }

  // ---------------------------------------------------------------------------
  // The capture list, as a function of the events seen so far

  /** What the event handlers share: the captured sites, the run's cancellation flag and the "job:cancel" set. */
  datatype CrawlState = CrawlState(sites: seq<Site>, cancelled: bool, cancelSet: set<int>)

  /** At most one site per URL, comparing URLs ignoring case. */
  predicate UniqueUrls(sites: seq<Site>)
  {
    forall i, j :: 0 <= i < j < |sites| ==> !EqualsIgnoreCase(sites[i].url, sites[j].url)
  }

  /** _sites.FirstOrDefault(x => x.Url.Equals(url, OrdinalIgnoreCase)). */
  function FindSite(sites: seq<Site>, url: string): (r: Option<nat>)
    ensures r.Some? ==> r.value < |sites| && EqualsIgnoreCase(sites[r.value].url, url)
    ensures r.None? ==> forall j :: 0 <= j < |sites| ==> !EqualsIgnoreCase(sites[j].url, url)
  {
    FirstIndex(sites, (s: Site) => EqualsIgnoreCase(s.url, url))
  }

  /** When URLs are unique, the lookup finds the one site for a URL, whatever order the bag enumerates. */
  lemma FindSiteUnique(sites: seq<Site>, url: string, i: nat)
    requires UniqueUrls(sites)
    requires i < |sites| && EqualsIgnoreCase(sites[i].url, url)
    ensures FindSite(sites, url) == Some(i)
  {
  }

  /** The site the request handler creates: filtered request headers, query parameters, and the body of a POST. */
  function NewSite(ev: Event, known: seq<KnownHeader>): (s: Site)
    requires ev.Request?
    ensures s.url == ev.url && s.responseHeaders == []
    ensures |s.postParams| <= 1 && (|s.postParams| == 1 <==> ev.httpMethod == "POST")
  {
    Site(ev.url, Unexpected(ev.headers, known, "request"), [], ev.query,
      if ev.httpMethod == "POST" then [Post(ev.postData)] else [])
  }

  /**
   * One event. A cancellation request only adds its id to the set. Both
   * handlers return at once when the run is cancelled or the URL fails the
   * SSRF check, and turn a pending cancellation into the flag. A request for
   * a new URL adds its site; a response appends to its URL's site, and one
   * whose URL has no site leaves everything as it was (the handler faults on
   * the missing site).
   */
  function Step(st: CrawlState, jobId: int, known: seq<KnownHeader>, ev: Event): CrawlState
  {
    if ev.CancelRequested? then st.(cancelSet := st.cancelSet + {ev.id})
    else if st.cancelled || !ev.safe then st
    else if jobId in st.cancelSet then CrawlState(st.sites, true, st.cancelSet - {jobId})
    else if ev.Request? then
      if FindSite(st.sites, ev.url).Some? then st
      else st.(sites := st.sites + [NewSite(ev, known)])
    else
      match FindSite(st.sites, ev.url)
      case None => st
      case Some(i) =>
        var site := st.sites[i];
        st.(sites := st.sites[i := site.(responseHeaders := site.responseHeaders + Unexpected(ev.headers, known, "response"))])
  }

  /** The ids that cancellation requests among `events` add to the set. */
  function CancelsIn(events: seq<Event>): set<int>
    decreases |events|
  {
    if events == [] then {}
    else
      var ev := events[|events| - 1];
      CancelsIn(events[..|events| - 1]) + (if ev.CancelRequested? then {ev.id} else {})
  }

  /** The state after the handlers have run on `events`, in order. */
  function Crawl(st: CrawlState, jobId: int, known: seq<KnownHeader>, events: seq<Event>): CrawlState
    decreases |events|
  {
    if events == [] then st
    else Step(Crawl(st, jobId, known, events[..|events| - 1]), jobId, known, events[|events| - 1])
  }

  lemma StepKeepsUniqueUrls(st: CrawlState, jobId: int, known: seq<KnownHeader>, ev: Event)
    requires UniqueUrls(st.sites)
    ensures UniqueUrls(Step(st, jobId, known, ev).sites)
  {
    var r := Step(st, jobId, known, ev);
    if ev.Response? && !st.cancelled && ev.safe && jobId !in st.cancelSet && FindSite(st.sites, ev.url).Some? {
      var i := FindSite(st.sites, ev.url).value;
      assert forall k :: 0 <= k < |r.sites| ==> r.sites[k].url == st.sites[k].url;
    }
  }

  /** The capture list never holds two sites for one URL. */
  lemma {:induction false} CrawlKeepsUniqueUrls(st: CrawlState, jobId: int, known: seq<KnownHeader>, events: seq<Event>)
    requires UniqueUrls(st.sites)
    ensures UniqueUrls(Crawl(st, jobId, known, events).sites)
    decreases |events|
  {
    if events != [] {
      CrawlKeepsUniqueUrls(st, jobId, known, events[..|events| - 1]);
      StepKeepsUniqueUrls(Crawl(st, jobId, known, events[..|events| - 1]), jobId, known, events[|events| - 1]);
    }
  }

  /** Every recorded header is unknown for its direction. */
  predicate Filtered(sites: seq<Site>, known: seq<KnownHeader>)
  {
    (forall i, k :: 0 <= i < |sites| && 0 <= k < |sites[i].requestHeaders| ==>
      !IsKnown(sites[i].requestHeaders[k].key, known, "request"))
    && (forall i, k :: 0 <= i < |sites| && 0 <= k < |sites[i].responseHeaders| ==>
      !IsKnown(sites[i].responseHeaders[k].key, known, "response"))
  }

  lemma StepKeepsFiltered(st: CrawlState, jobId: int, known: seq<KnownHeader>, ev: Event)
    requires Filtered(st.sites, known)
    ensures Filtered(Step(st, jobId, known, ev).sites, known)
  {
    if ev.Response? && !st.cancelled && ev.safe && jobId !in st.cancelSet && FindSite(st.sites, ev.url).Some? {
      var i := FindSite(st.sites, ev.url).value;
      var added := Unexpected(ev.headers, known, "response");
      var hs := st.sites[i].responseHeaders + added;
      assert forall k :: 0 <= k < |hs| ==> !IsKnown(hs[k].key, known, "response") by {
        forall k | 0 <= k < |hs|
          ensures !IsKnown(hs[k].key, known, "response")
        {
          if k >= |st.sites[i].responseHeaders| {
            assert hs[k] == added[k - |st.sites[i].responseHeaders|];
          }
        }
      }
    }
  }

  /** Recorded request headers and response headers are exactly the unexpected ones. */
  lemma {:induction false} CrawlRecordsOnlyUnexpected(st: CrawlState, jobId: int, known: seq<KnownHeader>, events: seq<Event>)
    requires Filtered(st.sites, known)
    ensures Filtered(Crawl(st, jobId, known, events).sites, known)
    decreases |events|
  {
    if events != [] {
      CrawlRecordsOnlyUnexpected(st, jobId, known, events[..|events| - 1]);
      StepKeepsFiltered(Crawl(st, jobId, known, events[..|events| - 1]), jobId, known, events[|events| - 1]);
    }
  }

  /** Once the run is cancelled, no later event changes anything but the ids cancellation requests add. */
  lemma {:induction false} CancelledIsFinal(st: CrawlState, jobId: int, known: seq<KnownHeader>, events: seq<Event>)
    requires st.cancelled
    ensures Crawl(st, jobId, known, events) == st.(cancelSet := st.cancelSet + CancelsIn(events))
    decreases |events|
  {
    if events != [] {
      CancelledIsFinal(st, jobId, known, events[..|events| - 1]);
    }
  }

  /**
   * The cancel set gains the requested ids and loses at most this job's id:
   * it loses it when the run notices the cancellation, which it can only do
   * once the id was there, and it stays out unless requested again.
   */
  lemma {:induction false} CrawlCancelSet(st: CrawlState, jobId: int, known: seq<KnownHeader>, events: seq<Event>)
    requires !st.cancelled
    ensures var r := Crawl(st, jobId, known, events);
      var all := st.cancelSet + CancelsIn(events);
      r.cancelSet - {jobId} == all - {jobId}
      && (!r.cancelled ==> r.cancelSet == all)
      && (r.cancelled ==> jobId in all)
      && (r.cancelled && jobId !in CancelsIn(events) ==> jobId !in r.cancelSet)
    decreases |events|
  {
    if events != [] {
      var init := events[..|events| - 1];
      var ev := events[|events| - 1];
      var mid := Crawl(st, jobId, known, init);
      CrawlCancelSet(st, jobId, known, init);
      assert Crawl(st, jobId, known, events) == Step(mid, jobId, known, ev);
      if ev.CancelRequested? {
        assert CancelsIn(events) == CancelsIn(init) + {ev.id};
        var all := st.cancelSet + CancelsIn(init);
        assert (mid.cancelSet + {ev.id}) - {jobId} == (mid.cancelSet - {jobId}) + ({ev.id} - {jobId});
        assert (all + {ev.id}) - {jobId} == (all - {jobId}) + ({ev.id} - {jobId});
      } else {
        assert CancelsIn(events) == CancelsIn(init);
      }
    }
  }

  /** A pending cancellation is picked up by the first event whose URL passes the SSRF check. */
  lemma CancellationNoticed(st: CrawlState, jobId: int, known: seq<KnownHeader>, ev: Event)
    requires !st.cancelled && jobId in st.cancelSet && Handled(ev)
    ensures Step(st, jobId, known, ev) == CrawlState(st.sites, true, st.cancelSet - {jobId})
  {
  }

  /**
   * Events the handlers skip, and cancellation requests, capture nothing and
   * leave the flag as it was; the set only grows.
   */
  lemma {:induction false} QuietKeepsCapture(st: CrawlState, jobId: int, known: seq<KnownHeader>, events: seq<Event>)
    requires forall g :: 0 <= g < |events| ==> !Handled(events[g])
    ensures var r := Crawl(st, jobId, known, events);
      r.sites == st.sites && r.cancelled == st.cancelled && st.cancelSet <= r.cancelSet
    decreases |events|
  {
    if events != [] {
      QuietKeepsCapture(st, jobId, known, events[..|events| - 1]);
      assert !Handled(events[|events| - 1]);
    }
  }

  /**
   * A CancelJob that lands while the page is open stops the capture: from the
   * next event the handlers act on, the run is cancelled, and what it ends
   * with is what it had captured when the request arrived.
   */
  lemma CancelDuringCrawl(st: CrawlState, jobId: int, known: seq<KnownHeader>, events: seq<Event>, e: nat, f: nat)
    requires e < f < |events|
    requires events[e] == CancelRequested(jobId) && Handled(events[f])
    requires forall g :: e < g < f ==> !Handled(events[g])
    ensures var fin := Crawl(st, jobId, known, events);
      fin.cancelled && fin.sites == Crawl(st, jobId, known, events[..e]).sites
  {
    CancelNoticedNext(st, jobId, known, events, e, f);
    var c := Crawl(st, jobId, known, events[..f + 1]);
    CrawlSplit(st, jobId, known, events, f + 1);
    CancelledIsFinal(c, jobId, known, events[f + 1..]);
  }

  /** The first event the handlers act on after the request turns it into the flag, capturing nothing. */
  lemma CancelNoticedNext(st: CrawlState, jobId: int, known: seq<KnownHeader>, events: seq<Event>, e: nat, f: nat)
    requires e < f < |events|
    requires events[e] == CancelRequested(jobId) && Handled(events[f])
    requires forall g :: e < g < f ==> !Handled(events[g])
    ensures var c := Crawl(st, jobId, known, events[..f + 1]);
      c.cancelled && c.sites == Crawl(st, jobId, known, events[..e]).sites
  {
    var pre := Crawl(st, jobId, known, events[..e]);
    assert events[..e + 1][..e] == events[..e];
    var a := Crawl(st, jobId, known, events[..e + 1]);
    assert a == pre.(cancelSet := pre.cancelSet + {jobId});
    var head := events[..f];
    CrawlSplit(st, jobId, known, head, e + 1);
    assert head[..e + 1] == events[..e + 1];
    var quiet := head[e + 1..];
    assert forall g :: 0 <= g < |quiet| ==> quiet[g] == events[e + 1 + g];
    QuietKeepsCapture(a, jobId, known, quiet);
    assert events[..f + 1][..f] == head;
  }

  /** A capture made before the cancellation survives it: one site, then CancelJob, then a response. */
  lemma CaptureSurvivesCancel(jobId: int, known: seq<KnownHeader>, url: string, headers: seq<Header>)
    ensures var events := [Request(url, "GET", [], [], None, true), CancelRequested(jobId), Event.Response(url, headers, true)];
      var fin := Crawl(CrawlState([], false, {}), jobId, known, events);
      fin.cancelled && fin.sites == [Site(url, [], [], [], [])]
  {
    var events := [Request(url, "GET", [], [], None, true), CancelRequested(jobId), Event.Response(url, headers, true)];
    var st := CrawlState([], false, {});
    CancelDuringCrawl(st, jobId, known, events, 1, 2);
    assert events[..1] == [events[0]];
    assert events[..1][..0] == [];
    assert Unexpected([], known, "request") == [];
  }

  /**
   * Sites already captured keep their URL, request headers, query parameters
   * and body; only their response headers grow, by appending.
   */
  predicate Extends(before: seq<Site>, after: seq<Site>)
  {
    |before| <= |after|
    && forall i :: 0 <= i < |before| ==>
      after[i].url == before[i].url
      && after[i].requestHeaders == before[i].requestHeaders
      && after[i].getParams == before[i].getParams
      && after[i].postParams == before[i].postParams
      && |before[i].responseHeaders| <= |after[i].responseHeaders|
      && after[i].responseHeaders[..|before[i].responseHeaders|] == before[i].responseHeaders
  }

  lemma ExtendsTransitive(a: seq<Site>, b: seq<Site>, c: seq<Site>)
    requires Extends(a, b) && Extends(b, c)
    ensures Extends(a, c)
  {
    forall i | 0 <= i < |a|
      ensures c[i].responseHeaders[..|a[i].responseHeaders|] == a[i].responseHeaders
    {
      var n := |a[i].responseHeaders|;
      assert c[i].responseHeaders[..|b[i].responseHeaders|][..n] == c[i].responseHeaders[..n];
    }
  }

  lemma StepExtends(st: CrawlState, jobId: int, known: seq<KnownHeader>, ev: Event)
    ensures Extends(st.sites, Step(st, jobId, known, ev).sites)
  {
    var r := Step(st, jobId, known, ev);
    forall i | 0 <= i < |st.sites|
      ensures r.sites[i].responseHeaders[..|st.sites[i].responseHeaders|] == st.sites[i].responseHeaders
    {
    }
  }

  lemma {:induction false} CrawlExtends(st: CrawlState, jobId: int, known: seq<KnownHeader>, events: seq<Event>)
    ensures Extends(st.sites, Crawl(st, jobId, known, events).sites)
    decreases |events|
  {
    if events == [] {
      var s := st.sites;
      assert forall i :: 0 <= i < |s| ==> s[i].responseHeaders[..|s[i].responseHeaders|] == s[i].responseHeaders;
    } else {
      var mid := Crawl(st, jobId, known, events[..|events| - 1]);
      CrawlExtends(st, jobId, known, events[..|events| - 1]);
      StepExtends(mid, jobId, known, events[|events| - 1]);
      ExtendsTransitive(st.sites, mid.sites, Crawl(st, jobId, known, events).sites);
    }
  }

  /** `site` holds what the request handler records for `ev`, a request whose URL passed the SSRF check. */
  predicate MadeBy(site: Site, ev: Event, known: seq<KnownHeader>)
  {
    ev.Request? && ev.safe
    && site.url == ev.url
    && site.requestHeaders == Unexpected(ev.headers, known, "request")
    && site.getParams == ev.query
    && site.postParams == NewSite(ev, known).postParams
  }

  /**
   * Every site the run adds was created by a request event whose URL passed
   * the SSRF check, and was created from that request alone.
   */
  predicate FromSafeRequests(sites: seq<Site>, from: nat, known: seq<KnownHeader>, events: seq<Event>)
  {
    forall i :: from <= i < |sites| ==> exists e :: 0 <= e < |events| && MadeBy(sites[i], events[e], known)
  }

  lemma {:induction false} CrawlAddsOnlySafeRequests(st: CrawlState, jobId: int, known: seq<KnownHeader>, events: seq<Event>)
    ensures FromSafeRequests(Crawl(st, jobId, known, events).sites, |st.sites|, known, events)
    decreases |events|
  {
    if events != [] {
      var init := events[..|events| - 1];
      var ev := events[|events| - 1];
      var mid := Crawl(st, jobId, known, init);
      var r := Crawl(st, jobId, known, events);
      assert r == Step(mid, jobId, known, ev);
      CrawlAddsOnlySafeRequests(st, jobId, known, init);
      CrawlExtends(st, jobId, known, init);
      StepExtends(mid, jobId, known, ev);
      forall i | |st.sites| <= i < |r.sites|
        ensures exists e :: 0 <= e < |events| && MadeBy(r.sites[i], events[e], known)
      {
        if i < |mid.sites| {
          assert |st.sites| <= i < |mid.sites|;
          var e :| 0 <= e < |init| && MadeBy(mid.sites[i], init[e], known);
          assert events[e] == init[e];
          assert MadeBy(r.sites[i], events[e], known);
        } else {
          StepAddsNewSite(mid, jobId, known, ev, i);
          assert events[|events| - 1] == ev;
          assert MadeBy(r.sites[i], events[|events| - 1], known);
        }
      }
    }
  }

  /** A site beyond the old list comes from the event itself, a safe request. */
  lemma StepAddsNewSite(st: CrawlState, jobId: int, known: seq<KnownHeader>, ev: Event, i: nat)
    requires |st.sites| <= i < |Step(st, jobId, known, ev).sites|
    ensures ev.Request? && ev.safe && Step(st, jobId, known, ev).sites[i] == NewSite(ev, known)
  {
  }

  /** A safe request in a live run records its URL: a new site when none matches it, nothing otherwise. */
  lemma StepRecordsRequest(st: CrawlState, jobId: int, known: seq<KnownHeader>, ev: Event)
    requires !st.cancelled && ev.Request? && ev.safe && jobId !in st.cancelSet
    ensures var r := Step(st, jobId, known, ev);
      !r.cancelled && r.cancelSet == st.cancelSet
      && r.sites == st.sites + (if FindSite(st.sites, ev.url).None? then [NewSite(ev, known)] else [])
  {
  }

  /**
   * A safe response in a live run appends its unexpected headers to the site
   * of its URL and leaves every other site as it was.
   */
  lemma StepRecordsResponse(st: CrawlState, jobId: int, known: seq<KnownHeader>, ev: Event, k: nat)
    requires !st.cancelled && ev.Response? && ev.safe && jobId !in st.cancelSet
    requires FindSite(st.sites, ev.url) == Some(k)
    ensures var r := Step(st, jobId, known, ev);
      !r.cancelled && r.cancelSet == st.cancelSet && |r.sites| == |st.sites|
      && r.sites[k] == st.sites[k].(responseHeaders := st.sites[k].responseHeaders + Unexpected(ev.headers, known, "response"))
      && forall j :: 0 <= j < |st.sites| && j != k ==> r.sites[j] == st.sites[j]
  {
  }

  /** Running the handlers on a list of events is running them on a prefix, then on the rest. */
  lemma {:induction false} CrawlSplit(st: CrawlState, jobId: int, known: seq<KnownHeader>, events: seq<Event>, n: nat)
    requires n <= |events|
    ensures Crawl(st, jobId, known, events) == Crawl(Crawl(st, jobId, known, events[..n]), jobId, known, events[n..])
    decreases |events|
  {
    if n == |events| {
      assert events[..n] == events;
      assert events[n..] == [];
    } else {
      var init := events[..|events| - 1];
      CrawlSplit(st, jobId, known, init, n);
      assert init[..n] == events[..n];
      var rest := events[n..];
      assert rest[..|rest| - 1] == init[n..];
      assert rest[|rest| - 1] == events[|events| - 1];
    }
  }

  /** The state just after event `e`, when the run is still live at the end: that event's step was not skipped. */
  lemma LiveAtEvent(st: CrawlState, jobId: int, known: seq<KnownHeader>, events: seq<Event>, e: nat)
    requires e < |events| && Handled(events[e])
    requires !Crawl(st, jobId, known, events).cancelled
    ensures var pre := Crawl(st, jobId, known, events[..e]);
      var post := Step(pre, jobId, known, events[e]);
      !pre.cancelled && jobId !in pre.cancelSet
      && Extends(post.sites, Crawl(st, jobId, known, events).sites)
  {
    var pre := Crawl(st, jobId, known, events[..e]);
    var post := Step(pre, jobId, known, events[e]);
    CrawlSplit(st, jobId, known, events, e + 1);
    assert events[..e + 1][..e] == events[..e];
    assert Crawl(st, jobId, known, events[..e + 1]) == post;
    if pre.cancelled || jobId in pre.cancelSet {
      CancelledIsFinal(post, jobId, known, events[e + 1..]);
      assert false;
    }
    CrawlExtends(post, jobId, known, events[e + 1..]);
  }

  /**
   * Every safe request of a run that ends uncancelled is captured: some site
   * carries its URL, and when no site had that URL before the request, the
   * site appended at that point holds the request's URL, unexpected headers,
   * query parameters and body.
   */
  lemma CrawlRecordsRequest(st: CrawlState, jobId: int, known: seq<KnownHeader>, events: seq<Event>, e: nat)
    requires e < |events| && events[e].Request? && events[e].safe
    requires !Crawl(st, jobId, known, events).cancelled
    ensures var pre := Crawl(st, jobId, known, events[..e]);
      var fin := Crawl(st, jobId, known, events);
      var site := NewSite(events[e], known);
      (exists i :: 0 <= i < |fin.sites| && EqualsIgnoreCase(fin.sites[i].url, events[e].url))
      && (FindSite(pre.sites, events[e].url).None? ==>
            |pre.sites| < |fin.sites|
            && fin.sites[|pre.sites|].url == site.url
            && fin.sites[|pre.sites|].requestHeaders == site.requestHeaders
            && fin.sites[|pre.sites|].getParams == site.getParams
            && fin.sites[|pre.sites|].postParams == site.postParams)
  {
    var pre := Crawl(st, jobId, known, events[..e]);
    var post := Step(pre, jobId, known, events[e]);
    var fin := Crawl(st, jobId, known, events);
    LiveAtEvent(st, jobId, known, events, e);
    StepRecordsRequest(pre, jobId, known, events[e]);
    match FindSite(pre.sites, events[e].url)
    case Some(i) =>
      assert fin.sites[i].url == post.sites[i].url;
    case None =>
      var n := |pre.sites|;
      assert post.sites[n] == NewSite(events[e], known);
      assert ToLower(fin.sites[n].url) == ToLower(events[e].url);
  }

  /**
   * Every safe response of a run that ends uncancelled, for a URL already
   * captured, has its unexpected headers recorded on that site, after the
   * ones it held before and in the order the response sent them.
   */
  lemma CrawlRecordsResponse(st: CrawlState, jobId: int, known: seq<KnownHeader>, events: seq<Event>, e: nat)
    requires e < |events| && events[e].Response? && events[e].safe
    requires !Crawl(st, jobId, known, events).cancelled
    requires FindSite(Crawl(st, jobId, known, events[..e]).sites, events[e].url).Some?
    ensures var pre := Crawl(st, jobId, known, events[..e]);
      var fin := Crawl(st, jobId, known, events);
      var k := FindSite(pre.sites, events[e].url).value;
      var hs := pre.sites[k].responseHeaders + Unexpected(events[e].headers, known, "response");
      k < |fin.sites| && EqualsIgnoreCase(fin.sites[k].url, events[e].url)
      && |hs| <= |fin.sites[k].responseHeaders| && fin.sites[k].responseHeaders[..|hs|] == hs
  {
    var pre := Crawl(st, jobId, known, events[..e]);
    var k := FindSite(pre.sites, events[e].url).value;
    LiveAtEvent(st, jobId, known, events, e);
    StepRecordsResponse(pre, jobId, known, events[e], k);
  }

  // ---------------------------------------------------------------------------
  // A whole run, as a function of the store and the inputs

  /** The record the run updates: FirstOrDefault(x => x.Id == id && !x.IsDeleted). */
  function LiveRecord(jobs: map<int, Job>, id: int): (r: Option<Job>)
    ensures r.Some? <==> id in jobs && !jobs[id].isDeleted
    ensures r.Some? ==> r.value == jobs[id]
  {
    if id in jobs && !jobs[id].isDeleted then Some(jobs[id]) else None
  }

  /** Every record is stored under its own id. */
  predicate Keyed(jobs: map<int, Job>)
  {
    forall k :: k in jobs ==> jobs[k].id == k
  }

  /** The output keeps only Name and Version of each detected technology. */
  function Technologies(detected: seq<DetectedTech>): (r: seq<Technology>)
    ensures |r| == |detected|
    ensures forall i :: 0 <= i < |r| ==> r[i].name == detected[i].name && r[i].version == detected[i].version
  {
    seq(|detected|, i requires 0 <= i < |detected| => Technology(detected[i].name, detected[i].version))
  }

  /**
   * Plan.Screenshot of the job owner's account, looked up among verified,
   * enabled, non-deleted users; None when the lookup (or its plan) is null.
   */
  function ScreenshotAllowed(users: seq<User>, plans: seq<Plan>, userId: int): (r: Option<bool>)
    ensures r.Some? ==> exists i :: 0 <= i < |users| && users[i].id == userId && IsActive(users[i])
  {
    match ActiveAccount(users, userId)
    case None => None
    case Some(i) =>
      match PlanOf(plans, users[i].planId)
      case None => None
      case Some(j) => Some(plans[j].screenshot)
  }

  /**
   * The decision is the Screenshot flag of the plan an active account with
   * the owner's id points at; with no such account there is no decision.
   */
  lemma ScreenshotFlag(users: seq<User>, plans: seq<Plan>, userId: int)
    ensures var r := ScreenshotAllowed(users, plans, userId);
      (r.Some? ==>
        exists i, j :: 0 <= i < |users| && 0 <= j < |plans| && users[i].id == userId && IsActive(users[i])
          && plans[j].id == users[i].planId && r.value == plans[j].screenshot)
      && ((forall i :: 0 <= i < |users| ==> users[i].id != userId || !IsActive(users[i])) ==> r.None?)
  {
  }

  /** The catch block's write: Status "Failed" with both timestamps, over whatever the run had set. */
  function MarkFailed(jobs: map<int, Job>, rec: Job, inputs: RunInputs): (r: map<int, Job>)
    ensures rec.id in r && r[rec.id].status == "Failed"
    ensures r[rec.id].startedAt == Some(inputs.startedAt) && r[rec.id].completedAt == Some(inputs.finishedAt)
  {
    jobs[rec.id := rec.(status := "Failed", startedAt := Some(inputs.startedAt), completedAt := Some(inputs.finishedAt))]
  }

  /** The success path's record: the report, Status "Complete" and both timestamps. */
  function MarkComplete(rec: Job, sites: seq<Site>, inputs: RunInputs): (r: Job)
    requires inputs.detection.Some?
    ensures r.status == "Complete" && r.startedAt == Some(inputs.startedAt) && r.completedAt == Some(inputs.finishedAt)
  {
    rec.(output := Some(Report(sites, Technologies(inputs.detection.value), inputs.ipAddresses)),
         status := "Complete", startedAt := Some(inputs.startedAt), completedAt := Some(inputs.finishedAt))
  }

  datatype RunResult = RunResult(outcome: Outcome, jobs: map<int, Job>, queue: seq<Job>, cancelSet: set<int>)

  /** The crawl the run performs once the browser is up. */
  function RunCrawl(knownHeaders: seq<KnownHeader>, cancelSet: set<int>, job: Job, inputs: RunInputs): CrawlState
  {
    Crawl(CrawlState([], false, cancelSet), job.id, LiveHeaders(knownHeaders), inputs.events)
  }

  /**
   * The effect of one run on the store, the queue and the cancel set: a
   * setup that throws escapes before anything is written; otherwise the try
   * block runs.
   */
  function Run(jobs: map<int, Job>, users: seq<User>, plans: seq<Plan>, knownHeaders: seq<KnownHeader>,
               cancelSet: set<int>, queue: seq<Job>, job: Job, inputs: RunInputs): RunResult
  {
    if inputs.failure == SetupFails then RunResult(Escaped, jobs, queue, cancelSet)
    else Tried(jobs, users, plans, knownHeaders, cancelSet, queue, job, inputs)
  }

  /**
   * The try block. The memory quotient is integer division; a zero total
   * divides by zero and so takes the catch block.
   */
  function Tried(jobs: map<int, Job>, users: seq<User>, plans: seq<Plan>, knownHeaders: seq<KnownHeader>,
                 cancelSet: set<int>, queue: seq<Job>, job: Job, inputs: RunInputs): RunResult
  {
    match LiveRecord(jobs, job.id)
    case None => RunResult(Escaped, jobs, queue, cancelSet)
    case Some(rec) =>
      if inputs.memTotal == 0 then RunResult(Failed, MarkFailed(jobs, rec, inputs), queue, cancelSet)
      else if inputs.memUsed / inputs.memTotal != 0 then RunResult(Requeued, jobs, queue + [QueueCopy(rec)], cancelSet)
      else Launched(jobs, users, plans, LiveHeaders(knownHeaders), cancelSet, queue, job.id, rec, inputs)
  }

  /** The admitted run: the detector and the browser launch, then the page visit. */
  function Launched(jobs: map<int, Job>, users: seq<User>, plans: seq<Plan>, known: seq<KnownHeader>,
                    cancelSet: set<int>, queue: seq<Job>, jobId: int, rec: Job, inputs: RunInputs): RunResult
  {
    if inputs.detection.None? || inputs.failure == LaunchFails then
      RunResult(Failed, MarkFailed(jobs, rec, inputs), queue, cancelSet)
    else Browsed(jobs, users, plans, known, cancelSet, queue, jobId, rec, inputs)
  }

  /** The admitted run once the browser is up: the crawl, then screenshot, close and commit. */
  function Browsed(jobs: map<int, Job>, users: seq<User>, plans: seq<Plan>, known: seq<KnownHeader>,
                   cancelSet: set<int>, queue: seq<Job>, jobId: int, rec: Job, inputs: RunInputs): RunResult
    requires inputs.detection.Some?
  {
    var st := Crawl(CrawlState([], false, cancelSet), jobId, known, inputs.events);
    var allowed := ScreenshotAllowed(users, plans, rec.userId);
    if inputs.failure == NavigationFails || allowed.None? || (allowed.value && inputs.failure == ScreenshotFails) then
      RunResult(Failed, MarkFailed(jobs, rec, inputs), queue, st.cancelSet)
    else
      var shot := if allowed.value then rec.(screenshot := Some(inputs.screenshot)) else rec;
      if inputs.failure == CloseFails then RunResult(Failed, MarkFailed(jobs, shot, inputs), queue, st.cancelSet)
      else
        var done := MarkComplete(shot, st.sites, inputs);
        if inputs.failure == CommitFails then RunResult(Failed, MarkFailed(jobs, done, inputs), queue, st.cancelSet)
        else RunResult(Completed, jobs[rec.id := done], queue, st.cancelSet)
  }

  /**
   * Admitted: the setup went through, the record is live and
   * used / total == 0 in integer division, that is used < total.
   */
  predicate Admitted(jobs: map<int, Job>, job: Job, inputs: RunInputs)
  {
    inputs.failure != SetupFails && LiveRecord(jobs, job.id).Some? && inputs.memTotal != 0 && inputs.memUsed < inputs.memTotal
  }

  /** Crawl work (completion, or any touch of the cancel set) happens only for an admitted job; the rest is requeued or fails. */
  lemma AdmissionRule(jobs: map<int, Job>, users: seq<User>, plans: seq<Plan>, knownHeaders: seq<KnownHeader>,
                      cancelSet: set<int>, queue: seq<Job>, job: Job, inputs: RunInputs)
    ensures var r := Run(jobs, users, plans, knownHeaders, cancelSet, queue, job, inputs);
      (r.outcome == Completed ==> Admitted(jobs, job, inputs))
      && (r.cancelSet != cancelSet ==> Admitted(jobs, job, inputs))
      && (r.outcome == Requeued <==>
            inputs.failure != SetupFails && LiveRecord(jobs, job.id).Some? && inputs.memTotal != 0 && inputs.memUsed >= inputs.memTotal)
  {
    if inputs.memTotal != 0 {
      assert inputs.memUsed / inputs.memTotal == 0 <==> inputs.memUsed < inputs.memTotal;
    }
  }

  /** Requeue puts the stored record back on the queue unchanged and writes nothing. */
  lemma RequeueCopiesRecord(jobs: map<int, Job>, users: seq<User>, plans: seq<Plan>, knownHeaders: seq<KnownHeader>,
                            cancelSet: set<int>, queue: seq<Job>, job: Job, inputs: RunInputs)
    ensures var r := Run(jobs, users, plans, knownHeaders, cancelSet, queue, job, inputs);
      r.outcome == Requeued ==>
        job.id in jobs && r.queue == queue + [jobs[job.id]] && r.jobs == jobs && r.cancelSet == cancelSet
  {
    var r := Run(jobs, users, plans, knownHeaders, cancelSet, queue, job, inputs);
    if r.outcome == Requeued {
      QueueCopyOfLive(jobs[job.id]);
    }
  }

  /**
   * A run escapes exactly when its setup throws or there is no live record
   * (it then raises out of its catch block), and it has changed nothing.
   */
  lemma MissingRecordChangesNothing(jobs: map<int, Job>, users: seq<User>, plans: seq<Plan>, knownHeaders: seq<KnownHeader>,
                                    cancelSet: set<int>, queue: seq<Job>, job: Job, inputs: RunInputs)
    ensures var r := Run(jobs, users, plans, knownHeaders, cancelSet, queue, job, inputs);
      r.outcome == Escaped <==> inputs.failure == SetupFails || LiveRecord(jobs, job.id).None?
    ensures var r := Run(jobs, users, plans, knownHeaders, cancelSet, queue, job, inputs);
      r.outcome == Escaped ==> r.jobs == jobs && r.queue == queue && r.cancelSet == cancelSet
  {
  }

  /**
   * Success writes the report (technologies with only Name and Version, the
   * resolved addresses and the captured sites), Status "Complete" and both
   * timestamps, takes the screenshot only when the owner's plan allows it,
   * and changes no other record.
   */
  lemma CompletedRecord(jobs: map<int, Job>, users: seq<User>, plans: seq<Plan>, knownHeaders: seq<KnownHeader>,
                        cancelSet: set<int>, queue: seq<Job>, job: Job, inputs: RunInputs)
    requires Keyed(jobs)
    ensures var r := Run(jobs, users, plans, knownHeaders, cancelSet, queue, job, inputs);
      r.outcome == Completed ==>
        var old_ := jobs[job.id];
        var new_ := r.jobs[job.id];
        Admitted(jobs, job, inputs) && inputs.detection.Some?
        && (inputs.failure == NoFailure || inputs.failure == ScreenshotFails)
        && r.jobs == jobs[job.id := new_] && r.queue == queue
        && new_.status == "Complete"
        && new_.startedAt == Some(inputs.startedAt) && new_.completedAt == Some(inputs.finishedAt)
        && new_.output == Some(Report(RunCrawl(knownHeaders, cancelSet, job, inputs).sites,
                                      Technologies(inputs.detection.value), inputs.ipAddresses))
        && (new_.screenshot == Some(inputs.screenshot) || new_.screenshot == old_.screenshot)
        && (ScreenshotAllowed(users, plans, old_.userId) == Some(true) ==> new_.screenshot == Some(inputs.screenshot))
        && new_.id == old_.id && new_.url == old_.url && new_.userId == old_.userId
        && new_.createdAt == old_.createdAt && new_.isDeleted == old_.isDeleted
  {
    var r := Run(jobs, users, plans, knownHeaders, cancelSet, queue, job, inputs);
    if r.outcome == Completed {
      assert inputs.memUsed / inputs.memTotal == 0;
    }
  }

  /** Every caught failure writes Status "Failed" with both timestamps to the run's record and to no other. */
  lemma FailedRecord(jobs: map<int, Job>, users: seq<User>, plans: seq<Plan>, knownHeaders: seq<KnownHeader>,
                     cancelSet: set<int>, queue: seq<Job>, job: Job, inputs: RunInputs)
    requires Keyed(jobs)
    ensures var r := Run(jobs, users, plans, knownHeaders, cancelSet, queue, job, inputs);
      r.outcome == Failed ==>
        job.id in jobs && r.queue == queue
        && r.jobs == jobs[job.id := r.jobs[job.id]]
        && r.jobs[job.id].status == "Failed"
        && r.jobs[job.id].startedAt == Some(inputs.startedAt) && r.jobs[job.id].completedAt == Some(inputs.finishedAt)
        && r.jobs[job.id].userId == jobs[job.id].userId && r.jobs[job.id].url == jobs[job.id].url
  {
  }

  /**
   * The success path never consults the cancellation flag: a crawl that
   * noticed a cancellation is still written "Complete", with the sites
   * captured before it.
   */
  lemma CancelledCrawlCompletes(jobs: map<int, Job>, users: seq<User>, plans: seq<Plan>, knownHeaders: seq<KnownHeader>,
                                cancelSet: set<int>, queue: seq<Job>, job: Job, inputs: RunInputs)
    requires Keyed(jobs) && Admitted(jobs, job, inputs)
    requires inputs.detection.Some? && inputs.failure == NoFailure
    requires ScreenshotAllowed(users, plans, jobs[job.id].userId).Some?
    requires RunCrawl(knownHeaders, cancelSet, job, inputs).cancelled
    ensures var r := Run(jobs, users, plans, knownHeaders, cancelSet, queue, job, inputs);
      r.outcome == Completed && r.jobs[job.id].status == "Complete"
      && r.jobs[job.id].output.Some? && r.jobs[job.id].output.value.sites == RunCrawl(knownHeaders, cancelSet, job, inputs).sites
      && r.cancelSet - {job.id} == (cancelSet + CancelsIn(inputs.events)) - {job.id}
      && (job.id !in CancelsIn(inputs.events) ==> job.id !in r.cancelSet)
  {
    CrawlCancelSet(CrawlState([], false, cancelSet), job.id, LiveHeaders(knownHeaders), inputs.events);
    assert inputs.memUsed / inputs.memTotal == 0;
  }

  /** Detector fields other than Name and Version never reach the output. */
  lemma TechnologiesIgnoreOtherFields(a: seq<DetectedTech>, b: seq<DetectedTech>)
    requires |a| == |b|
    requires forall i :: 0 <= i < |a| ==> a[i].name == b[i].name && a[i].version == b[i].version
    ensures Technologies(a) == Technologies(b)
  {
  }

  // ---------------------------------------------------------------------------
  // The engine

  class Consumer {
    /** The Jobs table, keyed by id. */
    var jobs: map<int, Job>
    var users: seq<User>
    var plans: seq<Plan>
    var knownHeaders: seq<KnownHeader>
    /** The "job:cancel" cache set. */
    var cancelSet: set<int>
    /** The job queue. */
    var queue: seq<Job>
    /** Runs holding a semaphore slot. */
    var inFlight: nat
    /** The current run's capture list and cancellation flag. */
    var sites: seq<Site>
    var isJobCancelled: bool

    ghost predicate Valid()
      reads this
    {
      inFlight <= MaxConcurrency && Keyed(jobs) && UniqueUrls(sites)
    }

    function State(): CrawlState
      reads this
    {
      CrawlState(sites, isJobCancelled, cancelSet)
    }

    constructor(jobs: map<int, Job>, users: seq<User>, plans: seq<Plan>, knownHeaders: seq<KnownHeader>,
                cancelSet: set<int>, queue: seq<Job>)
      requires Keyed(jobs)
      ensures Valid() && inFlight == 0
      ensures this.jobs == jobs && this.users == users && this.plans == plans
      ensures this.knownHeaders == knownHeaders && this.cancelSet == cancelSet && this.queue == queue
    {
      this.jobs := jobs;
      this.users := users;
      this.plans := plans;
      this.knownHeaders := knownHeaders;
      this.cancelSet := cancelSet;
      this.queue := queue;
      inFlight := 0;
      sites := [];
      isJobCancelled := false;
    }

    /** _concurrencySemaphore.WaitAsync: a run starts only when a slot is free. */
    method Acquire()
      requires Valid() && inFlight < MaxConcurrency
      modifies this`inFlight
      ensures Valid() && inFlight == old(inFlight) + 1
    {
      inFlight := inFlight + 1;
    }

    /** _concurrencySemaphore.Release in the finally block. */
    method Release()
      requires Valid() && inFlight > 0
      modifies this`inFlight
      ensures Valid() && inFlight == old(inFlight) - 1
    {
      inFlight := inFlight - 1;
    }

    /** SetContains("job:cancel", id). */
    function ShouldJobBeCancelled(id: int): (r: bool)
      reads this
      ensures r <==> id in cancelSet
    {
      id in cancelSet
    }

    /** RemoveFromSet("job:cancel", id). */
    method CancelJob(id: int)
      modifies this`cancelSet
      ensures cancelSet == old(cancelSet) - {id}
    {
      cancelSet := cancelSet - {id};
    }

    /** JobService.CancelJob's AddToSet("job:cancel", id), arriving while the page is open. */
    method RequestCancel(id: int)
      modifies this`cancelSet
      ensures cancelSet == old(cancelSet) + {id}
    {
      cancelSet := cancelSet + {id};
    }

    /** The page.Request handler. */
    method OnRequest(jobId: int, known: seq<KnownHeader>, ev: Event)
      requires Valid() && ev.Request?
      modifies this`sites, this`isJobCancelled, this`cancelSet
      ensures Valid()
      ensures State() == Step(old(State()), jobId, known, ev)
    {
      StepKeepsUniqueUrls(State(), jobId, known, ev);
      if isJobCancelled { return; }
      if !ev.safe { return; }
      if ShouldJobBeCancelled(jobId) {
        CancelJob(jobId);
        isJobCancelled := true;
        return;
      }
      var found := FindSite(sites, ev.url);
      if found.None? {
        var site := NewSite(ev, known);
        sites := sites + [site];
      }
    }

    /** The page.Response handler; `faulted` when no site exists for the URL. */
    method OnResponse(jobId: int, known: seq<KnownHeader>, ev: Event) returns (faulted: bool)
      requires Valid() && ev.Response?
      modifies this`sites, this`isJobCancelled, this`cancelSet
      ensures Valid()
      ensures State() == Step(old(State()), jobId, known, ev)
      ensures faulted <==> !old(isJobCancelled) && ev.safe && jobId !in old(cancelSet) && FindSite(old(sites), ev.url).None?
    {
      StepKeepsUniqueUrls(State(), jobId, known, ev);
      faulted := false;
      if isJobCancelled { return; }
      if !ev.safe { return; }
      if ShouldJobBeCancelled(jobId) {
        CancelJob(jobId);
        isJobCancelled := true;
        return;
      }
      var found := FindSite(sites, ev.url);
      if found.None? {
        faulted := true;
        return;
      }
      var i := found.value;
      var added := Unexpected(ev.headers, known, "response");
      sites := sites[i := sites[i].(responseHeaders := sites[i].responseHeaders + added)];
    }

    /** The catch block's write. */
    method WriteFailed(rec: Job, inputs: RunInputs)
      requires Valid() && rec.id in jobs && jobs[rec.id].id == rec.id
      modifies this`jobs
      ensures Valid()
      ensures jobs == MarkFailed(old(jobs), rec, inputs)
    {
      jobs := jobs[rec.id := rec.(status := "Failed", startedAt := Some(inputs.startedAt), completedAt := Some(inputs.finishedAt))];
    }

    /**
     * RunJob for one dequeued message: holds a slot for the run. The finally
     * block releases it on every branch of the try; an exception from the
     * setup before the try escapes with the slot still taken.
     */
    method RunJob(job: Job, inputs: RunInputs) returns (outcome: Outcome)
      requires Valid() && inFlight < MaxConcurrency
      modifies this
      ensures Valid() && inFlight == old(inFlight) + (if inputs.failure == SetupFails then 1 else 0)
      ensures users == old(users) && plans == old(plans) && knownHeaders == old(knownHeaders)
      ensures RunResult(outcome, jobs, queue, cancelSet)
        == Run(old(jobs), old(users), old(plans), old(knownHeaders), old(cancelSet), old(queue), job, inputs)
    {
      Acquire();
      if inputs.failure == SetupFails {
        return Escaped;
      }
      outcome := Execute(job, inputs);
      Release();
    }

    /** The try block of RunJob, reached once the setup went through. */
    method Execute(job: Job, inputs: RunInputs) returns (outcome: Outcome)
      requires Valid() && inputs.failure != SetupFails
      modifies this`sites, this`isJobCancelled, this`cancelSet, this`jobs, this`queue
      ensures Valid()
      ensures RunResult(outcome, jobs, queue, cancelSet)
        == Tried(old(jobs), users, plans, knownHeaders, old(cancelSet), old(queue), job, inputs)
    {
      isJobCancelled := false;
      sites := [];
      var known := LiveHeaders(knownHeaders);
      var updateJob := LiveRecord(jobs, job.id);
      if updateJob.None? {
        return Escaped;
      }
      var rec := updateJob.value;
      if inputs.memTotal == 0 {
        WriteFailed(rec, inputs);
        return Failed;
      }
      if inputs.memUsed / inputs.memTotal != 0 {
        queue := queue + [QueueCopy(rec)];
        return Requeued;
      }
      outcome := Launch(job.id, known, rec, inputs);
    }

    /** The admitted branch: detection and the browser launch, then Capture. */
    method Launch(jobId: int, known: seq<KnownHeader>, rec: Job, inputs: RunInputs) returns (outcome: Outcome)
      requires Valid() && sites == [] && !isJobCancelled
      requires rec.id == jobId && jobId in jobs && jobs[jobId] == rec && !rec.isDeleted
      modifies this`sites, this`isJobCancelled, this`cancelSet, this`jobs
      ensures Valid()
      ensures RunResult(outcome, jobs, queue, cancelSet)
        == Launched(old(jobs), users, plans, known, old(cancelSet), queue, jobId, rec, inputs)
    {
      if inputs.detection.None? || inputs.failure == LaunchFails {
        WriteFailed(rec, inputs);
        return Failed;
      }
      outcome := Capture(jobId, known, rec, inputs);
    }

    /** The page visit: every intercepted event goes to its handler, in order. */
    method Browse(jobId: int, known: seq<KnownHeader>, events: seq<Event>)
      requires Valid()
      modifies this`sites, this`isJobCancelled, this`cancelSet
      ensures Valid()
      ensures State() == Crawl(old(State()), jobId, known, events)
    {
      ghost var start := State();
      var i := 0;
      while i < |events|
        invariant 0 <= i <= |events|
        invariant Valid()
        invariant State() == Crawl(start, jobId, known, events[..i])
      {
        var ev := events[i];
        assert events[..i + 1][..i] == events[..i];
        if ev.Request? {
          OnRequest(jobId, known, ev);
        } else if ev.Response? {
          var faulted := OnResponse(jobId, known, ev);
        } else {
          RequestCancel(ev.id);
        }
        i := i + 1;
      }
      assert events[..i] == events;
    }

    /** The admitted branch: capture the traffic, then screenshot, close and commit. */
    method Capture(jobId: int, known: seq<KnownHeader>, rec: Job, inputs: RunInputs) returns (outcome: Outcome)
      requires Valid() && sites == [] && !isJobCancelled
      requires rec.id == jobId && jobId in jobs && jobs[jobId] == rec && !rec.isDeleted
      requires inputs.detection.Some? && inputs.failure != LaunchFails
      modifies this`sites, this`isJobCancelled, this`cancelSet, this`jobs
      ensures Valid()
      ensures RunResult(outcome, jobs, queue, cancelSet)
        == Browsed(old(jobs), users, plans, known, old(cancelSet), queue, jobId, rec, inputs)
    {
      Browse(jobId, known, inputs.events);
      var allowed := ScreenshotAllowed(users, plans, rec.userId);
      if inputs.failure == NavigationFails || allowed.None? || (allowed.value && inputs.failure == ScreenshotFails) {
        WriteFailed(rec, inputs);
        return Failed;
      }
      var shot := rec;
      if allowed.value {
        shot := shot.(screenshot := Some(inputs.screenshot));
      }
      if inputs.failure == CloseFails {
        WriteFailed(shot, inputs);
        return Failed;
      }
      var done := shot.(output := Some(Report(sites, Technologies(inputs.detection.value), inputs.ipAddresses)),
                        status := "Complete", startedAt := Some(inputs.startedAt), completedAt := Some(inputs.finishedAt));
      if inputs.failure == CommitFails {
        WriteFailed(done, inputs);
        return Failed;
      }
      jobs := jobs[jobId := done];
      outcome := Completed;
    }
  }
}
