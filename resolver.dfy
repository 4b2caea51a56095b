/**
  The response-resolution state machine of the Skyline SDK, stated on values.

  `SdkState` is everything the resolver and the web controller's page hook
  read or write: the three persisted keys `initialURL`, `statusFlag` and
  `finalData`, and the tag map of the push service, of which the resolver
  writes the key "webmaster".
 */
module Resolver {
  import opened Wrappers

  /** The push-service tag the resolver sets from the response's `naming`. */
  const WebmasterTag: string := "webmaster"

  /** The decoded server reply: a URL, a partner label, and the first-link flag. */
  datatype ResponseData = ResponseData(link: string, naming: string, firstLink: bool)

  /** What the completion handler of `sendDataToServer` receives. */
  datatype Completion = Success(url: string) | Failure

  datatype SdkState = SdkState(
    initialURL: Option<string>,
    statusFlag: bool,
    finalData: Option<string>,
    tags: map<string, string>)

  /** A completion together with the state left behind. */
  datatype Outcome = Outcome(completion: Completion, state: SdkState)

  /**
    One response handled by the success closure of `sendDataToServer`.
    `None` stands for a transport failure, a body that is not base64, or
    base64 that does not decode to the expected JSON shape: in each case
    nothing persisted is written and the caller gets `Failure`.
    The tag and `statusFlag` are written first, so the reassignment branch
    tests the NEW response's `firstLink`.
   */
  function Resolve(s: SdkState, resp: Option<ResponseData>): (o: Outcome)
    // every failure leaves the state untouched
    ensures resp.None? ==> o == Outcome(Failure, s)
    // every decoded response, whichever branch fires
    ensures resp.Some? ==>
      && o.completion.Success?
      && (o.completion.url == resp.value.link || s.finalData == Some(o.completion.url))
      && o.state.initialURL == Some(resp.value.link)
      && o.state.statusFlag == resp.value.firstLink
      && o.state.tags == s.tags[WebmasterTag := resp.value.naming]
      && (o.state.finalData == s.finalData || o.state.finalData.None?)
    // first resolution ever
    ensures resp.Some? && s.initialURL.None? ==>
      o.completion == Success(resp.value.link) && o.state.finalData == s.finalData
    // the server repeats the stored link: replay the cached destination
    ensures resp.Some? && s.initialURL == Some(resp.value.link) ==>
      && o.completion == Success(s.finalData.GetOr(resp.value.link))
      && o.state.initialURL == s.initialURL
      && o.state.finalData == s.finalData
    // reassignment flagged as a first link: the cache is dropped
    ensures resp.Some? && s.initialURL.Some? && s.initialURL != Some(resp.value.link) && resp.value.firstLink ==>
      o.completion == Success(resp.value.link) && o.state.finalData.None?
    // reassignment not flagged: the cache is kept and replayed
    ensures resp.Some? && s.initialURL.Some? && s.initialURL != Some(resp.value.link) && !resp.value.firstLink ==>
      o.completion == Success(s.finalData.GetOr(resp.value.link)) && o.state.finalData == s.finalData
  {
    match resp
    case None => Outcome(Failure, s)
    case Some(d) =>
      var tagged := s.(tags := s.tags[WebmasterTag := d.naming], statusFlag := d.firstLink);
      if tagged.initialURL.None? then
        Outcome(Success(d.link), tagged.(initialURL := Some(d.link)))
      else if Some(d.link) == tagged.initialURL then
        Outcome(Success(tagged.finalData.GetOr(d.link)), tagged)
      else if tagged.statusFlag then
        Outcome(Success(d.link), tagged.(finalData := None, initialURL := Some(d.link)))
      else
        Outcome(Success(tagged.finalData.GetOr(d.link)), tagged.(initialURL := Some(d.link)))
  }

  /** The URL the page hook records: the web view's URL, or "" when it has none. */
  function PageUrl(currentUrl: Option<string>): string {
    currentUrl.GetOr("")
  }

  /**
    The web controller's `didFinish` hook: it records the web view's URL in
    `finalData`, but only while `finalData` is absent.
   */
  function PageFinished(s: SdkState, currentUrl: Option<string>): (t: SdkState)
    ensures t.finalData.Some?
    ensures s.finalData.Some? ==> t == s
    ensures s.finalData.None? ==> t.finalData == Some(PageUrl(currentUrl))
    ensures t.(finalData := s.finalData) == s
  {
    if s.finalData.None? then s.(finalData := Some(PageUrl(currentUrl))) else s
  }

  /** The two writers of the shared state, as events over the life of the app. */
  datatype Event = Response(resp: Option<ResponseData>) | PageLoaded(currentUrl: Option<string>)

  function Apply(s: SdkState, e: Event): SdkState {
    match e
    case Response(r) => Resolve(s, r).state
    case PageLoaded(u) => PageFinished(s, u)
  }

  /**
    The state after a sequence of events. Since the resolver only ever keeps
    or clears `finalData`, a present `finalData` at the end was either there
    at the start or recorded by one of the page hooks.
   */
  function Run(s: SdkState, evs: seq<Event>): (t: SdkState)
    decreases |evs|
    ensures || t.finalData.None?
            || t.finalData == s.finalData
            || exists i :: 0 <= i < |evs| && evs[i].PageLoaded? && t.finalData == Some(PageUrl(evs[i].currentUrl))
  {
    if evs == [] then s
    else
      var prefix := evs[..|evs| - 1];
      var before := Run(s, prefix);
      assert forall i :: 0 <= i < |prefix| ==> prefix[i] == evs[i];
      Apply(before, evs[|evs| - 1])
  }

  /**
    A cached destination survives every event sequence in which no decoded
    reply carries `first_link`: failures, page loads and unflagged replies
    all keep a present `finalData`.
   */
  lemma {:induction false} CacheSurvivesUnflagged(s: SdkState, evs: seq<Event>)
    requires s.finalData.Some?
    requires forall i :: 0 <= i < |evs| && evs[i].Response? && evs[i].resp.Some? ==> !evs[i].resp.value.firstLink
    ensures Run(s, evs).finalData == s.finalData
    decreases |evs|
  {
    if evs != [] {
      var prefix := evs[..|evs| - 1];
      assert forall i :: 0 <= i < |prefix| ==> prefix[i] == evs[i];
      CacheSurvivesUnflagged(s, prefix);
    }
  }

  /** The most recent successfully decoded response of a sequence, if any. */
  function LastResponse(evs: seq<Event>): Option<ResponseData>
    decreases |evs|
  {
    if evs == [] then None
    else match evs[|evs| - 1]
      case Response(Some(d)) => Some(d)
      case _ => LastResponse(evs[..|evs| - 1])
  }

  /**
    The baseline link, the flag and the webmaster tag always come from the
    most recent decoded response; failures and page loads never touch them.
   */
  lemma {:induction false} LastResponseDetermines(s: SdkState, evs: seq<Event>)
    ensures LastResponse(evs).Some? ==>
      var d := LastResponse(evs).value;
      var t := Run(s, evs);
      && t.initialURL == Some(d.link)
      && t.statusFlag == d.firstLink
      && WebmasterTag in t.tags && t.tags[WebmasterTag] == d.naming
    ensures LastResponse(evs).None? ==>
      var t := Run(s, evs);
      t.initialURL == s.initialURL && t.statusFlag == s.statusFlag && t.tags == s.tags
    decreases |evs|
  {
    if evs != [] {
      LastResponseDetermines(s, evs[..|evs| - 1]);
    }
  }

  /**
    Resolving the same response twice: the second call takes the same-link
    branch and leaves the state exactly as the first one left it. The two
    completions agree except after a first resolution that found a cached
    `finalData` different from the link.
   */
  lemma ResolveIdempotent(s: SdkState, d: ResponseData)
    ensures var first := Resolve(s, Some(d));
            var second := Resolve(first.state, Some(d));
            && second.state == first.state
            && (second.completion == first.completion
                <==> s.initialURL.Some? || s.finalData.None? || s.finalData == Some(d.link))
  {
  }

  /**
    The stored `statusFlag` is overwritten before it is read, so for a decoded
    response the previous flag has no influence at all.
   */
  lemma OldFlagIrrelevant(s: SdkState, d: ResponseData, b: bool)
    ensures Resolve(s.(statusFlag := b), Some(d)) == Resolve(s, Some(d))
  {
  }

  /** On a reassignment the cache is cleared exactly when the new response is flagged (or there was none). */
  lemma ReassignmentClearsCacheIff(s: SdkState, d: ResponseData)
    requires s.initialURL.Some? && s.initialURL != Some(d.link)
    ensures Resolve(s, Some(d)).state.finalData.None? <==> d.firstLink || s.finalData.None?
  {
  }

  /** A page load after a resolution makes the next resolution of the same response replay the page's URL. */
  lemma ReplayAfterPageLoad(s: SdkState, d: ResponseData, currentUrl: Option<string>)
    requires Resolve(s, Some(d)).state.finalData.None?
    ensures var loaded := PageFinished(Resolve(s, Some(d)).state, currentUrl);
            Resolve(loaded, Some(d)).completion == Success(PageUrl(currentUrl))
  {
  }

  /** The page hook writes at most once: a second page load changes nothing. */
  lemma PageFinishedOnce(s: SdkState, u: Option<string>, v: Option<string>)
    ensures PageFinished(PageFinished(s, u), v) == PageFinished(s, u)
  {
  }
}
