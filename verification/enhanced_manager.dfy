/**
 * The enhanced browser manager (`EnhancedManager`): the same capabilities
 * as the legacy manager, but built from individual browserhttp client
 * calls, each checked on its own, plus analysis capabilities (performance,
 * SEO, security, links, local storage, JSON POST).
 *
 * The browserhttp client is an oracle (`Client`): one answer per call and
 * argument. Every operation also returns the calls it made, in order.
 */
module EnhancedBrowser {
  import opened Common
  import opened BrowserData

  /** The submit controls the enhanced form filler tries, in order. */
  const SubmitSelectors: seq<string> := ["input[type='submit']", "button[type='submit']", "form button", ".submit-button"]

  /** The wait, in seconds, a navigation gives its `wait_for` element. */
  const NavigationWait: nat := 10

  /** The browserhttp performance metrics; durations are in nanoseconds. */
  datatype PerfMetrics = PerfMetrics(
    domContentLoaded: int, loadComplete: int, firstPaint: int, networkRequests: int, resourceSizes: Json)

  /** The browserhttp SEO report; its collections are carried as JSON values. */
  datatype SeoData = SeoData(title: string, description: string, keywords: Json, headings: Json, images: Json)

  datatype CspReport = CspReport(directives: Json, violations: Json)

  datatype SslReport = SslReport(valid: bool, issuer: string, subject: string, expiration: Json, errors: Json)

  /**
   * The browserhttp client's answers. `get` answers a GET with the page's
   * Title header; the parameterless fields answer the call of that name.
   */
  datatype Client = Client(
    init: Outcome,
    get: string -> Result<string>,
    waitFor: (string, int) -> Outcome,
    click: string -> Outcome,
    extractText: string -> Result<seq<string>>,
    typeText: (string, string) -> Outcome,
    getCookies: Result<seq<HttpCookie>>,
    evaluateHref: Result<string>,
    setCookies: seq<HttpCookie> -> Outcome,
    metrics: Result<PerfMetrics>,
    seo: Result<SeoData>,
    csp: Result<CspReport>,
    ssl: Result<SslReport>,
    vulnerabilities: Result<Json>,
    links: Result<seq<string>>,
    getLocal: string -> Result<string>,
    setLocal: (string, string) -> Outcome,
    postJson: (string, Json) -> Outcome,
    clearCookies: Outcome)

  /** One call made on the browserhttp client. */
  datatype ClientCall =
    | CallGet(url: string)
    | CallWait(selector: string, seconds: int)
    | CallClick(selector: string)
    | CallExtractText(selector: string)
    | CallType(selector: string, text: string)
    | CallGetCookies
    | CallEvaluateHref
    | CallSetCookies(cookies: seq<HttpCookie>)
    | CallMetrics
    | CallSeo
    | CallCsp
    | CallSsl
    | CallVulnerabilities
    | CallLinks
    | CallGetLocal(key: string)
    | CallSetLocal(key: string, value: string)
    | CallPostJson(url: string, data: Json)
    | CallClearCookies

  /** Whether a click on a selector takes. */
  function Clickable(c: Client): string -> bool {
    selector => c.click(selector).Pass?
  }

  /** The clicks on the first `n` submit selectors. */
  function SubmitClicks(n: nat): (calls: seq<ClientCall>)
    requires n <= |SubmitSelectors|
    ensures |calls| == n && forall i :: 0 <= i < n ==> calls[i] == CallClick(SubmitSelectors[i])
  {
    seq(n, i requires 0 <= i < n => CallClick(SubmitSelectors[i]))
  }

  /** The Type calls for the given selectors of a form, in order. */
  function TypeCalls(selectors: seq<string>, fields: map<string, string>): (calls: seq<ClientCall>)
    requires forall i :: 0 <= i < |selectors| ==> selectors[i] in fields
    ensures |calls| == |selectors|
    ensures forall i :: 0 <= i < |selectors| ==> calls[i] == CallType(selectors[i], fields[selectors[i]])
  {
    seq(|selectors|, i requires 0 <= i < |selectors| => CallType(selectors[i], fields[selectors[i]]))
  }

  /** The JSON `GetPerformanceMetrics` reports: durations in whole milliseconds. */
  function PerfJson(m: PerfMetrics): map<string, Json> {
    map["dom_content_loaded" := JInt(Milliseconds(m.domContentLoaded)),
        "load_complete" := JInt(Milliseconds(m.loadComplete)),
        "first_paint" := JInt(Milliseconds(m.firstPaint)),
        "network_requests" := JInt(m.networkRequests),
        "resource_sizes" := m.resourceSizes]
  }

  /**
   * `GetPerformanceMetrics`: the client's metrics with every duration
   * truncated to whole milliseconds, or the client's error wrapped.
   */
  function PerformanceMetrics(c: Client): (r: Result<map<string, Json>>)
    ensures r.Err? <==> c.metrics.Err?
    ensures r.Err? ==> r.error == "failed to get performance metrics: " + c.metrics.error
    ensures r.Ok? ==> r.value.Keys == {"dom_content_loaded", "load_complete", "first_paint", "network_requests", "resource_sizes"}
    ensures r.Ok? ==>
      && r.value["load_complete"].JInt?
      && var ms := r.value["load_complete"].i;
         var ns := c.metrics.value.loadComplete;
         ns >= 0 ==> 0 <= ms * 1000000 <= ns < (ms + 1) * 1000000
    ensures r.Ok? ==>
      var m := c.metrics.value;
      && r.value["dom_content_loaded"] == JInt(Milliseconds(m.domContentLoaded))
      && r.value["load_complete"] == JInt(Milliseconds(m.loadComplete))
      && r.value["first_paint"] == JInt(Milliseconds(m.firstPaint))
      && r.value["network_requests"] == JInt(m.networkRequests)
      && r.value["resource_sizes"] == m.resourceSizes
  {
    match c.metrics
    case Err(e) => Err("failed to get performance metrics: " + e)
    case Ok(m) => Ok(PerfJson(m))
  }

  /** `AnalyzeSEO`: the client's SEO report under five keys, or its error wrapped. */
  function AnalyzeSeo(c: Client): (r: Result<map<string, Json>>)
    ensures r.Err? <==> c.seo.Err?
    ensures r.Err? ==> r.error == "failed to analyze SEO: " + c.seo.error
    ensures r.Ok? ==>
      && r.value.Keys == {"title", "description", "keywords", "headings", "images"}
      && r.value["title"] == JStr(c.seo.value.title)
      && r.value["description"] == JStr(c.seo.value.description)
      && r.value["keywords"] == c.seo.value.keywords
      && r.value["headings"] == c.seo.value.headings
      && r.value["images"] == c.seo.value.images
  {
    match c.seo
    case Err(e) => Err("failed to analyze SEO: " + e)
    case Ok(d) =>
      Ok(map["title" := JStr(d.title), "description" := JStr(d.description), "keywords" := d.keywords,
             "headings" := d.headings, "images" := d.images])
  }

  /** The three security checks, in the order they run. */
  const SecurityChecks: seq<ClientCall> := [CallCsp, CallSsl, CallVulnerabilities]

  function SecurityJson(csp: CspReport, ssl: SslReport, vulns: Json): map<string, Json> {
    map["csp" := JObj(map["directives" := csp.directives, "violations" := csp.violations]),
        "ssl" := JObj(map["valid" := JBool(ssl.valid), "issuer" := JStr(ssl.issuer), "subject" := JStr(ssl.subject),
                          "expiration" := ssl.expiration, "errors" := ssl.errors]),
        "vulnerabilities" := vulns]
  }

  /**
   * `CheckSecurity`: CSP, then SSL, then vulnerability detection. The first
   * failing check ends the analysis with its error; the checks after it are
   * not made. The second component is the checks made.
   */
  function CheckSecurity(c: Client): (r: (Result<map<string, Json>>, seq<ClientCall>))
    ensures 1 <= |r.1| <= 3 && r.1 == SecurityChecks[..|r.1|]
    ensures r.0.Ok? <==> c.csp.Ok? && c.ssl.Ok? && c.vulnerabilities.Ok?
    ensures r.0.Ok? ==> r.1 == SecurityChecks && r.0.value.Keys == {"csp", "ssl", "vulnerabilities"}
    ensures r.0.Ok? ==>
      var csp, ssl := c.csp.value, c.ssl.value;
      && r.0.value["csp"] == JObj(map["directives" := csp.directives, "violations" := csp.violations])
      && r.0.value["ssl"] == JObj(map["valid" := JBool(ssl.valid), "issuer" := JStr(ssl.issuer),
                                      "subject" := JStr(ssl.subject), "expiration" := ssl.expiration,
                                      "errors" := ssl.errors])
      && r.0.value["vulnerabilities"] == c.vulnerabilities.value
    ensures c.csp.Err? ==> r == (Err("failed to check CSP: " + c.csp.error), [CallCsp])
    ensures c.csp.Ok? && c.ssl.Err? ==> r == (Err("failed to check SSL: " + c.ssl.error), [CallCsp, CallSsl])
    ensures c.csp.Ok? && c.ssl.Ok? && c.vulnerabilities.Err? ==>
      r == (Err("failed to detect vulnerabilities: " + c.vulnerabilities.error), SecurityChecks)
  {
    if c.csp.Err? then (Err("failed to check CSP: " + c.csp.error), [CallCsp])
    else if c.ssl.Err? then (Err("failed to check SSL: " + c.ssl.error), [CallCsp, CallSsl])
    else if c.vulnerabilities.Err? then (Err("failed to detect vulnerabilities: " + c.vulnerabilities.error), SecurityChecks)
    else (Ok(SecurityJson(c.csp.value, c.ssl.value, c.vulnerabilities.value)), SecurityChecks)
  }

  /** `ExtractImages`: a fixed one-image placeholder, whatever the page holds. */
  function ExtractImages(): (images: seq<map<string, Json>>)
    ensures |images| == 1 && "src" in images[0] && images[0]["src"] == JStr("placeholder_image.jpg")
  {
    [map["src" := JStr("placeholder_image.jpg"), "alt" := JStr("placeholder"), "width" := JInt(0), "height" := JInt(0)]]
  }

  /** `ExtractForms`: a fixed one-form placeholder, whatever the page holds. */
  function ExtractForms(): (forms: seq<map<string, Json>>)
    ensures |forms| == 1 && "method" in forms[0] && forms[0]["method"] == JStr("POST")
  {
    [map["action" := JStr("placeholder_action"), "method" := JStr("POST"),
         "fields" := JObj(map["placeholder" := JStr("field")])]]
  }

  /** `ExtractLinks`: the client's answer as is. */
  function ExtractLinks(c: Client): (r: (Result<seq<string>>, seq<ClientCall>))
    ensures r == (c.links, [CallLinks])
  {
    (c.links, [CallLinks])
  }

  /** `GetLocalStorage`: the client's answer for the key, as is. */
  function GetLocalStorage(key: string, c: Client): (r: (Result<string>, seq<ClientCall>)) {
    (c.getLocal(key), [CallGetLocal(key)])
  }

  /** `SetLocalStorage`: the client's answer for the pair, as is. */
  function SetLocalStorage(key: string, value: string, c: Client): (r: (Outcome, seq<ClientCall>)) {
    (c.setLocal(key, value), [CallSetLocal(key, value)])
  }

  /** `ClearSession`: clears the client's cookies; the answer is returned as is. */
  function ClearSession(c: Client): (r: (Outcome, seq<ClientCall>)) {
    (c.clearCookies, [CallClearCookies])
  }

  /** The capture-side conversion loop: one network cookie per HTTP cookie, in order. */
  method ConvertToNetwork(hs: seq<HttpCookie>) returns (cs: seq<NetworkCookie>)
    ensures cs == ToNetworkCookies(hs)
  {
    cs := [];
    var i := 0;
    while i < |hs|
      invariant 0 <= i <= |hs|
      invariant cs == ToNetworkCookies(hs[..i])
    {
      ToNetworkCookiesAppend(hs[..i], hs[i]);
      assert hs[..i + 1] == hs[..i] + [hs[i]];
      cs := cs + [ToNetworkCookie(hs[i])];
      i := i + 1;
    }
    assert hs[..i] == hs;
  }

  /** The restore-side conversion loop: one HTTP cookie per network cookie, in order. */
  method ConvertToHttp(cs: seq<NetworkCookie>) returns (hs: seq<HttpCookie>)
    ensures hs == ToHttpCookies(cs)
  {
    hs := [];
    var i := 0;
    while i < |cs|
      invariant 0 <= i <= |cs|
      invariant hs == ToHttpCookies(cs[..i])
    {
      ToHttpCookiesAppend(cs[..i], cs[i]);
      assert cs[..i + 1] == cs[..i] + [cs[i]];
      hs := hs + [ToHttpCookie(cs[i])];
      i := i + 1;
    }
    assert cs[..i] == cs;
  }

  lemma ToNetworkCookiesAppend(hs: seq<HttpCookie>, h: HttpCookie)
    ensures ToNetworkCookies(hs + [h]) == ToNetworkCookies(hs) + [ToNetworkCookie(h)]
  {
  }

  lemma ToHttpCookiesAppend(cs: seq<NetworkCookie>, c: NetworkCookie)
    ensures ToHttpCookies(cs + [c]) == ToHttpCookies(cs) + [ToHttpCookie(c)]
  {
  }

  /** Every Type call among `calls` types a given field's own text. */
  predicate TypesFieldsOnly(calls: seq<ClientCall>, fields: map<string, string>) {
    forall i :: 0 <= i < |calls| && calls[i].CallType? ==>
      calls[i].selector in fields && calls[i].text == fields[calls[i].selector]
  }

  /** Typing calls followed by clicks type only the fields' own texts. */
  lemma TypedFromFields(typed: seq<string>, fields: map<string, string>, clicks: seq<ClientCall>)
    requires forall i :: 0 <= i < |typed| ==> typed[i] in fields
    requires forall i :: 0 <= i < |clicks| ==> clicks[i].CallClick?
    ensures TypesFieldsOnly(TypeCalls(typed, fields) + clicks, fields)
  {
    var typing := TypeCalls(typed, fields);
    var calls := typing + clicks;
    forall i | 0 <= i < |calls| && calls[i].CallType?
      ensures calls[i].selector in fields && calls[i].text == fields[calls[i].selector]
    {
      if i < |typing| {
        assert calls[i] == typing[i];
      }
    }
  }

  /**
   * When every field was typed, the calls are one Type per field, each
   * field's own text, followed by the clicks.
   */
  lemma TypedThenClicked(typed: seq<string>, fields: map<string, string>, clicks: seq<ClientCall>)
    requires |typed| == |fields|
    requires forall i :: 0 <= i < |typed| ==> typed[i] in fields
    requires forall k :: k in fields ==> k in typed
    requires forall i :: 0 <= i < |clicks| ==> clicks[i].CallClick?
    ensures var calls := TypeCalls(typed, fields) + clicks;
      && |calls| >= |fields| && (forall i :: 0 <= i < |fields| ==> calls[i].CallType?)
      && (forall k :: k in fields ==> CallType(k, fields[k]) in calls[..|fields|])
      && calls[|fields|..] == clicks
      && TypesFieldsOnly(calls, fields)
  {
    var typing := TypeCalls(typed, fields);
    SplitAt(typing, clicks);
    forall k | k in fields ensures CallType(k, fields[k]) in typing {
      var i :| 0 <= i < |typed| && typed[i] == k;
      assert typing[i] == CallType(k, fields[k]);
    }
    TypedFromFields(typed, fields, clicks);
  }

  class EnhancedManager {
    /** Whether the browserhttp client has been created. */
    var hasClient: bool
    /** The one session record this manager hands out. */
    const sessionData: SessionData

    /** `NewEnhanced`: no client yet, an empty session record. */
    constructor ()
      ensures !hasClient
      ensures fresh(sessionData) && sessionData.Snapshot() == EmptyRecord
    {
      hasClient := false;
      sessionData := new SessionData();
    }

    /**
     * `Init`: creates the client, then the screenshots directory, then
     * initialises the client; the first failure is returned.
     */
    method Init(mkdirScreenshots: Outcome, c: Client) returns (err: Option<string>)
      modifies this
      ensures hasClient
      ensures mkdirScreenshots.Fail? ==>
        err == Some("failed to create screenshots directory: " + mkdirScreenshots.error)
      ensures mkdirScreenshots.Pass? && c.init.Fail? ==>
        err == Some("failed to initialize enhanced browser client: " + c.init.error)
      ensures err.None? <==> mkdirScreenshots.Pass? && c.init.Pass?
    {
      hasClient := true;
      if mkdirScreenshots.Fail? {
        return Some("failed to create screenshots directory: " + mkdirScreenshots.error);
      }
      if c.init.Fail? {
        return Some("failed to initialize enhanced browser client: " + c.init.error);
      }
      return None;
    }

    /** `Close`: closes the client if one exists (this manager never holds a cancel function). */
    method Close() returns (steps: seq<Teardown>)
      ensures steps == if hasClient then [CloseClient] else []
    {
      steps := [];
      if hasClient {
        steps := [CloseClient];
      }
    }

    /**
     * `Navigate`: a GET of the url; a failed GET fails the navigation. After
     * a successful GET the wait for `waitFor` (only when given) only adds to
     * the message and never clears the success.
     */
    method Navigate(url: string, waitFor: string, screenshot: bool, c: Client)
      returns (result: NavigateResult, calls: seq<ClientCall>)
      ensures 1 <= |calls| && calls[0] == CallGet(url) && !calls[|calls| - 1].CallMetrics?
      ensures result.url == url
      ensures result.success <==> c.get(url).Ok?
      ensures c.get(url).Err? ==>
        result == NavigateResult(url, "", "", false, "Enhanced navigation failed: " + c.get(url).error)
          && calls == [CallGet(url)]
      ensures c.get(url).Ok? ==>
        && result.title == c.get(url).value
        && calls == [CallGet(url)] + (if waitFor != "" then [CallWait(waitFor, NavigationWait)] else [])
        && result.screenshot == (if screenshot then "screenshot_captured_by_browserhttp" else "")
        && result.message == "Enhanced navigation successful" +
             (if waitFor == "" then ""
              else if c.waitFor(waitFor, NavigationWait).Fail?
              then " (wait failed: " + c.waitFor(waitFor, NavigationWait).error + ")"
              else " (element found)")
    {
      result := NavigateResult(url, "", "", false, "");
      calls := [CallGet(url)];
      var response := c.get(url);
      if response.Err? {
        result := result.(success := false, message := "Enhanced navigation failed: " + response.error);
        return;
      }
      result := result.(success := true, message := "Enhanced navigation successful", title := response.value);
      if waitFor != "" {
        calls := calls + [CallWait(waitFor, NavigationWait)];
        var waited := c.waitFor(waitFor, NavigationWait);
        if waited.Fail? {
          result := result.(message := result.message + " (wait failed: " + waited.error + ")");
        } else {
          result := result.(message := result.message + " (element found)");
        }
      }
      if screenshot {
        result := result.(screenshot := "screenshot_captured_by_browserhttp");
      }
    }

    /** `Click`: one click call; the screenshot marker is set only after a successful click. */
    method Click(selector: string, screenshot: bool, c: Client) returns (result: ClickResult, calls: seq<ClientCall>)
      ensures calls == [CallClick(selector)]
      ensures c.click(selector).Fail? ==>
        result == ClickResult(false, "Enhanced click failed: " + c.click(selector).error, "")
      ensures c.click(selector).Pass? ==>
        result == ClickResult(true, "Enhanced click successful", if screenshot then "screenshot_after_click" else "")
    {
      calls := [CallClick(selector)];
      var clicked := c.click(selector);
      if clicked.Fail? {
        return ClickResult(false, "Enhanced click failed: " + clicked.error, ""), calls;
      }
      result := ClickResult(true, "Enhanced click successful", "");
      if screenshot {
        result := result.(screenshot := "screenshot_after_click");
      }
    }

    /** `ExtractText`: the client's texts, with a message that counts them. */
    method ExtractText(selector: string, c: Client) returns (result: ExtractTextResult, calls: seq<ClientCall>)
      ensures calls == [CallExtractText(selector)]
      ensures result.success <==> c.extractText(selector).Ok?
      ensures c.extractText(selector).Err? ==>
        result == ExtractTextResult([], false, "Enhanced text extraction failed: " + c.extractText(selector).error)
      ensures c.extractText(selector).Ok? ==>
        && result.text == c.extractText(selector).value
        && result.message == "Extracted " + NatToString(|result.text|) + " text elements"
    {
      calls := [CallExtractText(selector)];
      var answer := c.extractText(selector);
      if answer.Err? {
        return ExtractTextResult([], false, "Enhanced text extraction failed: " + answer.error), calls;
      }
      result := ExtractTextResult(answer.value, true, "Extracted " + NatToString(|answer.value|) + " text elements");
    }

    /**
     * The typing loop of `FillForm`: types the fields one at a time in the
     * map's (unspecified) order and stops at the first field that fails.
     * `typed` lists the selectors typed, the failing one last.
     */
    static method TypeFields(fields: map<string, string>, c: Client)
      returns (typed: seq<string>, failure: Option<string>)
      ensures |typed| <= |fields|
      ensures forall i :: 0 <= i < |typed| ==> typed[i] in fields
      ensures forall i, j :: 0 <= i < j < |typed| ==> typed[i] != typed[j]
      ensures failure.None? ==> |typed| == |fields| && forall k :: k in fields ==> k in typed
      ensures forall i :: 0 <= i < |typed| && (failure.None? || i < |typed| - 1) ==>
        c.typeText(typed[i], fields[typed[i]]).Pass?
      ensures failure.Some? ==>
        && |typed| > 0
        && var last := typed[|typed| - 1];
           && c.typeText(last, fields[last]).Fail?
           && failure.value == "Enhanced form filling failed at " + last + ": " + c.typeText(last, fields[last]).error
      ensures failure.None? <==> forall k :: k in fields ==> c.typeText(k, fields[k]).Pass?
    {
      var order := KeyOrder(fields);
      var i := 0;
      while i < |order|
        invariant 0 <= i <= |order|
        invariant forall j :: 0 <= j < i ==> c.typeText(order[j], fields[order[j]]).Pass?
      {
        var typing := c.typeText(order[i], fields[order[i]]);
        if typing.Fail? {
          return order[..i + 1], Some("Enhanced form filling failed at " + order[i] + ": " + typing.error);
        }
        i := i + 1;
      }
      return order, None;
    }

    /**
     * The submit search of `FillForm`: clicks the known submit controls in
     * order until one click takes. `tried` is the number of clicks made.
     */
    static method TrySubmit(c: Client) returns (submitted: bool, tried: nat)
      ensures var first := FirstIndex(SubmitSelectors, Clickable(c));
        && (submitted <==> first.Some?)
        && tried == (if first.Some? then first.value + 1 else |SubmitSelectors|)
    {
      var i := 0;
      while i < |SubmitSelectors|
        invariant 0 <= i <= |SubmitSelectors|
        invariant forall j :: 0 <= j < i ==> !Clickable(c)(SubmitSelectors[j])
      {
        if c.click(SubmitSelectors[i]).Pass? {
          return true, i + 1;
        }
        i := i + 1;
      }
      return false, i;
    }

    /** The part of `FillForm` after every field is typed: the optional submit search and the message. */
    static method FinishForm(submit: bool, c: Client) returns (message: string, clicks: seq<ClientCall>)
      ensures forall i :: 0 <= i < |clicks| ==> clicks[i].CallClick?
      ensures var first := FirstIndex(SubmitSelectors, Clickable(c));
        && clicks == (if !submit then [] else SubmitClicks(if first.Some? then first.value + 1 else |SubmitSelectors|))
        && message == "Enhanced form filled successfully" +
             (if !submit then "" else if first.Some? then " and submitted" else " (submit button not found)")
    {
      message := "Enhanced form filled successfully";
      clicks := [];
      if submit {
        var submitted, tried := TrySubmit(c);
        clicks := SubmitClicks(tried);
        if submitted {
          message := message + " and submitted";
        } else {
          message := message + " (submit button not found)";
        }
      } else {
        assert message + "" == message;
      }
    }

    /**
     * `FillForm`: every field is typed before any submit click, and the
     * first failure to type ends the call with no click. Once all fields are
     * typed the form counts as filled whatever the submit search finds.
     */
    method FillForm(fields: map<string, string>, submit: bool, c: Client)
      returns (result: FillFormResult, calls: seq<ClientCall>)
      ensures result.success <==> forall k :: k in fields ==> c.typeText(k, fields[k]).Pass?
      ensures result.screenshot == ""
      ensures TypesFieldsOnly(calls, fields)
      ensures !result.success ==>
        && 0 < |calls| <= |fields|
        && (forall i :: 0 <= i < |calls| ==> calls[i].CallType?)
        && (forall i, j :: 0 <= i < j < |calls| ==> calls[i].selector != calls[j].selector)
        && (forall i :: 0 <= i < |calls| - 1 ==> c.typeText(calls[i].selector, calls[i].text).Pass?)
        && var last := calls[|calls| - 1];
           c.typeText(last.selector, last.text).Fail?
           && result.message == "Enhanced form filling failed at " + last.selector + ": "
                + c.typeText(last.selector, last.text).error
      ensures result.success ==> |calls| >= |fields| && forall i :: 0 <= i < |fields| ==> calls[i].CallType?
      ensures result.success ==> forall k :: k in fields ==> CallType(k, fields[k]) in calls[..|fields|]
      ensures result.success ==>
        var first := FirstIndex(SubmitSelectors, Clickable(c));
        calls[|fields|..] == (if !submit then [] else SubmitClicks(if first.Some? then first.value + 1 else |SubmitSelectors|))
      ensures result.success ==>
        var first := FirstIndex(SubmitSelectors, Clickable(c));
        result.message == "Enhanced form filled successfully" +
          (if !submit then "" else if first.Some? then " and submitted" else " (submit button not found)")
    {
      var typed, failure := TypeFields(fields, c);
      var typing := TypeCalls(typed, fields);
      if failure.Some? {
        assert typing[|typing| - 1] == CallType(typed[|typed| - 1], fields[typed[|typed| - 1]]);
        assert typing + [] == typing;
        TypedFromFields(typed, fields, []);
        return FillFormResult(false, failure.value, ""), typing;
      }
      var message, clicks := FinishForm(submit, c);
      result := FillFormResult(true, message, "");
      calls := typing + clicks;
      TypedThenClicked(typed, fields, clicks);
    }

    /**
     * `GetSessionData`: the cookies are replaced, converted, only when the
     * cookie call succeeds; the URL only when the location read succeeds;
     * the timestamp always. The same record is returned on every call.
     */
    method GetSessionData(c: Client, now: int) returns (record: SessionData, calls: seq<ClientCall>)
      modifies sessionData
      ensures record == sessionData
      ensures calls == [CallGetCookies, CallEvaluateHref]
      ensures sessionData.cookies ==
        (if c.getCookies.Ok? then ToNetworkCookies(c.getCookies.value) else old(sessionData.cookies))
      ensures sessionData.url == (if c.evaluateHref.Ok? then c.evaluateHref.value else old(sessionData.url))
      ensures sessionData.timestamp == now
      ensures sessionData.userAgent == old(sessionData.userAgent)
    {
      if c.getCookies.Ok? {
        var converted := ConvertToNetwork(c.getCookies.value);
        sessionData.cookies := converted;
      }
      sessionData.timestamp := now;
      if c.evaluateHref.Ok? {
        sessionData.url := c.evaluateHref.value;
      }
      calls := [CallGetCookies, CallEvaluateHref];
      record := sessionData;
    }

    /**
     * `RestoreSession`: sets the converted cookies first and then, only if
     * a URL was saved, navigates to it. Either failure ends the restore.
     */
    method RestoreSession(record: SessionRecord, c: Client) returns (result: map<string, Json>, calls: seq<ClientCall>)
      ensures var sent := ToHttpCookies(record.cookies);
        && calls == [CallSetCookies(sent)] +
             (if c.setCookies(sent).Pass? && record.url != "" then [CallGet(record.url)] else [])
      ensures var sent := ToHttpCookies(record.cookies);
        c.setCookies(sent).Fail? ==>
          result == map["success" := JBool(false),
                        "message" := JStr("Enhanced session restore failed: " + c.setCookies(sent).error)]
      ensures var sent := ToHttpCookies(record.cookies);
        c.setCookies(sent).Pass? && record.url != "" && c.get(record.url).Err? ==>
          result == map["success" := JBool(false),
                        "message" := JStr("Could not navigate to saved URL: " + c.get(record.url).error)]
      ensures "success" in result
      ensures result["success"] == JBool(true) <==>
        c.setCookies(ToHttpCookies(record.cookies)).Pass? && (record.url != "" ==> c.get(record.url).Ok?)
      ensures result["success"] == JBool(true) ==>
        result == map["success" := JBool(true), "message" := JStr("Enhanced session restored successfully"),
                      "url" := JStr(record.url), "cookies_restored" := JInt(|record.cookies|)]
    {
      result := map["success" := JBool(false)];
      var sent := ConvertToHttp(record.cookies);
      calls := [CallSetCookies(sent)];
      var stored := c.setCookies(sent);
      if stored.Fail? {
        result := result["message" := JStr("Enhanced session restore failed: " + stored.error)];
        return;
      }
      if record.url != "" {
        calls := calls + [CallGet(record.url)];
        var visited := c.get(record.url);
        if visited.Err? {
          result := result["message" := JStr("Could not navigate to saved URL: " + visited.error)];
          return;
        }
      }
      result := result["success" := JBool(true)];
      result := result["message" := JStr("Enhanced session restored successfully")];
      result := result["url" := JStr(record.url)];
      result := result["cookies_restored" := JInt(|sent|)];
    }

    /** `WaitForElement`: the client's wait, its error returned as is. */
    method WaitForElement(selector: string, seconds: int, c: Client) returns (err: Outcome, calls: seq<ClientCall>)
      ensures calls == [CallWait(selector, seconds)]
      ensures err == c.waitFor(selector, seconds)
    {
      calls := [CallWait(selector, seconds)];
      err := c.waitFor(selector, seconds);
    }

    /** `PostJSON`: one POST; the result echoes the url, and a failure is in the result, not an error. */
    method PostJson(url: string, data: Json, c: Client) returns (result: NavigateResult, calls: seq<ClientCall>)
      ensures calls == [CallPostJson(url, data)]
      ensures result.url == url && result.title == "" && result.screenshot == ""
      ensures result.success <==> c.postJson(url, data).Pass?
      ensures result.message ==
        if c.postJson(url, data).Fail? then "JSON POST failed: " + c.postJson(url, data).error
        else "JSON POST successful"
    {
      calls := [CallPostJson(url, data)];
      result := NavigateResult(url, "", "", false, "");
      var posted := c.postJson(url, data);
      if posted.Fail? {
        result := result.(success := false, message := "JSON POST failed: " + posted.error);
        return;
      }
      result := result.(success := true, message := "JSON POST successful");
    }

    /** `SaveScreenshot`: only computes the path browserhttp would use. */
    method SaveScreenshot(filename: string) returns (path: string)
      ensures StartsWith(path, "screenshots/") && path[|"screenshots/"|..] == filename
    {
      path := "screenshots/" + filename;
    }
  }
}
