/**
 * The legacy browser manager (`Manager`): it attaches to an already running
 * Chrome through the DevTools debug endpoint and drives it with chromedp.
 *
 * The browser is an oracle. One `chromedp.Run` of an action list is a `Run`;
 * what the attached tab answers to it is given by a `Runner`. Every method
 * returns, next to the Go result, the runs it sent (`sent`), which is what
 * the browser observes of the call.
 */
module Browser {
  import opened Common
  import opened BrowserData
  import Base64

  /** Debug ports tried by the attach resolver, in priority order. */
  const CandidatePorts: seq<string> := ["9222", "9223", "9224"]

  /** The endpoint used when no candidate attaches. */
  const DefaultEndpoint: string := "http://localhost:9222"

  /** The command an operator must run to expose a debug endpoint. */
  const Remedy: string := "google-chrome --remote-debugging-port=9222"

  /** The submit controls the form filler knows, in order. */
  const SubmitSelectors: seq<string> :=
    ["input[type='submit']", "button[type='submit']", "form button", ".submit-button", "[role='button'][type='submit']"]

  function DebugUrl(port: string): string {
    "http://localhost:" + port
  }

  /** How chromedp resolves a selector: `ByQuery` (querySelector) or its default, `BySearch`. */
  datatype By = ByQuery | BySearch

  /** One chromedp action. */
  datatype Action =
    | NavigateTo(url: string)
    | WaitReady(selector: string)
    | ReadTitle
    | WaitVisible(selector: string, how: By)
    | CaptureScreenshot(selector: string)
    | ClickOn(selector: string, how: By)
    | SendKeys(selector: string, text: string)
    | SetCookie(name: string, value: string, domain: string, path: string, secure: bool, httpOnly: bool)
    | QueryTexts(selector: string)
    | ReadCookies
    | ReadLocation

  /**
   * One `chromedp.Run`: the actions run as one unit, with the deadline of
   * its context in seconds (None: the manager's own context, no deadline).
   */
  datatype Run = Run(actions: seq<Action>, deadline: Option<nat>)

  /** What a completed run wrote into its output variables. */
  datatype Captured = Captured(
    title: string, screenshot: seq<Base64.byte>, texts: seq<string>,
    cookies: seq<NetworkCookie>, location: string)

  datatype RunOutcome = Completed(captured: Captured) | Failed(error: string)

  /** The attached tab's answer to each run. */
  type Runner = Run -> RunOutcome

  /**
   * The debug endpoints' answers while attaching: the status of `GET <url>`
   * (None on any transport error, including the 2 second timeout), and
   * whether a fresh context on a debug URL evaluates `window.location.href`
   * within 5 seconds.
   */
  datatype Endpoints = Endpoints(status: string -> Option<int>, verify: string -> Outcome)

  /** The answers `Init` gets beyond the probes. */
  datatype Setup = Setup(endpoints: Endpoints, connectionTest: Outcome, mkdirScreenshots: Outcome)

  /** `isDebugPortAvailable`: live iff `GET <url>/json` completes with status 200. */
  function IsDebugPortAvailable(debugUrl: string, eps: Endpoints): (live: bool)
    ensures live <==> eps.status(debugUrl + "/json") == Some(200)
  {
    match eps.status(debugUrl + "/json")
    case None => false
    case Some(code) => code == 200
  }

  /** A port qualifies when it is live and a context on it verifies. */
  predicate Qualifies(port: string, eps: Endpoints) {
    IsDebugPortAvailable(DebugUrl(port), eps) && eps.verify(DebugUrl(port)).Pass?
  }

  /** `Qualifies` as a test on ports. */
  function Qualifying(eps: Endpoints): string -> bool {
    port => Qualifies(port, eps)
  }

  /**
   * The error `Init` reports for a setup: the failed connection test, or
   * else the screenshots directory that could not be created.
   */
  function InitError(setup: Setup): (r: Option<string>)
    ensures r.None? <==> setup.connectionTest.Pass? && setup.mkdirScreenshots.Pass?
    ensures setup.connectionTest.Fail? ==> r == Some(ConnectFailure(setup.connectionTest.error))
  {
    if setup.connectionTest.Fail? then Some(ConnectFailure(setup.connectionTest.error))
    else if setup.mkdirScreenshots.Fail? then Some("failed to create screenshots directory: " + setup.mkdirScreenshots.error)
    else None
  }

  /** The message `Init` returns when the connection test fails. */
  function ConnectFailure(cause: string): (msg: string)
    ensures StartsWith(msg, "failed to connect to Chrome: " + cause)
    ensures EndsWith(msg, Remedy)
  {
    var head := "failed to connect to Chrome: " + cause;
    var tail := "\n\n💡 Make sure Chrome is running with debugging enabled:\n   " + Remedy;
    assert (head + tail)[..|head|] == head;
    assert (head + tail)[|head + tail| - |Remedy|..] == Remedy;
    head + tail
  }

  /** The deadline, in seconds, of a navigation. */
  const NavigationDeadline: nat := 30

  function SetCookieAction(c: NetworkCookie): Action {
    SetCookie(c.name, c.value, c.domain, c.path, c.secure, c.httpOnly)
  }

  /**
   * The actions of one `Navigate` run: load, wait for the body, read the
   * title; then wait for the selector iff one is given, and capture the
   * body iff a screenshot is asked for.
   */
  function NavigateActions(url: string, waitFor: string, screenshot: bool): (acts: seq<Action>)
    ensures |acts| == 3 + (if waitFor != "" then 1 else 0) + (if screenshot then 1 else 0)
    ensures acts[..3] == [NavigateTo(url), WaitReady("body"), ReadTitle]
    ensures waitFor != "" ==> acts[3] == WaitVisible(waitFor, ByQuery)
    ensures screenshot <==> acts[|acts| - 1] == CaptureScreenshot("body")
  {
    [NavigateTo(url), WaitReady("body"), ReadTitle]
    + (if waitFor != "" then [WaitVisible(waitFor, ByQuery)] else [])
    + (if screenshot then [CaptureScreenshot("body")] else [])
  }

  class Manager {
    /** The debug endpoint the browsing context is attached to; None before `Init`. */
    var ctx: Option<string>
    /** Whether a cancel function for the context is held. */
    var hasCancel: bool
    /** Whether the browserhttp client has been created. */
    var hasClient: bool
    /** The one session record this manager hands out. */
    const sessionData: SessionData

    /** `New`: nothing attached, an empty session record. */
    constructor ()
      ensures ctx == None && !hasCancel && !hasClient
      ensures fresh(sessionData) && sessionData.Snapshot() == EmptyRecord
    {
      ctx, hasCancel, hasClient := None, false, false;
      sessionData := new SessionData();
    }

    /**
     * `connectToExistingChrome`: probes the candidate ports in order and
     * attaches to the first one that is live and verifies. `probed` lists the
     * ports whose `/json` was requested: no port after the chosen one is.
     */
    method ConnectToExistingChrome(eps: Endpoints) returns (attached: Option<string>, probed: seq<string>)
      ensures var first := FirstIndex(CandidatePorts, Qualifying(eps));
        && (attached.None? <==> first.None?)
        && (first.Some? ==>
              attached == Some(CandidatePorts[first.value]) && probed == CandidatePorts[..first.value + 1])
      ensures attached.None? ==> probed == CandidatePorts
    {
      probed := [];
      var i := 0;
      while i < |CandidatePorts|
        invariant 0 <= i <= |CandidatePorts|
        invariant probed == CandidatePorts[..i]
        invariant forall j :: 0 <= j < i ==> !Qualifying(eps)(CandidatePorts[j])
      {
        var port := CandidatePorts[i];
        var debugUrl := DebugUrl(port);
        probed := probed + [port];
        if IsDebugPortAvailable(debugUrl, eps) {
          if eps.verify(debugUrl).Pass? {
            return Some(port), probed;
          }
        }
        i := i + 1;
      }
      return None, probed;
    }

    /**
     * `Init`: attach to an existing Chrome, else target the default
     * endpoint; then test the connection. Only a failed test or a failed
     * screenshots directory is an error; a failed browserhttp start is only
     * logged.
     */
    method Init(setup: Setup) returns (err: Option<string>, probed: seq<string>)
      modifies this
      ensures var first := FirstIndex(CandidatePorts, Qualifying(setup.endpoints));
        ctx == Some(if first.Some? then DebugUrl(CandidatePorts[first.value]) else DefaultEndpoint)
      ensures var first := FirstIndex(CandidatePorts, Qualifying(setup.endpoints));
        probed == if first.Some? then CandidatePorts[..first.value + 1] else CandidatePorts
      ensures hasCancel
      ensures err == InitError(setup)
      ensures setup.connectionTest.Fail? ==> hasClient == old(hasClient)
      ensures setup.connectionTest.Pass? ==> hasClient
    {
      var attached;
      attached, probed := ConnectToExistingChrome(setup.endpoints);
      if attached.Some? {
        ctx := Some(DebugUrl(attached.value));
      } else {
        ctx := Some(DefaultEndpoint);
      }
      hasCancel := true;
      if setup.connectionTest.Fail? {
        return Some(ConnectFailure(setup.connectionTest.error)), probed;
      }
      hasClient := true;
      if setup.mkdirScreenshots.Fail? {
        return Some("failed to create screenshots directory: " + setup.mkdirScreenshots.error), probed;
      }
      return None, probed;
    }

    /** `Close`: closes the client if one exists, then cancels the context if one is held. */
    method Close() returns (steps: seq<Teardown>)
      ensures steps == (if hasClient then [CloseClient] else []) + (if hasCancel then [CancelContext] else [])
    {
      steps := [];
      if hasClient {
        steps := steps + [CloseClient];
      }
      if hasCancel {
        steps := steps + [CancelContext];
      }
    }

    /**
     * `Navigate`: one run of `[Navigate, WaitReady("body"), Title]`, then
     * WaitVisible iff a selector to wait for is given, then a screenshot iff
     * one is asked for, under a 30 second deadline. It never reports an error
     * of its own: failures are in the result, which always echoes the url.
     */
    method Navigate(url: string, waitFor: string, screenshot: bool, run: Runner)
      returns (result: NavigateResult, sent: seq<Run>)
      ensures sent == [Run(NavigateActions(url, waitFor, screenshot), Some(NavigationDeadline))]
      ensures result.url == url
      ensures run(sent[0]).Failed? ==>
        && !result.success && result.title == "" && result.screenshot == ""
        && result.message == "Navigation failed: " + run(sent[0]).error
      ensures run(sent[0]).Completed? ==>
        && result.success && result.title == run(sent[0]).captured.title
        && result.message == "Navigation successful using existing Chrome session"
        && (result.screenshot != "" <==> screenshot && |run(sent[0]).captured.screenshot| > 0)
    {
      result := NavigateResult(url, "", "", false, "");
      var r := Run(NavigateActions(url, waitFor, screenshot), Some(NavigationDeadline));
      sent := [r];
      match run(r)
      case Failed(e) =>
        result := result.(success := false, message := "Navigation failed: " + e);
      case Completed(out) =>
        result := result.(success := true, message := "Navigation successful using existing Chrome session",
                          title := out.title);
        if screenshot && |out.screenshot| > 0 {
          result := result.(screenshot := Base64.Encode(out.screenshot));
        }
    }

    /** `Click`: one run clicking the selector, followed by a screenshot iff asked for. */
    method Click(selector: string, screenshot: bool, run: Runner) returns (result: ClickResult, sent: seq<Run>)
      ensures sent == [Run([ClickOn(selector, BySearch)] + (if screenshot then [CaptureScreenshot("body")] else []), None)]
      ensures run(sent[0]).Failed? ==>
        result == ClickResult(false, "Click failed: " + run(sent[0]).error, "")
      ensures run(sent[0]).Completed? ==>
        && result.success && result.message == "Click successful"
        && (result.screenshot != "" <==> screenshot && |run(sent[0]).captured.screenshot| > 0)
    {
      var actions := [ClickOn(selector, BySearch)];
      if screenshot {
        actions := actions + [CaptureScreenshot("body")];
      } else {
        assert actions == actions + [];
      }
      var r := Run(actions, None);
      sent := [r];
      var outcome := run(r);
      if outcome.Failed? {
        return ClickResult(false, "Click failed: " + outcome.error, ""), sent;
      }
      result := ClickResult(true, "Click successful", "");
      if screenshot && |outcome.captured.screenshot| > 0 {
        result := result.(screenshot := Base64.Encode(outcome.captured.screenshot));
      }
    }

    /** `ExtractText`: the trimmed text of every match, in document order, as the tab reports it. */
    method ExtractText(selector: string, run: Runner) returns (result: ExtractTextResult, sent: seq<Run>)
      ensures sent == [Run([QueryTexts(selector)], None)]
      ensures run(sent[0]).Failed? ==>
        result == ExtractTextResult([], false, "Text extraction failed: " + run(sent[0]).error)
      ensures run(sent[0]).Completed? ==>
        result == ExtractTextResult(run(sent[0]).captured.texts, true, "")
    {
      var r := Run([QueryTexts(selector)], None);
      sent := [r];
      match run(r)
      case Failed(e) =>
        result := ExtractTextResult([], false, "Text extraction failed: " + e);
      case Completed(out) =>
        result := ExtractTextResult(out.texts, true, "");
    }

    /**
     * The typing part of `FillForm`: one SendKeys per field, each field
     * exactly once, in the order the map iteration picks.
     */
    static method TypeFields(fields: map<string, string>) returns (actions: seq<Action>)
      ensures |actions| == |fields|
      ensures forall i :: 0 <= i < |actions| ==>
        actions[i].SendKeys? && actions[i].selector in fields && actions[i].text == fields[actions[i].selector]
      ensures forall i, j :: 0 <= i < j < |actions| ==> actions[i].selector != actions[j].selector
      ensures forall k :: k in fields ==> SendKeys(k, fields[k]) in actions
    {
      var order := KeyOrder(fields);
      actions := [];
      var i := 0;
      while i < |order|
        invariant 0 <= i <= |order|
        invariant |actions| == i
        invariant forall j :: 0 <= j < i ==> actions[j] == SendKeys(order[j], fields[order[j]])
      {
        actions := actions + [SendKeys(order[i], fields[order[i]])];
        i := i + 1;
      }
      forall k | k in fields ensures SendKeys(k, fields[k]) in actions {
        var j :| 0 <= j < |order| && order[j] == k;
        assert actions[j] == SendKeys(k, fields[k]);
      }
    }

    /**
     * `FillForm`: one SendKeys per field, in the map's (unspecified) order,
     * and, when submitting, exactly one click: on the first known submit
     * control, `input[type='submit']`, whether or not the page has one. The
     * whole list is one run, so any failure fails the form.
     */
    method FillForm(fields: map<string, string>, submit: bool, run: Runner)
      returns (result: FillFormResult, sent: seq<Run>)
      ensures |sent| == 1 && sent[0].deadline == None
      ensures var acts := sent[0].actions;
        && |acts| == |fields| + (if submit then 1 else 0)
        && (forall i :: 0 <= i < |fields| ==>
              acts[i].SendKeys? && acts[i].selector in fields && acts[i].text == fields[acts[i].selector])
        && (forall i, j :: 0 <= i < j < |fields| ==> acts[i].selector != acts[j].selector)
        && (forall k :: k in fields ==> SendKeys(k, fields[k]) in acts[..|fields|])
        && (submit ==> acts[|fields|] == ClickOn("input[type='submit']", ByQuery))
      ensures result.success <==> run(sent[0]).Completed?
      ensures run(sent[0]).Failed? ==> result.message == "Form filling failed: " + run(sent[0]).error
      ensures run(sent[0]).Completed? ==>
        result.message == "Form filled successfully" + (if submit then " and submitted" else "")
    {
      var typed := TypeFields(fields);
      var actions := typed;
      if submit {
        // The submit loop stops after its first selector.
        actions := actions + [ClickOn(SubmitSelectors[0], ByQuery)];
      }
      assert actions[..|fields|] == typed;
      var r := Run(actions, None);
      sent := [r];
      match run(r)
      case Failed(e) =>
        result := FillFormResult(false, "Form filling failed: " + e, "");
      case Completed(_) =>
        var message := "Form filled successfully";
        if submit {
          message := message + " and submitted";
        }
        result := FillFormResult(true, message, "");
    }

    /**
     * `GetSessionData`: a cookie run and a location run on the manager's
     * context. Cookies are replaced only when the cookie run completes (the
     * code swallows a failure of the inner GetCookies, so the run then
     * completes with no cookies), the URL only when the location run
     * completes; the timestamp is always refreshed and the user agent never
     * touched. The same record is returned on every call.
     */
    method GetSessionData(run: Runner, now: int) returns (record: SessionData, sent: seq<Run>)
      modifies sessionData
      ensures record == sessionData
      ensures sent == [Run([ReadCookies], None), Run([ReadLocation], None)]
      ensures sessionData.cookies ==
        (if run(sent[0]).Completed? then run(sent[0]).captured.cookies else old(sessionData.cookies))
      ensures sessionData.url ==
        (if run(sent[1]).Completed? then run(sent[1]).captured.location else old(sessionData.url))
      ensures sessionData.timestamp == now
      ensures sessionData.userAgent == old(sessionData.userAgent)
    {
      var cookieRun := Run([ReadCookies], None);
      if run(cookieRun).Completed? {
        sessionData.cookies := run(cookieRun).captured.cookies;
      }
      var locationRun := Run([ReadLocation], None);
      if run(locationRun).Completed? {
        sessionData.url := run(locationRun).captured.location;
      }
      sessionData.timestamp := now;
      sent := [cookieRun, locationRun];
      record := sessionData;
    }

    /**
     * `RestoreSession`: one run that navigates to the saved URL first (iff it
     * is non-empty) and then sets every stored cookie in order with all six
     * attributes. Any failure aborts the whole run; success reports the
     * number of stored cookies, not a count of cookies that took.
     */
    method RestoreSession(record: SessionRecord, run: Runner)
      returns (result: map<string, Json>, sent: seq<Run>)
      ensures |sent| == 1 && sent[0].deadline == None
      ensures var offset := if record.url != "" then 1 else 0;
        && |sent[0].actions| == offset + |record.cookies|
        && (record.url != "" ==> sent[0].actions[0] == NavigateTo(record.url))
        && forall i :: 0 <= i < |record.cookies| ==>
             sent[0].actions[offset + i] == SetCookieAction(record.cookies[i])
      ensures run(sent[0]).Failed? ==>
        result == map["success" := JBool(false), "message" := JStr("Session restore failed: " + run(sent[0]).error)]
      ensures run(sent[0]).Completed? ==>
        result == map["success" := JBool(true), "message" := JStr("Session restored successfully"),
                      "url" := JStr(record.url), "cookies_restored" := JInt(|record.cookies|)]
    {
      var actions: seq<Action> := [];
      if record.url != "" {
        actions := actions + [NavigateTo(record.url)];
      }
      var offset := |actions|;
      var i := 0;
      while i < |record.cookies|
        invariant 0 <= i <= |record.cookies|
        invariant |actions| == offset + i
        invariant record.url != "" ==> actions[0] == NavigateTo(record.url)
        invariant forall j :: 0 <= j < i ==> actions[offset + j] == SetCookieAction(record.cookies[j])
      {
        actions := actions + [SetCookieAction(record.cookies[i])];
        i := i + 1;
      }
      var r := Run(actions, None);
      sent := [r];
      result := map["success" := JBool(false)];
      match run(r)
      case Failed(e) =>
        result := result["message" := JStr("Session restore failed: " + e)];
      case Completed(_) =>
        result := result["success" := JBool(true)];
        result := result["message" := JStr("Session restored successfully")];
        result := result["url" := JStr(record.url)];
        result := result["cookies_restored" := JInt(|record.cookies|)];
    }

    /** `WaitForElement`: one WaitVisible run under the given deadline; its error is returned as is. */
    method WaitForElement(selector: string, timeout: nat, run: Runner) returns (err: Outcome, sent: seq<Run>)
      ensures sent == [Run([WaitVisible(selector, BySearch)], Some(timeout))]
      ensures err.Fail? <==> run(sent[0]).Failed?
      ensures err.Fail? ==> err.error == run(sent[0]).error
    {
      var r := Run([WaitVisible(selector, BySearch)], Some(timeout));
      sent := [r];
      match run(r)
      case Failed(e) => err := Fail(e);
      case Completed(_) => err := Pass;
    }

    /**
     * `SaveScreenshot`: captures the body and writes the bytes to
     * `screenshots/<filename>`; `write` is the file system's answer.
     */
    method SaveScreenshot(filename: string, run: Runner, write: Outcome) returns (path: Result<string>, sent: seq<Run>)
      ensures sent == [Run([CaptureScreenshot("body")], None)]
      ensures run(sent[0]).Failed? ==> path == Err("failed to take screenshot: " + run(sent[0]).error)
      ensures run(sent[0]).Completed? && write.Fail? ==> path == Err("failed to save screenshot: " + write.error)
      ensures path.Ok? <==> run(sent[0]).Completed? && write.Pass?
      ensures path.Ok? ==> path.value == "screenshots/" + filename
    {
      var r := Run([CaptureScreenshot("body")], None);
      sent := [r];
      if run(r).Failed? {
        return Err("failed to take screenshot: " + run(r).error), sent;
      }
      if write.Fail? {
        return Err("failed to save screenshot: " + write.error), sent;
      }
      return Ok("screenshots/" + filename), sent;
    }
  }
}
