/**
 * The enhanced MCP server (`EnhancedMCPChromeServer`): the tool handlers
 * that route to the enhanced manager's browserhttp client, with the legacy
 * manager kept as a fallback for start-up only.
 */
module EnhancedServer {
  import opened Common
  import opened BrowserData
  import opened EnhancedBrowser
  import Browser
  import Storage
  import opened Server

  /** The note a navigation gets when its load time was measured. */
  function LoadTimeNote(m: PerfMetrics): string {
    " (Load time: " + IntToString(Milliseconds(m.loadComplete)) + ")"
  }

  /** The note a form fill gets when it was asked to validate and submit. */
  const ValidatedNote: string := " (validated before submission)"

  /** A list of strings as a JSON array. */
  function StringArray(xs: seq<string>): (j: Json)
    ensures j.JArr? && |j.items| == |xs| && forall i :: 0 <= i < |xs| ==> j.items[i] == JStr(xs[i])
  {
    JArr(seq(|xs|, i requires 0 <= i < |xs| => JStr(xs[i])))
  }

  /** A list of JSON objects as a JSON array. */
  function ObjectArray(xs: seq<map<string, Json>>): (j: Json)
    ensures j.JArr? && |j.items| == |xs| && forall i :: 0 <= i < |xs| ==> j.items[i] == JObj(xs[i])
  {
    JArr(seq(|xs|, i requires 0 <= i < |xs| => JObj(xs[i])))
  }

  class EnhancedChromeServer {
    const browser: EnhancedManager
    const store: Storage.Manager
    const legacy: Browser.Manager

    /** `NewEnhanced`: fresh enhanced and legacy managers and a fresh, not yet opened, store. */
    constructor ()
      ensures fresh(browser) && fresh(store) && fresh(legacy)
      ensures !browser.hasClient && !store.open && store.Valid()
      ensures legacy.ctx == None && !legacy.hasClient && !legacy.hasCancel
    {
      browser := new EnhancedManager();
      store := new Storage.Manager();
      legacy := new Browser.Manager();
    }

    /**
     * The browser part of `Start`: the enhanced manager, and the legacy one
     * only if the enhanced one fails.
     */
    method InitBrowsers(mkdirScreenshots: Outcome, c: Client, legacySetup: Browser.Setup)
      returns (err: Option<string>, legacyTried: bool)
      modifies browser, legacy
      ensures browser.hasClient
      ensures legacyTried <==> mkdirScreenshots.Fail? || c.init.Fail?
      ensures !legacyTried ==> err == None && unchanged(legacy)
      ensures legacyTried ==>
        err == Wrapped("failed to initialize browser (both enhanced and legacy): ", Browser.InitError(legacySetup))
      ensures legacyTried && legacySetup.connectionTest.Pass? ==> legacy.hasClient && legacy.hasCancel
    {
      legacyTried := false;
      err := None;
      var enhancedErr := browser.Init(mkdirScreenshots, c);
      if enhancedErr.Some? {
        legacyTried := true;
        var legacyErr, _ := legacy.Init(legacySetup);
        err := Wrapped("failed to initialize browser (both enhanced and legacy): ", legacyErr);
      }
    }

    /**
     * `Start`: storage first; then the enhanced browser, and only if that
     * fails the legacy one. After serving, both browsers and the store are
     * closed, in that order.
     */
    method Start(storeSetup: Storage.StoreSetup, existing: Storage.Tables, mkdirScreenshots: Outcome, c: Client,
                 legacySetup: Browser.Setup, serve: Outcome, closing: Outcome)
      returns (err: Option<string>, legacyTried: bool, teardown: seq<Teardown>)
      requires store.Valid() && Storage.TablesValid(existing)
      modifies browser, legacy, store
      ensures store.Valid()
      ensures var storeErr := Storage.InitError(storeSetup);
        && (storeErr.Some? ==>
              && err == Wrapped("failed to initialize storage: ", storeErr)
              && !legacyTried && teardown == [] && unchanged(browser) && unchanged(legacy))
        && (storeErr.None? ==> store.open && browser.hasClient)
        && (storeErr.None? ==> (legacyTried <==> mkdirScreenshots.Fail? || c.init.Fail?))
        && (storeErr.None? && !legacyTried ==> unchanged(legacy))
      ensures var legacyErr := Browser.InitError(legacySetup);
        legacyTried && legacyErr.Some? ==>
          err == Wrapped("failed to initialize browser (both enhanced and legacy): ", legacyErr) && teardown == []
      ensures var ready := legacyTried ==> Browser.InitError(legacySetup).None?;
        Storage.InitError(storeSetup).None? && ready ==>
          && err == ServeError("failed to serve enhanced MCP server: ", serve)
          && teardown == [CloseClient]
               + (if legacy.hasClient then [CloseClient] else []) + (if legacy.hasCancel then [CancelContext] else [])
               + [CloseDatabase]
          && (legacyTried ==> legacy.hasClient && legacy.hasCancel)
    {
      teardown := [];
      legacyTried := false;
      err := StartStorage(store, storeSetup, existing);
      if err.Some? {
        return;
      }
      err, legacyTried := InitBrowsers(mkdirScreenshots, c, legacySetup);
      if err.Some? {
        return;
      }
      err, teardown := ServeAndClose(serve, closing);
    }

    /** Serving, then the deferred close of both browsers and the store, whatever serving returns. */
    method ServeAndClose(serve: Outcome, closing: Outcome) returns (err: Option<string>, teardown: seq<Teardown>)
      requires browser.hasClient && store.open
      ensures teardown == [CloseClient]
        + (if legacy.hasClient then [CloseClient] else []) + (if legacy.hasCancel then [CancelContext] else [])
        + [CloseDatabase]
      ensures err == ServeError("failed to serve enhanced MCP server: ", serve)
    {
      var enhancedSteps := browser.Close();
      var legacySteps := legacy.Close();
      var _, storeSteps := store.Close(closing);
      teardown := enhancedSteps + legacySteps + storeSteps;
      err := ServeError("failed to serve enhanced MCP server: ", serve);
    }

    /**
     * `chrome_navigate`: a url is required. `visited` is the manager's
     * result; with `track_performance` the metrics are read afterwards,
     * whether or not the navigation succeeded, and the load time is
     * appended to the message when they are available.
     */
    method Navigate(args: map<string, Json>, c: Client)
      returns (result: ToolResult, visited: NavigateResult, calls: seq<ClientCall>)
      ensures var url := ArgString(args, "url", "");
        var track := ArgBool(args, "track_performance", false);
        && (url == "" ==> result == ToolError("URL parameter is required") && calls == [])
        && (url != "" ==>
              && visited.url == url && (visited.success <==> c.get(url).Ok?)
              && result == ToolText(visited.(message := visited.message +
                   (if track && c.metrics.Ok? then LoadTimeNote(c.metrics.value) else "")).ToJson())
              && |calls| >= 1 && calls[0] == CallGet(url)
              && (track <==> calls[|calls| - 1].CallMetrics?))
      ensures var url := ArgString(args, "url", "");
        var waitFor := ArgString(args, "wait_for", "");
        url != "" ==>
          && calls == [CallGet(url)] + (if c.get(url).Ok? && waitFor != "" then [CallWait(waitFor, NavigationWait)] else [])
                      + (if ArgBool(args, "track_performance", false) then [CallMetrics] else [])
          && (c.get(url).Err? ==>
                visited == NavigateResult(url, "", "", false, "Enhanced navigation failed: " + c.get(url).error))
          && (c.get(url).Ok? ==>
                && visited.title == c.get(url).value
                && visited.screenshot ==
                     (if ArgBool(args, "screenshot", false) then "screenshot_captured_by_browserhttp" else "")
                && visited.message == "Enhanced navigation successful" +
                     (if waitFor == "" then ""
                      else if c.waitFor(waitFor, NavigationWait).Fail?
                      then " (wait failed: " + c.waitFor(waitFor, NavigationWait).error + ")"
                      else " (element found)"))
    {
      var url := ArgString(args, "url", "");
      if url == "" {
        return ToolError("URL parameter is required"), NavigateResult("", "", "", false, ""), [];
      }
      var waitFor := ArgString(args, "wait_for", "");
      var navigation;
      visited, navigation := browser.Navigate(url, waitFor, ArgBool(args, "screenshot", false), c);
      var note, metricsCalls := TrackPerformance(ArgBool(args, "track_performance", false), c);
      calls := navigation + metricsCalls;
      result := ToolText(visited.(message := visited.message + note).ToJson());
    }

    /** The `track_performance` step of `chrome_navigate`: reads the metrics iff asked, and notes the load time. */
    static method TrackPerformance(track: bool, c: Client) returns (note: string, calls: seq<ClientCall>)
      ensures calls == if track then [CallMetrics] else []
      ensures note == if track && c.metrics.Ok? then LoadTimeNote(c.metrics.value) else ""
    {
      note, calls := "", [];
      if track {
        calls := [CallMetrics];
        var metrics := PerformanceMetrics(c);
        if metrics.Ok? {
          note := LoadTimeNote(c.metrics.value);
        }
      }
    }

    /**
     * `chrome_fill_form`: a non-empty `fields` object is required and only
     * its string-valued entries are typed. `filled` is the manager's
     * result; with `submit` and `validate_before_submit` (true unless given)
     * the validation note is appended, even to a failure message.
     */
    method FillForm(args: map<string, Json>, c: Client)
      returns (result: ToolResult, filled: FillFormResult, calls: seq<ClientCall>)
      ensures var given := ArgObject(args, "fields");
        var submit := ArgBool(args, "submit", false);
        var validate := ArgBool(args, "validate_before_submit", true);
        && (|given| == 0 ==> result == ToolError("Fields parameter is required") && calls == [])
        && (|given| != 0 ==>
              && (filled.success <==> forall k :: k in given && given[k].JStr? ==> c.typeText(k, given[k].s).Pass?)
              && (forall i :: 0 <= i < |calls| && calls[i].CallType? ==>
                    calls[i].selector in given && given[calls[i].selector] == JStr(calls[i].text))
              && result == ToolText(filled.(message := filled.message +
                   (if validate && submit then ValidatedNote else "")).ToJson()))
      ensures var given := ArgObject(args, "fields");
        var fields := TextFields(given);
        |given| != 0 && !filled.success ==>
          && 0 < |calls| <= |fields|
          && (forall i :: 0 <= i < |calls| ==> calls[i].CallType?)
          && (forall i, j :: 0 <= i < j < |calls| ==> calls[i].selector != calls[j].selector)
          && (forall i :: 0 <= i < |calls| - 1 ==> c.typeText(calls[i].selector, calls[i].text).Pass?)
          && var last := calls[|calls| - 1];
             c.typeText(last.selector, last.text).Fail?
             && filled.message == "Enhanced form filling failed at " + last.selector + ": "
                  + c.typeText(last.selector, last.text).error
      ensures var given := ArgObject(args, "fields");
        var fields := TextFields(given);
        var submit := ArgBool(args, "submit", false);
        var first := FirstIndex(SubmitSelectors, Clickable(c));
        |given| != 0 && filled.success ==>
          && |calls| >= |fields| && (forall i :: 0 <= i < |fields| ==> calls[i].CallType?)
          && (forall k :: k in fields ==> CallType(k, fields[k]) in calls[..|fields|])
          && calls[|fields|..] ==
               (if !submit then [] else SubmitClicks(if first.Some? then first.value + 1 else |SubmitSelectors|))
          && filled.message == "Enhanced form filled successfully" +
               (if !submit then "" else if first.Some? then " and submitted" else " (submit button not found)")
    {
      var given := ArgObject(args, "fields");
      if |given| == 0 {
        return ToolError("Fields parameter is required"), FillFormResult(false, "", ""), [];
      }
      var fields := StringValued(given);
      var submit := ArgBool(args, "submit", false);
      var validate := ArgBool(args, "validate_before_submit", true);
      filled, calls := browser.FillForm(fields, submit, c);
      var reported := filled;
      if validate && submit {
        reported := reported.(message := reported.message + ValidatedNote);
      } else {
        assert filled.message + "" == filled.message;
      }
      result := ToolText(reported.ToJson());
    }

    /** `chrome_extract_links`: the links and their count, or the client's error. */
    method ExtractLinks(c: Client) returns (result: ToolResult, calls: seq<ClientCall>)
      ensures calls == [CallLinks]
      ensures c.links.Err? ==> result == ToolErrorFromErr("Link extraction failed", c.links.error)
      ensures c.links.Ok? ==>
        result == ToolText(JObj(map["success" := JBool(true), "links" := StringArray(c.links.value),
                                    "count" := JInt(|c.links.value|)]))
    {
      var answer := EnhancedBrowser.ExtractLinks(c).0;
      calls := EnhancedBrowser.ExtractLinks(c).1;
      if answer.Err? {
        return ToolErrorFromErr("Link extraction failed", answer.error), calls;
      }
      result := ToolText(JObj(map["success" := JBool(true), "links" := StringArray(answer.value),
                                  "count" := JInt(|answer.value|)]));
    }

    /** `chrome_extract_images`: the placeholder list, whose count is its length. */
    method ExtractImages() returns (result: ToolResult)
      ensures result.ToolText? && result.body.JObj?
      ensures var body := result.body.fields;
        && "images" in body && "count" in body && body["images"].JArr?
        && body["count"] == JInt(|body["images"].items|)
        && body["images"] == ObjectArray(EnhancedBrowser.ExtractImages())
    {
      var images := EnhancedBrowser.ExtractImages();
      result := ToolText(JObj(map["success" := JBool(true), "images" := ObjectArray(images),
                                  "count" := JInt(|images|)]));
    }

    /** `chrome_extract_forms`: the placeholder list, whose count is its length. */
    method ExtractForms() returns (result: ToolResult)
      ensures result.ToolText? && result.body.JObj?
      ensures var body := result.body.fields;
        && "forms" in body && "count" in body && body["forms"].JArr?
        && body["count"] == JInt(|body["forms"].items|)
        && body["forms"] == ObjectArray(EnhancedBrowser.ExtractForms())
    {
      var forms := EnhancedBrowser.ExtractForms();
      result := ToolText(JObj(map["success" := JBool(true), "forms" := ObjectArray(forms),
                                  "count" := JInt(|forms|)]));
    }

    /** `chrome_analyze_seo`: the SEO report under `seo`, or the wrapped error. */
    method AnalyzeSeo(c: Client) returns (result: ToolResult, calls: seq<ClientCall>)
      ensures calls == [CallSeo]
      ensures c.seo.Err? ==> result == ToolErrorFromErr("SEO analysis failed", "failed to analyze SEO: " + c.seo.error)
      ensures c.seo.Ok? ==>
        && result.ToolText? && result.body.JObj? && result.body.fields.Keys == {"success", "seo"}
        && result.body.fields["seo"].JObj? && "title" in result.body.fields["seo"].fields
        && result.body.fields["seo"].fields["title"] == JStr(c.seo.value.title)
      ensures c.seo.Ok? ==>
        result == ToolText(JObj(map["success" := JBool(true), "seo" := JObj(EnhancedBrowser.AnalyzeSeo(c).value)]))
    {
      calls := [CallSeo];
      var report := EnhancedBrowser.AnalyzeSeo(c);
      if report.Err? {
        return ToolErrorFromErr("SEO analysis failed", report.error), calls;
      }
      result := ToolText(JObj(map["success" := JBool(true), "seo" := JObj(report.value)]));
    }

    /** `chrome_get_performance`: the metrics under `performance`, or the wrapped error. */
    method GetPerformance(c: Client) returns (result: ToolResult, calls: seq<ClientCall>)
      ensures calls == [CallMetrics]
      ensures c.metrics.Err? ==>
        result == ToolErrorFromErr("Performance analysis failed", "failed to get performance metrics: " + c.metrics.error)
      ensures c.metrics.Ok? ==>
        && result.ToolText? && result.body.JObj? && result.body.fields.Keys == {"success", "performance"}
        && result.body.fields["performance"].JObj? && "load_complete" in result.body.fields["performance"].fields
        && result.body.fields["performance"].fields["load_complete"] == JInt(Milliseconds(c.metrics.value.loadComplete))
      ensures c.metrics.Ok? ==>
        result == ToolText(JObj(map["success" := JBool(true), "performance" := JObj(PerformanceMetrics(c).value)]))
    {
      calls := [CallMetrics];
      var metrics := PerformanceMetrics(c);
      if metrics.Err? {
        return ToolErrorFromErr("Performance analysis failed", metrics.error), calls;
      }
      result := ToolText(JObj(map["success" := JBool(true), "performance" := JObj(metrics.value)]));
    }

    /** `chrome_check_security`: the three reports under `security`, or the first check's error. */
    method CheckSecurity(c: Client) returns (result: ToolResult, calls: seq<ClientCall>)
      ensures calls == EnhancedBrowser.CheckSecurity(c).1
      ensures result.ToolText? <==> c.csp.Ok? && c.ssl.Ok? && c.vulnerabilities.Ok?
      ensures result.ToolErrorFromErr? ==>
        result.text == "Security analysis failed" && result.cause == EnhancedBrowser.CheckSecurity(c).0.error
      ensures result.ToolText? ==>
        && result.body.JObj? && result.body.fields.Keys == {"success", "security"}
        && result.body.fields["security"].JObj?
        && result.body.fields["security"].fields.Keys == {"csp", "ssl", "vulnerabilities"}
      ensures result.ToolText? ==>
        result == ToolText(JObj(map["success" := JBool(true),
                                    "security" := JObj(EnhancedBrowser.CheckSecurity(c).0.value)]))
    {
      var report;
      report, calls := EnhancedBrowser.CheckSecurity(c).0, EnhancedBrowser.CheckSecurity(c).1;
      if report.Err? {
        return ToolErrorFromErr("Security analysis failed", report.error), calls;
      }
      result := ToolText(JObj(map["success" := JBool(true), "security" := JObj(report.value)]));
    }

    /** `chrome_post_json`: a url and a non-empty `data` object are required. */
    method PostJson(args: map<string, Json>, c: Client) returns (result: ToolResult, calls: seq<ClientCall>)
      ensures var url := ArgString(args, "url", "");
        var data := ArgObject(args, "data");
        && (url == "" ==> result == ToolError("URL parameter is required") && calls == [])
        && (url != "" && |data| == 0 ==> result == ToolError("Data parameter is required") && calls == [])
        && (url != "" && |data| != 0 ==>
              && calls == [CallPostJson(url, JObj(data))]
              && result.ToolText? && result.body.JObj?
              && "url" in result.body.fields && "success" in result.body.fields
              && result.body.fields["url"] == JStr(url)
              && result.body.fields["success"] == JBool(c.postJson(url, JObj(data)).Pass?))
      ensures var url := ArgString(args, "url", "");
        var data := ArgObject(args, "data");
        var posted := c.postJson(url, JObj(data));
        url != "" && |data| != 0 ==>
          result == ToolText(NavigateResult(url, "", "", posted.Pass?,
                                            if posted.Fail? then "JSON POST failed: " + posted.error
                                            else "JSON POST successful").ToJson())
    {
      var url := ArgString(args, "url", "");
      if url == "" {
        return ToolError("URL parameter is required"), [];
      }
      var data := ArgObject(args, "data");
      if |data| == 0 {
        return ToolError("Data parameter is required"), [];
      }
      var posted;
      posted, calls := browser.PostJson(url, JObj(data), c);
      result := ToolText(posted.ToJson());
    }

    /**
     * `chrome_wait_advanced`: a selector or a text is required; only a
     * selector is waited for (a text alone succeeds at once), and the
     * timeout, 10 seconds unless given, is passed on as is.
     */
    method WaitAdvanced(args: map<string, Json>, c: Client) returns (result: ToolResult, calls: seq<ClientCall>)
      ensures var selector := ArgString(args, "selector", "");
        var text := ArgString(args, "text", "");
        var timeout := ArgSeconds(args, "timeout", 10);
        var met := ToolText(JObj(map["success" := JBool(true), "message" := JStr("Wait condition met")]));
        && (selector == "" && text == "" ==>
              result == ToolError("Either selector or text parameter is required") && calls == [])
        && (selector == "" && text != "" ==> result == met && calls == [])
        && (selector != "" ==> calls == [CallWait(selector, timeout)])
        && (selector != "" ==>
              result == if c.waitFor(selector, timeout).Fail?
                        then ToolErrorFromErr("Wait failed", c.waitFor(selector, timeout).error)
                        else met)
    {
      var selector := ArgString(args, "selector", "");
      var text := ArgString(args, "text", "");
      var timeout := ArgSeconds(args, "timeout", 10);
      if selector == "" && text == "" {
        return ToolError("Either selector or text parameter is required"), [];
      }
      var err := Pass;
      calls := [];
      if selector != "" {
        err, calls := browser.WaitForElement(selector, timeout, c);
      }
      if err.Fail? {
        return ToolErrorFromErr("Wait failed", err.error), calls;
      }
      result := ToolText(JObj(map["success" := JBool(true), "message" := JStr("Wait condition met")]));
    }

    /** `chrome_local_storage_get`: a key is required; the value comes back with the key. */
    method GetLocal(args: map<string, Json>, c: Client) returns (result: ToolResult, calls: seq<ClientCall>)
      ensures var key := ArgString(args, "key", "");
        && (key == "" ==> result == ToolError("Key parameter is required") && calls == [])
        && (key != "" ==> calls == [CallGetLocal(key)])
        && (key != "" && c.getLocal(key).Err? ==>
              result == ToolErrorFromErr("Failed to get localStorage", c.getLocal(key).error))
        && (key != "" && c.getLocal(key).Ok? ==>
              result == ToolText(JObj(map["success" := JBool(true), "key" := JStr(key),
                                          "value" := JStr(c.getLocal(key).value)])))
    {
      var key := ArgString(args, "key", "");
      if key == "" {
        return ToolError("Key parameter is required"), [];
      }
      var answer;
      answer, calls := GetLocalStorage(key, c).0, GetLocalStorage(key, c).1;
      if answer.Err? {
        return ToolErrorFromErr("Failed to get localStorage", answer.error), calls;
      }
      result := ToolText(JObj(map["success" := JBool(true), "key" := JStr(key), "value" := JStr(answer.value)]));
    }

    /** `chrome_local_storage_set`: a key is required; a missing value is the empty string. */
    method SetLocal(args: map<string, Json>, c: Client) returns (result: ToolResult, calls: seq<ClientCall>)
      ensures var key := ArgString(args, "key", "");
        var value := ArgString(args, "value", "");
        && (key == "" ==> result == ToolError("Key parameter is required") && calls == [])
        && (key != "" ==> calls == [CallSetLocal(key, value)])
        && (key != "" && c.setLocal(key, value).Fail? ==>
              result == ToolErrorFromErr("Failed to set localStorage", c.setLocal(key, value).error))
        && (key != "" && c.setLocal(key, value).Pass? ==>
              result == ToolText(JObj(map["success" := JBool(true),
                                          "message" := JStr("localStorage value set successfully"),
                                          "key" := JStr(key), "value" := JStr(value)])))
    {
      var key := ArgString(args, "key", "");
      var value := ArgString(args, "value", "");
      if key == "" {
        return ToolError("Key parameter is required"), [];
      }
      var answer;
      answer, calls := SetLocalStorage(key, value, c).0, SetLocalStorage(key, value, c).1;
      if answer.Fail? {
        return ToolErrorFromErr("Failed to set localStorage", answer.error), calls;
      }
      result := ToolText(JObj(map["success" := JBool(true), "message" := JStr("localStorage value set successfully"),
                                  "key" := JStr(key), "value" := JStr(value)]));
    }

    /** `chrome_clear_session`: clears the cookies. */
    method ClearSession(c: Client) returns (result: ToolResult, calls: seq<ClientCall>)
      ensures calls == [CallClearCookies]
      ensures c.clearCookies.Fail? ==> result == ToolErrorFromErr("Failed to clear session", c.clearCookies.error)
      ensures c.clearCookies.Pass? ==>
        result == ToolText(JObj(map["success" := JBool(true), "message" := JStr("Session cleared successfully")]))
    {
      var answer;
      answer, calls := EnhancedBrowser.ClearSession(c).0, EnhancedBrowser.ClearSession(c).1;
      if answer.Fail? {
        return ToolErrorFromErr("Failed to clear session", answer.error), calls;
      }
      result := ToolText(JObj(map["success" := JBool(true), "message" := JStr("Session cleared successfully")]));
    }
  }

}
