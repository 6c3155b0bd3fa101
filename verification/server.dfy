/**
 * The MCP server over the legacy manager (`MCPChromeServer`): `Start`
 * brings up storage and then the browser, and each `chrome_*` /
 * `session_*` tool handler validates its arguments, calls the manager and
 * the store, and wraps the outcome as a tool result.
 *
 * A tool call's arguments are a JSON object; a handler's Go error is
 * always nil, so a handler returns only its tool result (and the browser
 * runs it caused).
 */
module Server {
  import opened Common
  import opened BrowserData
  import opened Browser
  import Storage

  /** An MCP tool result: an error text, an error text with its cause, or a text body holding JSON. */
  datatype ToolResult = ToolError(text: string) | ToolErrorFromErr(text: string, cause: string) | ToolText(body: Json)

  /** `mcp.ParseString`: the argument when it is a string, else the default. */
  function ArgString(args: map<string, Json>, key: string, default: string): (s: string)
    ensures key in args && args[key].JStr? ==> s == args[key].s
    ensures !(key in args && args[key].JStr?) ==> s == default
  {
    if key in args && args[key].JStr? then args[key].s else default
  }

  /** `mcp.ParseBoolean`: the argument when it is a boolean, else the default. */
  function ArgBool(args: map<string, Json>, key: string, default: bool): (b: bool)
    ensures key in args && args[key].JBool? ==> b == args[key].b
    ensures !(key in args && args[key].JBool?) ==> b == default
  {
    if key in args && args[key].JBool? then args[key].b else default
  }

  /** `mcp.ParseFloat64`, on whole seconds: the argument when it is a number, else the default. */
  function ArgSeconds(args: map<string, Json>, key: string, default: int): (n: int)
    ensures key in args && args[key].JInt? ==> n == args[key].i
    ensures !(key in args && args[key].JInt?) ==> n == default
  {
    if key in args && args[key].JInt? then args[key].i else default
  }

  /** `mcp.ParseStringMap`: the argument when it is an object, else the empty map. */
  function ArgObject(args: map<string, Json>, key: string): (m: map<string, Json>)
    ensures key in args && args[key].JObj? ==> m == args[key].fields
    ensures !(key in args && args[key].JObj?) ==> m == map[]
  {
    if key in args && args[key].JObj? then args[key].fields else map[]
  }

  /** The string-valued entries of a JSON object, as strings. */
  function TextFields(m: map<string, Json>): map<string, string> {
    map k | k in m && m[k].JStr? :: m[k].s
  }

  /**
   * The conversion loop of the fill-form handlers: keeps exactly the
   * entries whose value is a string; the others are dropped silently.
   */
  method StringValued(m: map<string, Json>) returns (fields: map<string, string>)
    ensures forall k :: k in fields <==> k in m && m[k].JStr?
    ensures forall k :: k in fields ==> m[k] == JStr(fields[k])
    ensures fields == TextFields(m)
  {
    fields := map[];
    var order := KeyOrder(m);
    var i := 0;
    while i < |order|
      invariant 0 <= i <= |order|
      invariant forall k :: k in fields <==> k in order[..i] && m[k].JStr?
      invariant forall k :: k in fields ==> m[k] == JStr(fields[k])
    {
      var key := order[i];
      if m[key].JStr? {
        fields := fields[key := m[key].s];
      }
      assert order[..i + 1] == order[..i] + [key];
      i := i + 1;
    }
    assert order[..i] == order;
  }

  /**
   * A form's actions, one SendKeys per converted field and then possibly a
   * click, type exactly the string-valued entries of the original object.
   */
  lemma TypesStringValuedOnly(given: map<string, Json>, fields: map<string, string>, acts: seq<Action>, submit: bool)
    requires forall k :: k in fields <==> k in given && given[k].JStr?
    requires forall k :: k in fields ==> given[k] == JStr(fields[k])
    requires |acts| == |fields| + (if submit then 1 else 0)
    requires forall i :: 0 <= i < |fields| ==>
      acts[i].SendKeys? && acts[i].selector in fields && acts[i].text == fields[acts[i].selector]
    requires forall k :: k in fields ==> SendKeys(k, fields[k]) in acts[..|fields|]
    requires submit ==> acts[|fields|] == ClickOn("input[type='submit']", ByQuery)
    ensures forall k, v :: SendKeys(k, v) in acts <==> k in given && given[k] == JStr(v)
    ensures ClickOn("input[type='submit']", ByQuery) in acts <==> submit
  {
    if ClickOn("input[type='submit']", ByQuery) in acts {
      var i :| 0 <= i < |acts| && acts[i] == ClickOn("input[type='submit']", ByQuery);
      assert i == |fields|;
    }
    forall k, v ensures SendKeys(k, v) in acts <==> k in given && given[k] == JStr(v) {
      if SendKeys(k, v) in acts {
        var i :| 0 <= i < |acts| && acts[i] == SendKeys(k, v);
        assert i < |fields|;
      }
      if k in given && given[k] == JStr(v) {
        assert SendKeys(k, fields[k]) in acts[..|fields|];
      }
    }
  }

  /** The file name a screenshot gets when none is given. */
  function DefaultScreenshotName(now: int): string {
    "screenshot_" + IntToString(now) + ".png"
  }

  /** The wait, in seconds, used when the given one is not positive. */
  const DefaultWait: nat := 10

  /** What a server reports once serving has ended: the wrapped failure, if serving failed. */
  function ServeError(prefix: string, serve: Outcome): (r: Option<string>)
    ensures r.Some? <==> serve.Fail?
  {
    if serve.Fail? then Some(prefix + serve.error) else None
  }

  /**
   * The storage step of both servers' `Start`: the store's own error,
   * wrapped; on success the store is open.
   */
  method StartStorage(store: Storage.Manager, setup: Storage.StoreSetup, existing: Storage.Tables)
    returns (err: Option<string>)
    requires store.Valid() && Storage.TablesValid(existing)
    modifies store
    ensures store.Valid()
    ensures err == Wrapped("failed to initialize storage: ", Storage.InitError(setup))
    ensures err.None? ==> store.open
  {
    var storeErr := store.Init(setup, existing);
    err := Wrapped("failed to initialize storage: ", storeErr);
  }

  class ChromeServer {
    const browser: Manager
    const store: Storage.Manager

    /** `New`: a fresh manager and a fresh, not yet opened, store. */
    constructor ()
      ensures fresh(browser) && fresh(store) && fresh(browser.sessionData)
      ensures browser.ctx == None && !store.open && store.Valid()
    {
      browser := new Manager();
      store := new Storage.Manager();
    }

    /**
     * `Start`: initialises storage and, only if that succeeds, the
     * browser; then serves until `serve` ends, and finally closes the
     * browser and the store. `teardown` is what the final close releases.
     */
    method Start(storeSetup: Storage.StoreSetup, existing: Storage.Tables, browserSetup: Setup,
                 serve: Outcome, closing: Outcome)
      returns (err: Option<string>, browserInitialised: bool, teardown: seq<Teardown>)
      requires store.Valid() && Storage.TablesValid(existing)
      modifies browser, store
      ensures store.Valid()
      ensures var storeErr := Storage.InitError(storeSetup);
        && (browserInitialised <==> storeErr.None?)
        && (storeErr.Some? ==>
              err == Wrapped("failed to initialize storage: ", storeErr) && teardown == [] && unchanged(browser))
        && (storeErr.None? ==> store.open)
      ensures var browserErr := Browser.InitError(browserSetup);
        browserInitialised && browserErr.Some? ==>
          err == Wrapped("failed to initialize browser: ", browserErr) && teardown == []
      ensures browserInitialised && Browser.InitError(browserSetup).None? ==>
        && teardown == [CloseClient, CancelContext, CloseDatabase]
        && err == ServeError("failed to serve MCP server: ", serve)
    {
      teardown := [];
      browserInitialised := false;
      err := StartStorage(store, storeSetup, existing);
      if err.Some? {
        return;
      }
      browserInitialised := true;
      var browserErr, _ := browser.Init(browserSetup);
      if browserErr.Some? {
        return Wrapped("failed to initialize browser: ", browserErr), browserInitialised, teardown;
      }
      err, teardown := ServeAndClose(serve, closing);
    }

    /** Serving, then the deferred close of the browser and the store, whatever serving returns. */
    method ServeAndClose(serve: Outcome, closing: Outcome) returns (err: Option<string>, teardown: seq<Teardown>)
      requires browser.hasClient && browser.hasCancel && store.open
      ensures teardown == [CloseClient, CancelContext, CloseDatabase]
      ensures err == ServeError("failed to serve MCP server: ", serve)
    {
      var browserSteps := browser.Close();
      var _, storeSteps := store.Close(closing);
      teardown := browserSteps + storeSteps;
      err := ServeError("failed to serve MCP server: ", serve);
    }

    /**
     * `chrome_navigate`: a url is required. `visited` is the manager's
     * result, which the tool returns as JSON.
     */
    method Navigate(args: map<string, Json>, run: Runner)
      returns (result: ToolResult, visited: NavigateResult, sent: seq<Run>)
      ensures var url := ArgString(args, "url", "");
        && (url == "" ==> result == ToolError("URL parameter is required") && sent == [])
        && (url != "" ==>
              sent == [Run(NavigateActions(url, ArgString(args, "wait_for", ""), ArgBool(args, "screenshot", false)),
                           Some(NavigationDeadline))])
        && (url != "" ==>
              && result == ToolText(visited.ToJson())
              && visited.url == url
              && (visited.success <==> run(sent[0]).Completed?)
              && (run(sent[0]).Failed? ==>
                    && visited.title == "" && visited.screenshot == ""
                    && visited.message == "Navigation failed: " + run(sent[0]).error)
              && (run(sent[0]).Completed? ==>
                    && visited.title == run(sent[0]).captured.title
                    && visited.message == "Navigation successful using existing Chrome session"
                    && (visited.screenshot != "" <==>
                          ArgBool(args, "screenshot", false) && |run(sent[0]).captured.screenshot| > 0)))
    {
      var url := ArgString(args, "url", "");
      if url == "" {
        return ToolError("URL parameter is required"), NavigateResult("", "", "", false, ""), [];
      }
      visited, sent := browser.Navigate(url, ArgString(args, "wait_for", ""), ArgBool(args, "screenshot", false), run);
      result := ToolText(visited.ToJson());
    }

    /** `chrome_click`: a selector is required; `clicked` is the manager's result, returned as JSON. */
    method Click(args: map<string, Json>, run: Runner) returns (result: ToolResult, clicked: ClickResult, sent: seq<Run>)
      ensures var selector := ArgString(args, "selector", "");
        var screenshot := ArgBool(args, "screenshot", false);
        && (selector == "" ==> result == ToolError("Selector parameter is required") && sent == [])
        && (selector != "" ==>
              sent == [Run([ClickOn(selector, BySearch)] + (if screenshot then [CaptureScreenshot("body")] else []), None)])
        && (selector != "" ==>
              && result == ToolText(clicked.ToJson())
              && (clicked.success <==> run(sent[0]).Completed?)
              && clicked.message == (if run(sent[0]).Failed? then "Click failed: " + run(sent[0]).error
                                     else "Click successful")
              && (run(sent[0]).Failed? ==> clicked.screenshot == "")
              && (run(sent[0]).Completed? ==>
                    (clicked.screenshot != "" <==> screenshot && |run(sent[0]).captured.screenshot| > 0)))
    {
      var selector := ArgString(args, "selector", "");
      if selector == "" {
        return ToolError("Selector parameter is required"), ClickResult(false, "", ""), [];
      }
      clicked, sent := browser.Click(selector, ArgBool(args, "screenshot", false), run);
      result := ToolText(clicked.ToJson());
    }

    /** `chrome_extract_text`: a selector is required; the texts found, or the failure, come back as JSON. */
    method ExtractText(args: map<string, Json>, run: Runner)
      returns (result: ToolResult, extracted: ExtractTextResult, sent: seq<Run>)
      ensures var selector := ArgString(args, "selector", "");
        && (selector == "" ==> result == ToolError("Selector parameter is required") && sent == [])
        && (selector != "" ==> sent == [Run([QueryTexts(selector)], None)])
        && (selector != "" ==>
              && result == ToolText(extracted.ToJson())
              && extracted == (if run(sent[0]).Failed?
                               then ExtractTextResult([], false, "Text extraction failed: " + run(sent[0]).error)
                               else ExtractTextResult(run(sent[0]).captured.texts, true, "")))
    {
      var selector := ArgString(args, "selector", "");
      if selector == "" {
        return ToolError("Selector parameter is required"), ExtractTextResult([], false, ""), [];
      }
      extracted, sent := browser.ExtractText(selector, run);
      result := ToolText(extracted.ToJson());
    }

    /**
     * `chrome_fill_form`: a non-empty `fields` object is required; the
     * browser then types exactly its string-valued entries, and clicks the
     * submit control exactly when `submit` is set.
     */
    method FillForm(args: map<string, Json>, run: Runner)
      returns (result: ToolResult, filled: FillFormResult, sent: seq<Run>)
      ensures var given := ArgObject(args, "fields");
        var submit := ArgBool(args, "submit", false);
        && (|given| == 0 ==> result == ToolError("Fields parameter is required") && sent == [])
        && (|given| != 0 ==>
              && |sent| == 1 && sent[0].deadline == None
              && (forall k, v :: SendKeys(k, v) in sent[0].actions <==> k in given && given[k] == JStr(v))
              && (ClickOn("input[type='submit']", ByQuery) in sent[0].actions <==> submit))
        && (|given| != 0 ==>
              && result == ToolText(filled.ToJson())
              && (filled.success <==> run(sent[0]).Completed?)
              && filled.message == (if run(sent[0]).Failed? then "Form filling failed: " + run(sent[0]).error
                                    else "Form filled successfully" + (if submit then " and submitted" else "")))
    {
      var given := ArgObject(args, "fields");
      if |given| == 0 {
        return ToolError("Fields parameter is required"), FillFormResult(false, "", ""), [];
      }
      var fields := StringValued(given);
      var submit := ArgBool(args, "submit", false);
      filled, sent := browser.FillForm(fields, submit, run);
      result := ToolText(filled.ToJson());
      TypesStringValuedOnly(given, fields, sent[0].actions, submit);
    }

    /**
     * `session_save`: a name is required; the session captured from the
     * browser is saved under it, and the store's answer is returned.
     */
    method SessionSave(args: map<string, Json>, run: Runner, now: int, fault: Option<string>)
      returns (result: ToolResult, sent: seq<Run>)
      requires store.open && store.Valid()
      modifies browser.sessionData, store
      ensures store.open && store.Valid()
      ensures var name := ArgString(args, "name", "");
        && (name == "" ==>
              result == ToolError("Name parameter is required") && sent == []
              && unchanged(store) && unchanged(browser.sessionData))
        && (name != "" ==> sent == [Run([ReadCookies], None), Run([ReadLocation], None)])
        && (name != "" ==>
              && browser.sessionData.cookies ==
                   (if run(sent[0]).Completed? then run(sent[0]).captured.cookies else old(browser.sessionData.cookies))
              && browser.sessionData.url ==
                   (if run(sent[1]).Completed? then run(sent[1]).captured.location else old(browser.sessionData.url))
              && browser.sessionData.timestamp == now
              && browser.sessionData.userAgent == old(browser.sessionData.userAgent))
        && (name != "" && fault.Some? ==>
              && result == ToolText(JObj(map["success" := JBool(false),
                                              "message" := JStr("Failed to save session: " + fault.value)]))
              && unchanged(store))
        && (name != "" && fault.None? ==>
              && store.sessions == old(store.sessions)[name := Storage.SessionRow(old(store.nextSessionId), name,
                                      Storage.Encoded(browser.sessionData.Snapshot()), now, now)]
              && result == ToolText(JObj(map["success" := JBool(true), "message" := JStr("Session saved successfully"),
                                              "name" := JStr(name)])))
    {
      var name := ArgString(args, "name", "");
      if name == "" {
        return ToolError("Name parameter is required"), [];
      }
      var record;
      record, sent := browser.GetSessionData(run, now);
      var saved := store.SaveSession(name, record, now, fault);
      result := ToolText(JObj(saved));
    }

    /**
     * `session_load`: a name is required; a session that does not load is
     * an error and nothing is restored; a loaded one is restored in one run
     * and the restore's answer is returned.
     */
    method SessionLoad(args: map<string, Json>, run: Runner, fault: Option<string>)
      returns (result: ToolResult, sent: seq<Run>)
      requires store.open
      ensures var name := ArgString(args, "name", "");
        && (name == "" ==> result == ToolError("Name parameter is required") && sent == [])
        && (name != "" && fault.Some? ==>
              result == ToolErrorFromErr("Session load failed", "failed to load session: " + fault.value) && sent == [])
        && (name != "" && fault.None? && name !in store.sessions ==>
              result == ToolErrorFromErr("Session load failed", "session '" + name + "' not found") && sent == [])
        && (name != "" && fault.None? && name in store.sessions && store.sessions[name].data.Undecodable? ==>
              && result == ToolErrorFromErr("Session load failed",
                             "failed to deserialize session data: " + store.sessions[name].data.reason)
              && sent == [])
      ensures var name := ArgString(args, "name", "");
        name != "" && fault.None? && name in store.sessions && store.sessions[name].data.Encoded? ==>
          var record := store.sessions[name].data.record;
          var offset := if record.url != "" then 1 else 0;
          && |sent| == 1 && sent[0].deadline == None
          && |sent[0].actions| == offset + |record.cookies|
          && (record.url != "" ==> sent[0].actions[0] == NavigateTo(record.url))
          && (forall i :: 0 <= i < |record.cookies| ==> sent[0].actions[offset + i] == SetCookieAction(record.cookies[i]))
          && (run(sent[0]).Failed? ==>
                result == ToolText(JObj(map["success" := JBool(false),
                                            "message" := JStr("Session restore failed: " + run(sent[0]).error)])))
          && (run(sent[0]).Completed? ==>
                result == ToolText(JObj(map["success" := JBool(true), "message" := JStr("Session restored successfully"),
                                            "url" := JStr(record.url), "cookies_restored" := JInt(|record.cookies|)])))
    {
      var name := ArgString(args, "name", "");
      if name == "" {
        return ToolError("Name parameter is required"), [];
      }
      var loaded := store.LoadSession(name, fault);
      if loaded.Err? {
        return ToolErrorFromErr("Session load failed", loaded.error), [];
      }
      var restored;
      restored, sent := browser.RestoreSession(loaded.value, run);
      result := ToolText(JObj(restored));
    }

    /**
     * `chrome_screenshot`: with no filename the name is
     * `screenshot_<unix seconds>.png`; the result echoes the path and the name.
     */
    method Screenshot(args: map<string, Json>, run: Runner, now: int, write: Outcome)
      returns (result: ToolResult, sent: seq<Run>)
      ensures sent == [Run([CaptureScreenshot("body")], None)]
      ensures var given := ArgString(args, "filename", "");
        var filename := if given == "" then DefaultScreenshotName(now) else given;
        && (run(sent[0]).Completed? && write.Pass? ==>
              result == ToolText(JObj(map["success" := JBool(true), "message" := JStr("Screenshot saved successfully"),
                                          "file_path" := JStr("screenshots/" + filename), "filename" := JStr(filename)])))
        && (run(sent[0]).Failed? ==> result == ToolErrorFromErr("Screenshot failed", "failed to take screenshot: " + run(sent[0]).error))
        && (run(sent[0]).Completed? && write.Fail? ==>
              result == ToolErrorFromErr("Screenshot failed", "failed to save screenshot: " + write.error))
    {
      var filename := ArgString(args, "filename", "");
      if filename == "" {
        filename := DefaultScreenshotName(now);
      }
      var path;
      path, sent := browser.SaveScreenshot(filename, run, write);
      if path.Err? {
        return ToolErrorFromErr("Screenshot failed", path.error), sent;
      }
      result := ToolText(JObj(map["success" := JBool(true), "message" := JStr("Screenshot saved successfully"),
                                  "file_path" := JStr(path.value), "filename" := JStr(filename)]));
    }

    /**
     * `chrome_wait_for_element`: a selector is required; a timeout that is
     * not positive becomes 10 seconds.
     */
    method WaitForElement(args: map<string, Json>, run: Runner) returns (result: ToolResult, sent: seq<Run>)
      ensures var selector := ArgString(args, "selector", "");
        var given := ArgSeconds(args, "timeout", DefaultWait);
        var timeout := if given <= 0 then DefaultWait else given;
        && (selector == "" ==> result == ToolError("Selector parameter is required") && sent == [])
        && (selector != "" ==> sent == [Run([WaitVisible(selector, BySearch)], Some(timeout))])
        && (selector != "" && run(Run([WaitVisible(selector, BySearch)], Some(timeout))).Failed? ==>
              result == ToolErrorFromErr("Wait failed", run(sent[0]).error))
        && (selector != "" && run(Run([WaitVisible(selector, BySearch)], Some(timeout))).Completed? ==>
              result == ToolText(JObj(map["success" := JBool(true),
                "message" := JStr("Element '" + selector + "' found within " + IntToString(timeout) + " seconds")])))
    {
      var selector := ArgString(args, "selector", "");
      if selector == "" {
        return ToolError("Selector parameter is required"), [];
      }
      var timeout := ArgSeconds(args, "timeout", DefaultWait);
      if timeout <= 0 {
        timeout := DefaultWait;
      }
      var err;
      err, sent := browser.WaitForElement(selector, timeout, run);
      if err.Fail? {
        return ToolErrorFromErr("Wait failed", err.error), sent;
      }
      result := ToolText(JObj(map["success" := JBool(true),
        "message" := JStr("Element '" + selector + "' found within " + IntToString(timeout) + " seconds")]));
    }
  }
}
