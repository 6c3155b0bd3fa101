/**
 * The terminal front end (`App`): a screen state machine driven by key
 * presses. The list and text-input components are not modelled: the menu
 * entry under the cursor and the text input's value after its own update
 * are parameters.
 */
module Cli {
  import opened Common
  import opened BrowserData
  import Browser
  import Storage

  datatype Screen = MenuScreen | NavigateScreen | SessionScreen | LogsScreen | SettingsScreen

  /** The messages the program delivers to `Update`. */
  datatype Msg = WindowSize(width: int, height: int) | KeyPress(key: string) | OtherMsg

  /**
   * The command `Update` hands back to the program: none, quit, the two
   * (empty) loaders, or whatever the updated component asked for.
   */
  datatype Cmd = NoCmd | QuitCmd | LoadSessions | LoadLogs | ComponentCmd

  /** The keys bound to quit, to go back and to select. */
  const QuitKeys: set<string> := {"ctrl+c", "q"}
  const BackKey: string := "esc"
  const EnterKey: string := "enter"

  /** The icon of a logged request: an error, a redirect, or anything else. */
  function StatusIcon(status: int): (icon: string)
    ensures icon == "❌" <==> status >= 400
    ensures icon == "⚠️" <==> 300 <= status < 400
    ensures icon == "✅" <==> status < 300
  {
    if status >= 400 then "❌"
    else if status >= 300 then "⚠️"
    else "✅"
  }

  /** The message shown after a navigation, from the browser's result. */
  function NavigationMessage(r: NavigateResult): (msg: string)
    ensures r.success && r.title == "" ==> msg == "✅ Successfully navigated to " + r.url
    ensures r.success && r.title != "" ==>
      msg == "✅ Successfully navigated to " + r.url + "\n📄 Page title: " + r.title
    ensures !r.success ==> msg == "❌ " + r.message
  {
    if r.success then
      "✅ Successfully navigated to " + r.url + (if r.title != "" then "\n📄 Page title: " + r.title else "")
    else
      "❌ " + r.message
  }

  /**
   * What `init` leaves behind: the browser's error, wrapped, or else the
   * store's; a browser that connected holds its client and context; the
   * store is open exactly when the browser came up and the store got as
   * far as opening its database.
   */
  predicate Initialised(b: Browser.Manager, s: Storage.Manager, browserSetup: Browser.Setup,
                        storeSetup: Storage.StoreSetup, err: Option<string>)
    reads b, s
  {
    var browserErr := Browser.InitError(browserSetup);
    && s.Valid()
    && err == (if browserErr.Some? then Wrapped("failed to initialize browser: ", browserErr)
               else Wrapped("failed to initialize storage: ", Storage.InitError(storeSetup)))
    && (browserSetup.connectionTest.Pass? ==> b.hasClient && b.hasCancel)
    && (s.open <==> browserErr.None? && storeSetup.mkdir.Pass? && storeSetup.openDatabase.Pass?)
  }

  class App {
    var screen: Screen
    var width: int
    var height: int
    var browser: Browser.Manager?
    var storage: Storage.Manager?
    /** The URL text input's value. */
    var urlInput: string
    var message: string
    var lastResult: Option<NavigateResult>

    /** `Start`'s app: the menu screen, no managers yet. */
    constructor ()
      ensures screen == MenuScreen && browser == null && storage == null
      ensures message == "" && urlInput == "" && lastResult == None
    {
      screen := MenuScreen;
      width, height := 0, 0;
      browser, storage := null, null;
      urlInput, message, lastResult := "", "", None;
    }

    /**
     * `init`: creates both managers, then initialises the browser and,
     * only if that succeeds, the store. (The MCP server does these in the
     * other order.)
     */
    method Init(browserSetup: Browser.Setup, storeSetup: Storage.StoreSetup, existing: Storage.Tables)
      returns (err: Option<string>)
      requires Storage.TablesValid(existing)
      modifies this
      ensures browser != null && storage != null && fresh(browser) && fresh(storage)
      ensures screen == old(screen) && message == old(message) && lastResult == old(lastResult)
      ensures Initialised(browser, storage, browserSetup, storeSetup, err)
    {
      var b, s;
      b, s, err := NewComponents(browserSetup, storeSetup, existing);
      browser, storage := b, s;
    }

    /** Both managers, new, initialised in `init`'s order. */
    static method NewComponents(browserSetup: Browser.Setup, storeSetup: Storage.StoreSetup, existing: Storage.Tables)
      returns (b: Browser.Manager, s: Storage.Manager, err: Option<string>)
      requires Storage.TablesValid(existing)
      ensures fresh(b) && fresh(s)
      ensures Initialised(b, s, browserSetup, storeSetup, err)
    {
      b := new Browser.Manager();
      s := new Storage.Manager();
      err := InitBrowser(b, browserSetup);
      if err.Some? {
        return;
      }
      err := InitStore(s, storeSetup, existing);
    }

    /** The browser half of `init`, with its error wrapped. */
    static method InitBrowser(b: Browser.Manager, setup: Browser.Setup) returns (err: Option<string>)
      modifies b
      ensures err == Wrapped("failed to initialize browser: ", Browser.InitError(setup))
      ensures setup.connectionTest.Pass? ==> b.hasClient && b.hasCancel
    {
      var browserErr, _ := b.Init(setup);
      err := Wrapped("failed to initialize browser: ", browserErr);
    }

    /** The store half of `init`, with its error wrapped. */
    static method InitStore(s: Storage.Manager, setup: Storage.StoreSetup, existing: Storage.Tables)
      returns (err: Option<string>)
      requires s.Valid() && !s.open && Storage.TablesValid(existing)
      modifies s
      ensures s.Valid()
      ensures s.open <==> setup.mkdir.Pass? && setup.openDatabase.Pass?
      ensures err == Wrapped("failed to initialize storage: ", Storage.InitError(setup))
    {
      var storeErr := s.Init(setup, existing);
      err := Wrapped("failed to initialize storage: ", storeErr);
    }

    /** `cleanup`: closes the browser and then the store, each only if it exists. */
    method Cleanup(closing: Outcome) returns (steps: seq<Teardown>)
      ensures browser == null && storage == null ==> steps == []
      ensures browser == null && storage != null ==> steps == (if storage.open then [CloseDatabase] else [])
      ensures browser != null ==>
        steps == (if browser.hasClient then [CloseClient] else []) + (if browser.hasCancel then [CancelContext] else [])
                 + (if storage != null && storage.open then [CloseDatabase] else [])
    {
      steps := [];
      if browser != null {
        steps := browser.Close();
      }
      if storage != null {
        var _, closed := storage.Close(closing);
        steps := steps + closed;
      }
    }

    /**
     * `handleMenuAction`: `navigate`, `session`, `logs` and `settings` open
     * their screens (the navigate screen with an empty input), `quit` cleans
     * up and quits, and any other action changes nothing.
     */
    method HandleMenuAction(action: string, closing: Outcome) returns (cmd: Cmd, steps: seq<Teardown>)
      modifies this
      ensures message == old(message) && lastResult == old(lastResult)
      ensures browser == old(browser) && storage == old(storage)
      ensures width == old(width) && height == old(height)
      ensures action != "quit" ==> steps == []
      ensures action == "navigate" ==> screen == NavigateScreen && urlInput == "" && cmd == NoCmd
      ensures action == "session" ==> screen == SessionScreen && urlInput == old(urlInput) && cmd == LoadSessions
      ensures action == "logs" ==> screen == LogsScreen && urlInput == old(urlInput) && cmd == LoadLogs
      ensures action == "settings" ==> screen == SettingsScreen && urlInput == old(urlInput) && cmd == NoCmd
      ensures action == "quit" ==> screen == old(screen) && urlInput == old(urlInput) && cmd == QuitCmd
      ensures action == "quit" ==>
        steps == (if browser != null && browser.hasClient then [CloseClient] else [])
                 + (if browser != null && browser.hasCancel then [CancelContext] else [])
                 + (if storage != null && storage.open then [CloseDatabase] else [])
      ensures action !in {"navigate", "session", "logs", "settings", "quit"} ==>
        screen == old(screen) && urlInput == old(urlInput) && cmd == NoCmd
    {
      steps := [];
      cmd := NoCmd;
      if action == "navigate" {
        screen := NavigateScreen;
        urlInput := "";
      } else if action == "session" {
        screen := SessionScreen;
        cmd := LoadSessions;
      } else if action == "logs" {
        screen := LogsScreen;
        cmd := LoadLogs;
      } else if action == "settings" {
        screen := SettingsScreen;
      } else if action == "quit" {
        steps := Cleanup(closing);
        cmd := QuitCmd;
      }
    }

    /**
     * `handleNavigate`: an empty input only sets the "enter a URL" message;
     * otherwise the browser navigates (waiting for nothing, with a
     * screenshot) and the message and the last result reflect its result.
     */
    method HandleNavigate(run: Browser.Runner) returns (sent: seq<Browser.Run>)
      requires browser != null
      modifies this
      ensures screen == old(screen) && urlInput == old(urlInput)
      ensures browser == old(browser) && storage == old(storage)
      ensures width == old(width) && height == old(height)
      ensures urlInput == "" ==>
        message == "❌ Please enter a URL" && lastResult == old(lastResult) && sent == []
      ensures urlInput != "" ==>
        && sent == [Browser.Run(Browser.NavigateActions(urlInput, "", true), Some(Browser.NavigationDeadline))]
        && lastResult.Some? && lastResult.value.url == urlInput
        && message == NavigationMessage(lastResult.value)
        && (lastResult.value.success <==> run(sent[0]).Completed?)
        && (run(sent[0]).Failed? ==>
              lastResult.value.title == "" && lastResult.value.message == "Navigation failed: " + run(sent[0]).error)
        && (run(sent[0]).Completed? ==>
              && lastResult.value.title == run(sent[0]).captured.title
              && lastResult.value.message == "Navigation successful using existing Chrome session")
    {
      if urlInput == "" {
        message := "❌ Please enter a URL";
        return [];
      }
      var result;
      result, sent := browser.Navigate(urlInput, "", true, run);
      message := NavigationMessage(result);
      lastResult := Some(result);
    }

    /**
     * `Update`: a window size is recorded; a quit key cleans up and quits
     * on every screen; back returns to the menu and clears the message,
     * except on the menu itself; enter selects the menu entry under the
     * cursor or navigates. Anything else goes to the current screen's
     * component: the menu, or the URL input, whose new value is `inputAfter`.
     */
    method Update(msg: Msg, selected: Option<string>, inputAfter: string, run: Browser.Runner, closing: Outcome)
      returns (cmd: Cmd, steps: seq<Teardown>, sent: seq<Browser.Run>)
      requires browser != null
      modifies this
      ensures browser == old(browser) && storage == old(storage)
      ensures !msg.WindowSize? ==> width == old(width) && height == old(height)
      ensures !(msg == KeyPress(EnterKey) && old(screen) == NavigateScreen && old(urlInput) != "") ==>
        lastResult == old(lastResult)
      ensures msg.WindowSize? ==>
        && width == msg.width && height == msg.height && cmd == NoCmd && steps == [] && sent == []
        && screen == old(screen) && message == old(message) && urlInput == old(urlInput)
      ensures msg.KeyPress? && msg.key in QuitKeys ==>
        && cmd == QuitCmd && sent == [] && screen == old(screen) && message == old(message) && urlInput == old(urlInput)
        && steps == (if browser.hasClient then [CloseClient] else []) + (if browser.hasCancel then [CancelContext] else [])
                    + (if storage != null && storage.open then [CloseDatabase] else [])
      ensures msg == KeyPress(BackKey) && old(screen) != MenuScreen ==>
        screen == MenuScreen && message == "" && cmd == NoCmd && steps == [] && sent == [] && urlInput == old(urlInput)
      ensures msg == KeyPress(BackKey) && old(screen) == MenuScreen ==>
        screen == MenuScreen && message == old(message) && cmd == ComponentCmd && steps == [] && sent == []
        && urlInput == old(urlInput)
      ensures msg == KeyPress(EnterKey) && old(screen) == NavigateScreen ==>
        && screen == NavigateScreen && steps == [] && cmd == NoCmd && urlInput == old(urlInput)
        && (old(urlInput) == "" <==> message == "❌ Please enter a URL" && sent == [])
        && (old(urlInput) == "" ==> lastResult == old(lastResult))
        && (old(urlInput) != "" ==>
              && sent == [Browser.Run(Browser.NavigateActions(old(urlInput), "", true), Some(Browser.NavigationDeadline))]
              && lastResult.Some? && lastResult.value.url == old(urlInput)
              && message == NavigationMessage(lastResult.value)
              && (lastResult.value.success <==> run(sent[0]).Completed?)
              && (run(sent[0]).Failed? ==>
                    && lastResult.value.title == ""
                    && lastResult.value.message == "Navigation failed: " + run(sent[0]).error)
              && (run(sent[0]).Completed? ==>
                    && lastResult.value.title == run(sent[0]).captured.title
                    && lastResult.value.message == "Navigation successful using existing Chrome session"))
      ensures msg == KeyPress(EnterKey) && old(screen) == MenuScreen && selected.Some? ==>
        var action := selected.value;
        && sent == [] && message == old(message) && lastResult == old(lastResult)
        && (action != "quit" ==> steps == [])
        && (action == "navigate" ==> screen == NavigateScreen && urlInput == "" && cmd == NoCmd)
        && (action == "session" ==> screen == SessionScreen && urlInput == old(urlInput) && cmd == LoadSessions)
        && (action == "logs" ==> screen == LogsScreen && urlInput == old(urlInput) && cmd == LoadLogs)
        && (action == "settings" ==> screen == SettingsScreen && urlInput == old(urlInput) && cmd == NoCmd)
        && (action == "quit" ==>
              && screen == MenuScreen && urlInput == old(urlInput) && cmd == QuitCmd
              && steps == (if browser.hasClient then [CloseClient] else []) + (if browser.hasCancel then [CancelContext] else [])
                          + (if storage != null && storage.open then [CloseDatabase] else []))
        && (action !in {"navigate", "session", "logs", "settings", "quit"} ==>
              screen == MenuScreen && urlInput == old(urlInput) && cmd == NoCmd)
      ensures msg == KeyPress(EnterKey) && old(screen) == MenuScreen && selected.None? ==>
        screen == MenuScreen && cmd == NoCmd && steps == [] && sent == [] && message == old(message)
        && urlInput == old(urlInput)
      ensures msg == KeyPress(EnterKey) && old(screen) in {SessionScreen, LogsScreen, SettingsScreen} ==>
        screen == old(screen) && message == old(message) && cmd == NoCmd && steps == [] && sent == []
        && urlInput == old(urlInput)
      ensures (msg.OtherMsg? || (msg.KeyPress? && msg.key !in QuitKeys && msg.key != BackKey && msg.key != EnterKey)) ==>
        && screen == old(screen) && message == old(message) && steps == [] && sent == []
        && urlInput == (if old(screen) == NavigateScreen then inputAfter else old(urlInput))
        && cmd == (if old(screen) in {MenuScreen, NavigateScreen} then ComponentCmd else NoCmd)
    {
      steps, sent := [], [];
      if msg.WindowSize? {
        width, height := msg.width, msg.height;
        return NoCmd, steps, sent;
      }
      if msg.KeyPress? {
        if msg.key in QuitKeys {
          steps := Cleanup(closing);
          return QuitCmd, steps, sent;
        }
        if msg.key == BackKey && screen != MenuScreen {
          screen := MenuScreen;
          message := "";
          return NoCmd, steps, sent;
        }
        if msg.key == EnterKey {
          cmd := NoCmd;
          if screen == MenuScreen && selected.Some? {
            cmd, steps := HandleMenuAction(selected.value, closing);
          } else if screen == NavigateScreen {
            sent := HandleNavigate(run);
          }
          return;
        }
      }
      // Unhandled messages go to the current screen's component.
      cmd := NoCmd;
      if screen == MenuScreen {
        cmd := ComponentCmd;
      } else if screen == NavigateScreen {
        urlInput := inputAfter;
        cmd := ComponentCmd;
      }
    }
  }
}
