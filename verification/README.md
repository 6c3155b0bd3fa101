# mcp-chromautomation, modelled in Dafny

mcp-chromautomation is a Model Context Protocol (MCP) server that lets an AI
client drive a Chrome browser the operator already has running. It attaches
over the DevTools debug port and exposes browser tools: navigate, click,
extract text, fill forms, sessions, screenshots and waits. It keeps sessions,
a request log and screenshot metadata in a local SQLite database. The same
managers also back a terminal UI.

This project models the program's core in Dafny:

- **The legacy browser manager** (`Browser`, `browser_manager.dfy`). It finds
  a debug port, attaches, and drives the tab with chromedp action lists.
- **The enhanced browser manager** (`EnhancedBrowser`, `enhanced_manager.dfy`).
  It does the same through individual browserhttp client calls, and adds
  analysis calls: performance, SEO, security, links and local storage.
- **The SQLite store** (`Storage`, `storage.dfy`, with the query helpers in
  `sql_rows.dfy`).
- **The two MCP servers** (`Server`, `EnhancedServer`). Each one starts up
  and tears down its components, and its tool handlers check arguments and
  report results.
- **The terminal UI's state machine** (`Cli`).

The browser, the database driver, the file system and the clock are not
part of the model. Each one's answers are a parameter:

- A legacy run of actions gets the attached tab's answer from a `Runner`.
- Each enhanced call gets its answer from a `Client` value.
- Each SQL statement gets an optional fault, and each row scan gets a
  `scanOk` predicate.
- `now` is the clock.

Every browser operation also returns what it sent to the browser: the
chromedp runs (`sent`) or the client calls (`calls`). So "a rejected argument
reaches no browser" or "no submit is clicked after a failed field" is part of
a contract.

Modules:

- `common.dfy`: results, outcomes, JSON values, error wrapping, number
  formatting.
- `base64.dfy`: the standard base 64 encoding of screenshot bytes (RFC 4648,
  section 4).
- `browser_data.dfy`: the cookie conversions and the session record.

## Model

| member | source | states |
|---|---|---|
| Browser.IsDebugPortAvailable | internal/browser/manager.go:152-160 | a debug URL counts as live exactly when `GET <url>/json` answers status 200; a transport error counts as not live |
| Browser.InitError | internal/browser/manager.go:72-113 | initialisation reports no error exactly when both the connection test and creating the screenshots directory succeed; a failed connection test yields the connection-failure message |
| Browser.ConnectFailure | internal/browser/manager.go:91-93 | the connection error names its cause and ends with the command that starts Chrome with a debug port |
| Browser.NavigateActions | internal/browser/manager.go:205-223 | a navigation goes to the URL, waits for `body`, reads the title, then waits for the `wait_for` element only if one is given, and captures a screenshot last exactly when one is asked for |
| Browser.Manager.constructor | internal/browser/manager.go:65-69 | a new manager holds no context, cancel function or client, and has an empty session record |
| Browser.Manager.ConnectToExistingChrome | internal/browser/manager.go:116-149 | ports 9222, 9223 and 9224 are probed in order; the first port that is live and verifies is the one attached, and no later port is probed; when none qualifies, all three were probed and nothing attaches |
| Browser.Manager.Init | internal/browser/manager.go:72-113 | the context is the first qualifying debug URL, or `http://localhost:9222`; the ports probed are those up to and including that one, or all three; a cancel function is always held; the error is the connection error or the directory error; a passed connection test installs the client |
| Browser.Manager.Close | internal/browser/manager.go:188-195 | the client is closed if one is held, then the context is cancelled if a cancel function is held |
| Browser.Manager.Navigate | internal/browser/manager.go:198-253 | exactly one run is sent, with the 30 second deadline; success iff the run completes; a failure carries "Navigation failed: " and the cause; on success the title is the page's and a screenshot is present exactly when one was asked for and bytes came back |
| Browser.Manager.Click | internal/browser/manager.go:256-287 | one run clicks the selector and captures a screenshot if asked; a failure carries "Click failed: " and the cause; on success a screenshot is present exactly when asked for and captured |
| Browser.Manager.ExtractText | internal/browser/manager.go:290-306 | one run queries the selector's texts; the result is the captured texts on success and empty with "Text extraction failed: " and the cause on failure |
| Browser.Manager.TypeFields | internal/browser/manager.go:315-320 | one key-sending action per field, each typing that field's own value, each selector once, and every field covered |
| Browser.Manager.FillForm | internal/browser/manager.go:309-349 | a single run types every field exactly once with its value, followed by a click on the first submit control only when submitting; success iff the run completes, with "Form filling failed: " and the cause otherwise and " and submitted" added when submitting |
| Browser.Manager.GetSessionData | internal/browser/manager.go:352-370 | cookies are read in one run and the location in another; each field is updated only when its run completes; the timestamp is now and the user agent is kept |
| Browser.Manager.RestoreSession | internal/browser/manager.go:373-405 | one run navigates to the saved URL when there is one, then sets every saved cookie in order; the result reports success with the URL and the number of cookies restored, or failure with the cause |
| Browser.Manager.WaitForElement | internal/browser/manager.go:419-424 | one run waits for the element to be visible, with the timeout as its deadline; it fails exactly when that run fails, with the run's error |
| Browser.Manager.SaveScreenshot | internal/browser/manager.go:426-439 | the path is `screenshots/<filename>` exactly when the capture and the file write both succeed; otherwise it is the capture error or the write error, each named |
| Base64.Encode | internal/browser/manager.go:239-241 | every three bytes become four characters (a padded group for a short tail), and the encoding is empty only for no bytes |
| BrowserData.ToHttpCookie | internal/browser/enhanced_manager.go:227-238 | a saved cookie sent to the HTTP client keeps its name, value and path; its domain and flags are dropped |
| BrowserData.ToNetworkCookie | internal/browser/enhanced_manager.go:196-206 | a cookie read from the HTTP client keeps its name, value and path; domain and flags come back empty |
| BrowserData.CookieRoundTrip | internal/browser/enhanced_manager.go:196-238 | a restore followed by a read gives back each cookie's name, value and path; it gives back the same cookies exactly when none of them had a domain or a flag set |
| BrowserData.SessionData.constructor | internal/browser/manager.go:65-69 | a new session record is empty |
| EnhancedBrowser.EnhancedManager.constructor | internal/browser/enhanced_manager.go:25-29 | a new enhanced manager has no client and an empty session record |
| EnhancedBrowser.EnhancedManager.Init | internal/browser/enhanced_manager.go:32-52 | the client is created anyway; the error is the screenshots-directory error, else the client-initialisation error, and there is none exactly when both steps succeed |
| EnhancedBrowser.EnhancedManager.Close | internal/browser/enhanced_manager.go:55-62 | the client is closed if one is held |
| EnhancedBrowser.EnhancedManager.Navigate | internal/browser/enhanced_manager.go:65-103 | the first call fetches the URL; success iff the fetch succeeds, and the title is the page's; a failed fetch makes no further call; the `wait_for` element is waited for 10 seconds, and its outcome is noted in the message without turning success into failure |
| EnhancedBrowser.EnhancedManager.Click | internal/browser/enhanced_manager.go:106-125 | one click call; the result reports its failure, or success with a screenshot marker when asked |
| EnhancedBrowser.EnhancedManager.ExtractText | internal/browser/enhanced_manager.go:128-145 | one extraction call; success iff it answers, with the texts and their count in the message |
| EnhancedBrowser.EnhancedManager.TypeFields | internal/browser/enhanced_manager.go:154-160 | fields are typed one at a time, each once; typing stops at the first field that fails, and that field and its error are reported; no failure iff every field types |
| EnhancedBrowser.EnhancedManager.TrySubmit | internal/browser/enhanced_manager.go:167-181 | the four submit controls are tried in order until the first one that clicks; submitted iff one clicks, and no later control is tried |
| EnhancedBrowser.EnhancedManager.FinishForm | internal/browser/enhanced_manager.go:162-186 | without submit nothing is clicked; with submit, the clicks are the submit attempts up to the first that works, and the message says submitted or "submit button not found" |
| EnhancedBrowser.EnhancedManager.FillForm | internal/browser/enhanced_manager.go:148-189 | success iff every field types; only given fields are typed, with their values; typing stops at the first field that fails: each field is typed at most once, every earlier typing passed, no submit attempt follows, and the message names that field; on success every field is typed before any submit click, followed by exactly the submit attempts up to the first that clicks, with the matching message |
| EnhancedBrowser.EnhancedManager.GetSessionData | internal/browser/enhanced_manager.go:192-217 | the cookies are read and then the location; each is updated only when its call answers, and the cookies are converted; the timestamp is now |
| EnhancedBrowser.EnhancedManager.RestoreSession | internal/browser/enhanced_manager.go:220-257 | all cookies are set in one call, and the saved URL is visited only after that succeeds; success iff both succeed, with the URL and the cookie count; each failure is reported with its own message |
| EnhancedBrowser.EnhancedManager.WaitForElement | internal/browser/enhanced_manager.go:391-394 | one wait call with the given seconds; its outcome is the result |
| EnhancedBrowser.EnhancedManager.PostJson | internal/browser/enhanced_manager.go:397-414 | one POST call; success iff it succeeds; the message says so or carries the cause |
| EnhancedBrowser.EnhancedManager.SaveScreenshot | internal/browser/enhanced_manager.go:379-388 | the path is the file name under `screenshots/` |
| EnhancedBrowser.PerformanceMetrics | internal/browser/enhanced_manager.go:260-275 | the metrics map has exactly the five metric keys: the three durations as whole milliseconds truncated toward zero, the request count and the resource sizes as reported; or the wrapped metrics error |
| EnhancedBrowser.AnalyzeSeo | internal/browser/enhanced_manager.go:278-293 | the report has exactly the five SEO keys, holding the page title, description, keywords, headings and images as reported; or the wrapped SEO error |
| EnhancedBrowser.CheckSecurity | internal/browser/enhanced_manager.go:296-331 | CSP, then SSL, then vulnerabilities are checked, stopping at the first failure with that check's wrapped error; success iff all three answer, with exactly the three reports: the CSP directives and violations, the certificate's validity, issuer, subject, expiration and errors, and the vulnerability list |
| EnhancedBrowser.ExtractImages | internal/browser/enhanced_manager.go:340-353 | the list holds the single placeholder image |
| EnhancedBrowser.ExtractForms | internal/browser/enhanced_manager.go:355-367 | the list holds the single placeholder POST form |
| EnhancedBrowser.ConvertToNetwork | internal/browser/enhanced_manager.go:196-206 | the cookie loop converts each cookie in order, which is the cookie conversion of the whole list |
| EnhancedBrowser.ConvertToHttp | internal/browser/enhanced_manager.go:227-238 | the cookie loop converts each saved cookie in order, which is the conversion of the whole list |
| EnhancedBrowser.TypedThenClicked | internal/browser/enhanced_manager.go:148-189 | when every field is typed, the calls are one typing per field, with its value, followed by the submit clicks only |
| EnhancedBrowser.TypedFromFields | internal/browser/enhanced_manager.go:154-160 | whatever prefix of the fields was typed, no call types a value that is not a given field's |
| Storage.InitError | internal/storage/manager.go:67-87 | the store reports no error exactly when the data directory, the database and the tables are all created |
| Storage.Listed | internal/storage/manager.go:204-215 | a listed session keeps the row's id, name, creation and update times, and has data exactly when the stored text decodes, and then that data |
| Storage.SessionTable | internal/storage/manager.go:192 | the query reads every session row exactly once, and only rows filed under their own name |
| Storage.ScanSessions | internal/storage/manager.go:199-216 | the row loop lists exactly the rows that scan, in query order |
| Storage.CollectExpired | internal/storage/manager.go:325-338 | the files collected for removal are those of the screenshots older than the cutoff that scan, in table order |
| Storage.ListingOfTable | internal/storage/manager.go:191-219 | a listing is newest first, holds a session exactly when its row scans, and each entry is the entry of the row under its name |
| Storage.ListedOnce | internal/storage/manager.go:191-219 | a sessions table holding each name once lists each name at most once |
| Storage.WhereOfWhere | internal/storage/manager.go:325-338 | selecting the old screenshots and then the readable ones selects the expired ones |
| Storage.Manager.constructor | internal/storage/manager.go:57-64 | a new store has no database handle and empty tables |
| Storage.Manager.Init | internal/storage/manager.go:67-87 | failing to create the directory or open the database leaves the store as it was; once opened, the store holds the database's contents, even when creating tables then fails |
| Storage.Manager.Close | internal/storage/manager.go:90-95 | the database is closed only when a handle is held, and its answer is returned |
| Storage.Manager.SaveSession | internal/storage/manager.go:144-167 | a save replaces the session under the name, or adds it, with a new id, the current record and both times now; no other row changes; a failure changes nothing and is reported in the result |
| Storage.Manager.LoadSession | internal/storage/manager.go:170-188 | a load succeeds exactly when the name is stored and its data decodes, and then gives back that record; otherwise it reports the query error, "not found" or the decode error |
| Storage.Manager.ListSessions | internal/storage/manager.go:191-219 | the listing is newest first; it holds every stored session whose row scans and nothing else, each name at most once |
| Storage.Manager.DeleteSession | internal/storage/manager.go:222-235 | deleting a stored name removes exactly that row; an absent name is "not found" and changes nothing |
| Storage.Manager.LogRequest | internal/storage/manager.go:238-248 | one log row is appended with the next id, the duration in milliseconds and the time now; nothing else changes |
| Storage.Manager.GetRequestLogs | internal/storage/manager.go:251-273 | the query hands over exactly `limit` logs (all when negative or fewer), newest first, leaving out none newer than one it hands over; the result is the readable ones among them, in that order, so at most `limit` logs, none more often than stored, and a readable log is left out only when every log returned is at least as new |
| Storage.Manager.SaveScreenshot | internal/storage/manager.go:276-286 | one screenshot row is appended with the next id and the time now; nothing else changes |
| Storage.Manager.GetScreenshots | internal/storage/manager.go:289-312 | the query hands over exactly `limit` screenshot rows (all when negative or fewer), newest first, leaving out none newer than one it hands over; the result is the readable ones among them, in that order, so none more often than stored, and a readable row is left out only when every row returned is at least as new |
| Storage.Manager.CleanupOldData | internal/storage/manager.go:315-352 | logs older than the cutoff are deleted, then the files of old screenshots are removed, then their rows are deleted; a failing step stops the cleanup and keeps the steps before it; nothing else changes |
| Storage.Manager.DeleteOldLogs | internal/storage/manager.go:319-322 | exactly the logs older than the cutoff are removed |
| Storage.Manager.DeleteOldScreenshots | internal/storage/manager.go:346-349 | exactly the screenshot rows older than the cutoff are removed |
| Storage.Manager.GetStats | internal/storage/manager.go:355-380 | the three counts are always present, each 0 when its query fails; the database size is present exactly when the file can be read |
| SqlRows.SortNewestFirst | internal/storage/manager.go:192 | `ORDER BY … DESC`: the rows are the same multiset, newest first |
| SqlRows.InsertNewestFirst | internal/storage/manager.go:192 | inserting one row into a newest-first list keeps it newest first and adds exactly that row |
| SqlRows.Limit | internal/storage/manager.go:253 | `LIMIT n` keeps a prefix of at most n rows, and all rows when n is negative |
| SqlRows.Where | internal/storage/manager.go:319 | a filter keeps exactly the rows that pass, in order |
| SqlRows.ReadRows | internal/storage/manager.go:261-270 | the scan loop keeps exactly the readable rows in order |
| SqlRows.WhereKeepsOrder | internal/storage/manager.go:191-219 | skipping rows keeps a newest-first list newest first |
| SqlRows.SelectNewest | internal/storage/manager.go:251-273 | a sorted, limited, scanned query returns newest first, within the limit, only readable table rows, all of them when there is no limit, and leaves out only rows no newer than those returned; when every row is readable it returns exactly `limit` rows (all of them when fewer) |
| SqlRows.LimitedRead | internal/storage/manager.go:252-258 | a newest-first query with a limit hands over newest first, rows of the table, exactly `limit` of them when there are more (all otherwise), and leaves out no row newer than one it hands over |
| SqlRows.CutRowsAreOlder | internal/storage/manager.go:252-253 | the rows a limit cuts from a newest-first list are no newer than any row it keeps |
| SqlRows.SelectedFewer | internal/storage/manager.go:251-273 | a sorted, limited, scanned query returns no row more often than the table holds it |
| SqlRows.WhereFewer | internal/storage/manager.go:259-272 | skipping unreadable rows returns no row more often than the query read it |
| SqlRows.LeftOutIsOlder | internal/storage/manager.go:251-273 | a row the limit leaves out is no newer than any row returned |
| Server.ArgString | internal/server/server.go:175 | a string argument is read when present and a string, and the default is used otherwise |
| Server.ArgBool | internal/server/server.go:181 | a boolean argument is read when present and a boolean, and the default is used otherwise |
| Server.ArgSeconds | internal/server/server.go:315 | a numeric timeout is read when present and numeric, and the default is used otherwise |
| Server.ArgObject | internal/server/server.go:227 | an object argument is read when present and an object; otherwise it is empty |
| Server.StringValued | internal/server/server.go:232-238 | exactly the string-valued entries of the fields object are kept, with their values |
| Server.TypesStringValuedOnly | internal/server/server.go:226-249 | `chrome_fill_form` types a value into a selector exactly when the fields object maps that selector to that string, and clicks the submit control exactly when submitting |
| Server.ServeError | internal/server/server.go:68-71 | serving reports an error exactly when serving fails |
| Server.StartStorage | internal/server/server.go:54-57 | the store's error comes back wrapped; without one the store is open |
| Server.ChromeServer.constructor | internal/server/server.go:24-48 | the server owns a fresh browser manager and a fresh, unopened store |
| Server.ChromeServer.Start | internal/server/server.go:51-74 | the store is initialised first, and the browser only if the store succeeds; either error is wrapped and stops start-up with nothing to close; after serving, the client, the context and the database are closed in that order |
| Server.ChromeServer.ServeAndClose | internal/server/server.go:63-73 | whatever serving returns, the client, the context and then the database are closed |
| Server.ChromeServer.Navigate | internal/server/server.go:173-192 | a missing url is rejected without reaching the browser; otherwise one run navigates to the url (waiting for `wait_for`, screenshotting exactly when asked, under the navigation deadline) and the manager's result is returned: the url, success iff the run completes, the page title, the success or failure message, and a screenshot exactly when one was asked for and captured |
| Server.ChromeServer.Click | internal/server/server.go:194-209 | a missing selector is rejected without reaching the browser; otherwise one run clicks it (then screenshots when asked), and the result reports success iff the run completes, with the success or failure message, and a screenshot exactly when one was asked for and captured |
| Server.ChromeServer.ExtractText | internal/server/server.go:211-224 | a missing selector is rejected without reaching the browser; otherwise one run queries its texts, and the result holds the texts found on success, or no texts and the failure message |
| Server.ChromeServer.FillForm | internal/server/server.go:226-249 | an empty or missing fields object is rejected without reaching the browser; otherwise a single run types exactly the string-valued fields and clicks the submit control exactly when `submit` is set; success iff the run completes, with the matching message |
| Server.ChromeServer.SessionSave | internal/server/server.go:251-265 | a missing name is rejected, and neither browser nor store is touched; otherwise the cookies and URL are read in two runs (each kept only when its run completes, the time refreshed); a store failure is reported in the result and changes no row; otherwise the session is stored under the name, replacing only that entry |
| Server.ChromeServer.SessionLoad | internal/server/server.go:267-285 | a missing name, a failed query, an unknown name or data that does not decode is reported without reaching the browser; a stored session is restored with one run that navigates to its URL (when it has one) and then sets each cookie in order; the result reports the restore's failure, or the URL and the number of cookies |
| Server.ChromeServer.Screenshot | internal/server/server.go:287-307 | without a filename the name is `screenshot_<unix seconds>.png`; the result gives the saved path and name, or the capture or write error |
| Server.ChromeServer.WaitForElement | internal/server/server.go:309-333 | a missing selector is rejected; a timeout that is not positive becomes 10 seconds; the result says the element was found within that many seconds, or carries the wait's error |
| EnhancedServer.StringArray | internal/server/enhanced_server.go:281-285 | a list of strings becomes a JSON array of the same strings in order |
| EnhancedServer.ObjectArray | internal/server/enhanced_server.go:297-301 | a list of objects becomes a JSON array of the same objects in order |
| EnhancedServer.EnhancedChromeServer.constructor | internal/server/enhanced_server.go:25-51 | the server owns fresh enhanced and legacy managers and a fresh, unopened store |
| EnhancedServer.EnhancedChromeServer.InitBrowsers | internal/server/enhanced_server.go:62-67 | the legacy manager is initialised exactly when the enhanced one fails, and only its error is reported, wrapped |
| EnhancedServer.EnhancedChromeServer.Start | internal/server/enhanced_server.go:54-81 | the store first, then the enhanced browser with the legacy fallback; a store error stops start-up before any browser is touched; after serving, both browsers and then the database are closed |
| EnhancedServer.EnhancedChromeServer.ServeAndClose | internal/server/enhanced_server.go:69-80 | whatever serving returns, the enhanced client, then the legacy client and context if held, then the database are closed |
| EnhancedServer.EnhancedChromeServer.TrackPerformance | internal/server/enhanced_server.go:234-239 | the metrics are read exactly when tracking is asked for, and the load time is noted only when they are available |
| EnhancedServer.EnhancedChromeServer.Navigate | internal/server/enhanced_server.go:218-243 | a missing url is rejected without reaching the browser; otherwise the url is fetched, then the `wait_for` selector is waited for only after a successful fetch, then metrics are read exactly when tracking is asked for; the result is the manager's (the fetched title, the screenshot marker when asked, the success message with the wait's outcome, or the fetch error), with the load time appended when the metrics are available |
| EnhancedServer.EnhancedChromeServer.FillForm | internal/server/enhanced_server.go:245-273 | an empty fields object is rejected without reaching the browser; success iff every string field types, and only given values are typed; on success every string field is typed; a failure types each field at most once, every earlier typing passed, and the message names the field that failed; after full typing come exactly the submit attempts up to the first that clicks, with the matching message; the validation note is appended when validating and submitting |
| EnhancedServer.EnhancedChromeServer.ExtractLinks | internal/server/enhanced_server.go:275-289 | the links and their count, or the extraction error |
| EnhancedServer.EnhancedChromeServer.ExtractImages | internal/server/enhanced_server.go:291-305 | the placeholder images, with a count equal to their number |
| EnhancedServer.EnhancedChromeServer.ExtractForms | internal/server/enhanced_server.go:307-321 | the placeholder forms, with a count equal to their number |
| EnhancedServer.EnhancedChromeServer.AnalyzeSeo | internal/server/enhanced_server.go:323-336 | the whole SEO report under `seo`, or the wrapped SEO error |
| EnhancedServer.EnhancedChromeServer.GetPerformance | internal/server/enhanced_server.go:338-351 | the whole metrics report under `performance`, or the wrapped metrics error |
| EnhancedServer.EnhancedChromeServer.CheckSecurity | internal/server/enhanced_server.go:353-366 | the three reports under `security` exactly when all three checks answer; otherwise the first failing check's error |
| EnhancedServer.EnhancedChromeServer.PostJson | internal/server/enhanced_server.go:368-386 | a missing url or an empty data object is rejected without reaching the browser; otherwise one POST is made and the result is the url, success iff the POST passes, and the success message or the POST's error |
| EnhancedServer.EnhancedChromeServer.WaitAdvanced | internal/server/enhanced_server.go:388-414 | a selector or a text is required; only a selector is waited for, with the given timeout (10 seconds unless given); a text alone succeeds at once |
| EnhancedServer.EnhancedChromeServer.GetLocal | internal/server/enhanced_server.go:416-435 | a missing key is rejected without reaching the browser; otherwise the stored value comes back with its key, or the error |
| EnhancedServer.EnhancedChromeServer.SetLocal | internal/server/enhanced_server.go:437-459 | a missing key is rejected without reaching the browser; a missing value is stored as empty; the result echoes key and value, or carries the error |
| EnhancedServer.EnhancedChromeServer.ClearSession | internal/server/enhanced_server.go:461-474 | one call clears the cookies; the result says so, or carries its error |
| Cli.StatusIcon | internal/cli/app.go:365-370 | an error icon exactly for status 400 and above, a warning exactly for 300 to 399, a check mark exactly below 300 |
| Cli.NavigationMessage | internal/cli/app.go:275-283 | success names the URL and adds the title when there is one; failure shows the browser's message |
| Cli.App.constructor | internal/cli/app.go:86-100 | the app starts on the menu with no managers and empty input and message |
| Cli.App.Init | internal/cli/app.go:113-152 | both managers are created fresh; the browser is initialised first, and the store only if the browser succeeds; the first error is wrapped, and the screen, message and last result are kept |
| Cli.App.NewComponents | internal/cli/app.go:115-124 | the browser is initialised before the store, and the store is opened only when the browser succeeded |
| Cli.App.InitBrowser | internal/cli/app.go:118-120 | the browser's initialisation error comes back wrapped, and a passed connection test leaves it connected |
| Cli.App.InitStore | internal/cli/app.go:122-124 | the store's initialisation error comes back wrapped; the store is open exactly when the directory and the database were created |
| Cli.App.Cleanup | internal/cli/app.go:419-426 | the browser is closed and then the store, each only when present and holding a resource |
| Cli.App.HandleMenuAction | internal/cli/app.go:239-260 | navigate, session, logs and settings open their screens (navigate with an empty input; session and logs ask for their data); quit runs the cleanup steps and quits; any other action changes nothing |
| Cli.App.HandleNavigate | internal/cli/app.go:263-287 | an empty URL only asks for a URL; otherwise one navigation to that URL (waiting for nothing, with a screenshot) is sent, recorded as the last result with success iff it completed, the page title or the failure text, and the message shown is that result's |
| Cli.App.Update | internal/cli/app.go:168-205 | a window size is recorded; a quit key cleans up and quits on every screen; back returns to the menu and clears the message; enter on the menu performs the selected action (each menu action's screen, command and cleanup); enter on the URL screen asks for a URL when it is empty, or navigates once and records and shows the navigation's result; other input goes to the current screen's component; the size, the last result and the URL input change only where those cases say |
| Common.Wrapped | internal/server/server.go:55-61 | a wrapped error exists exactly when the cause does, and starts with the context and ends with the cause |
| Common.FirstIndex | internal/browser/manager.go:120-146 | the first position that qualifies, with none before it; none exactly when no position qualifies |
| Common.KeyOrder | internal/browser/manager.go:315 | iterating over a map visits every key exactly once, in some order |
| Common.IntToString | internal/server/server.go:328 | decimal formatting: digits, with a leading minus sign for negatives |
| Common.ParseNatToString | internal/browser/enhanced_manager.go:142 | the decimal text of a count reads back as that count |
| Common.Milliseconds | internal/storage/manager.go:242 | a duration in nanoseconds becomes whole milliseconds, truncated toward zero |

## Left out

- Concurrency and logging. The background goroutine that confirms the enhanced client, and every `log` line, are not modelled.
- MCP tool registration (`registerTools`, the `register*` helpers), `ServeStdio` itself and the program loop of the terminal UI are not modelled. Serving is an outcome passed to `Start`.
- Rendering: `View` and the `*View` functions of the terminal UI, apart from the status-icon rule.
- The internals of the list and text-input components. The menu entry under the cursor and the input's value after its own update are parameters of `Update`.
- `loadSessions` and `loadLogs` return nil messages; they are the `LoadSessions`/`LoadLogs` commands only.
- `GetLastError`, `PostWithJSON` and `GetWithCustomHeaders`: they have no caller in the core and are trivial delegations or stubs.
- EnhancedBrowser.GetLocalStorage, EnhancedBrowser.SetLocalStorage and EnhancedBrowser.ClearSession are plain delegations to the client; their contracts are stated by the handlers that use them (`GetLocal`, `SetLocal`, `ClearSession`).
- Base64.Encode: only the length and emptiness of the encoding are stated; there is no decoder in the source to state a round trip against.
- Server.ArgSeconds: MCP argument coercion of non-numeric values is not modelled. Timeouts are whole seconds here, where the source accepts a float number of seconds.
- Server.ArgString, Server.ArgBool, Server.ArgObject: the MCP library's coercion of values of another JSON type is not modelled; such a value gives the default.
- The Go errors that are always nil (legacy and enhanced Navigate, Click, FillForm, RestoreSession, SaveSession) are dropped from the signatures. So are the handlers' "… failed" branches that only such an error could reach, and the terminal UI's "Navigation failed: %v" message.
- `filepath.Join` cleaning of screenshot paths: a path is `screenshots/` followed by the name as given.
- Integer widths: `int64` sizes and durations are unbounded integers.
- JSON marshalling is modelled as a tree of values, not as text. `%v`/`%.0f` formatting is modelled only where the text is part of a contract.
- SQLite `DATETIME` values are whole seconds compared as numbers, not as text. The details of `createTables`' statements are one outcome.
- The order in which a Go map is iterated is left unspecified: any order is allowed.
- Storage.Manager.CleanupOldData: removing a screenshot file may fail and is ignored; the files are only reported, since the file system is not modelled.
- Storage.Manager.SaveSession: a failure to marshal the session record is not modelled, since a record always marshals.
- Browser.Manager.Init: the allocator context that the stored browser context is derived from is cancelled straight after the derivation (internal/browser/manager.go:87 on the fallback path, internal/browser/manager.go:138 after a successful probe). In Go that cancels the derived context too, so the connection test and later runs on it would see a cancelled context. The model treats the held context as live and leaves each run's outcome to the runner; it does not capture that effect.
