/**
 * The data both browser managers share: the two cookie shapes (the
 * DevTools protocol's `network.Cookie` and Go's `http.Cookie`), the session
 * record a manager keeps and mutates in place, its value snapshot (what is
 * serialised into storage), and the result records of the capabilities.
 */
module BrowserData {
  import opened Common

  /** `network.Cookie`: the fields of it the code reads or writes. */
  datatype NetworkCookie = NetworkCookie(
    name: string, value: string, domain: string, path: string, secure: bool, httpOnly: bool)

  /** `http.Cookie`: the fields of it the code reads or writes. */
  datatype HttpCookie = HttpCookie(
    name: string, value: string, path: string, domain: string, secure: bool, httpOnly: bool)

  /**
   * The enhanced manager's conversion when restoring: only Name, Value and
   * Path are copied; Domain, Secure and HttpOnly (section 4.1.2 of RFC 6265)
   * take their zero values.
   */
  function ToHttpCookie(c: NetworkCookie): (h: HttpCookie)
    ensures h.name == c.name && h.value == c.value && h.path == c.path
    ensures h.domain == "" && !h.secure && !h.httpOnly
  {
    HttpCookie(c.name, c.value, c.path, "", false, false)
  }

  /** The enhanced manager's conversion when capturing: the same three fields are copied. */
  function ToNetworkCookie(h: HttpCookie): (c: NetworkCookie)
    ensures c.name == h.name && c.value == h.value && c.path == h.path
    ensures c.domain == "" && !c.secure && !c.httpOnly
  {
    NetworkCookie(h.name, h.value, "", h.path, false, false)
  }

  /** A cookie that has no attribute the conversions drop. */
  predicate Plain(c: NetworkCookie) {
    c.domain == "" && !c.secure && !c.httpOnly
  }

  function ToHttpCookies(cs: seq<NetworkCookie>): (hs: seq<HttpCookie>)
    ensures |hs| == |cs|
    ensures forall i :: 0 <= i < |cs| ==> hs[i] == ToHttpCookie(cs[i])
  {
    if cs == [] then [] else [ToHttpCookie(cs[0])] + ToHttpCookies(cs[1..])
  }

  function ToNetworkCookies(hs: seq<HttpCookie>): (cs: seq<NetworkCookie>)
    ensures |cs| == |hs|
    ensures forall i :: 0 <= i < |hs| ==> cs[i] == ToNetworkCookie(hs[i])
  {
    if hs == [] then [] else [ToNetworkCookie(hs[0])] + ToNetworkCookies(hs[1..])
  }

  /**
   * Restoring a captured cookie list and capturing it back keeps exactly
   * Name, Value and Path of every cookie, in order; the list comes back
   * unchanged if and only if no cookie carried a Domain, Secure or HttpOnly
   * attribute.
   */
  lemma {:induction false} CookieRoundTrip(cs: seq<NetworkCookie>)
    ensures var back := ToNetworkCookies(ToHttpCookies(cs));
      && |back| == |cs|
      && (forall i :: 0 <= i < |cs| ==>
            back[i].name == cs[i].name && back[i].value == cs[i].value && back[i].path == cs[i].path
            && Plain(back[i]))
      && (back == cs <==> forall i :: 0 <= i < |cs| ==> Plain(cs[i]))
  {
    if cs != [] {
      CookieRoundTrip(cs[1..]);
      var back := ToNetworkCookies(ToHttpCookies(cs));
      if back == cs {
        forall i | 0 <= i < |cs| ensures Plain(cs[i]) {
          assert cs[i] == back[i];
        }
      }
      if forall i :: 0 <= i < |cs| ==> Plain(cs[i]) {
        forall i | 0 <= i < |cs| ensures back[i] == cs[i] {
          assert Plain(cs[i]);
        }
      }
    }
  }

  /** The value of a session record, as `json.Marshal` captures it. */
  datatype SessionRecord = SessionRecord(
    cookies: seq<NetworkCookie>, url: string, userAgent: string, timestamp: int)

  const EmptyRecord := SessionRecord([], "", "", 0)

  /**
   * `SessionData`: the single record a manager owns and updates field by
   * field; every capture returns this same object.
   */
  class SessionData {
    var cookies: seq<NetworkCookie>
    var url: string
    var userAgent: string
    var timestamp: int

    constructor ()
      ensures Snapshot() == EmptyRecord
    {
      cookies, url, userAgent, timestamp := [], "", "", 0;
    }

    function Snapshot(): SessionRecord
      reads this
    {
      SessionRecord(cookies, url, userAgent, timestamp)
    }
  }

  /** `NavigateResult`; an empty Screenshot or Message is omitted from the JSON. */
  datatype NavigateResult = NavigateResult(
    url: string, title: string, screenshot: string, success: bool, message: string)
  {
    function ToJson(): Json {
      JObj(map["url" := JStr(url), "title" := JStr(title), "success" := JBool(success)]
        + (if screenshot != "" then map["screenshot" := JStr(screenshot)] else map[])
        + (if message != "" then map["message" := JStr(message)] else map[]))
    }
  }

  /** `ClickResult`. */
  datatype ClickResult = ClickResult(success: bool, message: string, screenshot: string)
  {
    function ToJson(): Json {
      JObj(map["success" := JBool(success)]
        + (if message != "" then map["message" := JStr(message)] else map[])
        + (if screenshot != "" then map["screenshot" := JStr(screenshot)] else map[]))
    }
  }

  /**
   * `ExtractTextResult`. Its text list is only ever set by a successful
   * extraction; after a failure it is nil, which the JSON shows as `null`.
   */
  datatype ExtractTextResult = ExtractTextResult(text: seq<string>, success: bool, message: string)
  {
    function ToJson(): Json {
      JObj(map["text" := if success then JArr(seq(|text|, i requires 0 <= i < |text| => JStr(text[i]))) else JNull,
               "success" := JBool(success)]
        + (if message != "" then map["message" := JStr(message)] else map[]))
    }
  }

  /** `FillFormResult`. */
  datatype FillFormResult = FillFormResult(success: bool, message: string, screenshot: string)
  {
    function ToJson(): Json {
      JObj(map["success" := JBool(success)]
        + (if message != "" then map["message" := JStr(message)] else map[])
        + (if screenshot != "" then map["screenshot" := JStr(screenshot)] else map[]))
    }
  }
}
