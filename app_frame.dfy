/** The frame around the site under test, components/AppFrame.tsx: while the session is
    active it turns frame loads, messages posted by the page, observed address changes and a
    long pause into events of the session log; when the page cannot be embedded it offers to
    load it through the proxy route.

    The effect's closure variables (`lastUrl`, `lastActionTime`, the inactivity timer) are
    fields that `RunEffect` resets; the clock is a parameter of every step, and what reading
    the frame's address gives is an input. */
module AppFrame {
  import opened Common
  import opened Json
  import opened Events
  import opened SessionContext

  /** Reading `iframe.contentWindow.location.href`: no window, a read the browser refuses
      (another origin), or the address. */
  datatype FrameRead = NoWindow | Refused | Href(url: string)

  /** The `data` of a posted message: not a non-null object, or an object with its `type`,
      its optional `source` and its optional `data`. */
  datatype PostedData = NotAnObject | PostedObject(tag: Tag, source: Option<string>, data: Option<Data>)

  const InactivityLimit := 30000

  /** The characters `encodeURIComponent` leaves as they are. */
  predicate Unreserved(c: char)
  {
    || ('A' <= c <= 'Z') || ('a' <= c <= 'z') || ('0' <= c <= '9')
    || c == '-' || c == '_' || c == '.' || c == '!' || c == '~' || c == '*' || c == '\'' || c == '(' || c == ')'
  }

  function UpperHex(d: nat): (c: char)
    requires d < 16
    ensures ('0' <= c <= '9') || ('A' <= c <= 'F')
  {
    "0123456789ABCDEF"[d]
  }

  /** The UTF-8 bytes of one character. */
  function Utf8(c: char): (bs: seq<nat>)
    ensures 1 <= |bs| <= 4 && forall i :: 0 <= i < |bs| ==> bs[i] < 256
  {
    var n := c as int;
    if n < 0x80 then [n]
    else if n < 0x800 then [0xC0 + n / 64, 0x80 + n % 64]
    else if n < 0x10000 then [0xE0 + n / 4096, 0x80 + (n / 64) % 64, 0x80 + n % 64]
    else [0xF0 + n / 262144, 0x80 + (n / 4096) % 64, 0x80 + (n / 64) % 64, 0x80 + n % 64]
  }

  /** `%XX` with upper-case hexadecimal digits for each byte. */
  function PercentBytes(bs: seq<nat>): (r: string)
    requires forall i :: 0 <= i < |bs| ==> bs[i] < 256
    ensures |r| == 3 * |bs|
  {
    if |bs| == 0 then "" else ['%', UpperHex(bs[0] / 16), UpperHex(bs[0] % 16)] + PercentBytes(bs[1..])
  }

  /** `encodeURIComponent(s)`. */
  function EncodeURIComponent(s: string): string
  {
    if |s| == 0 then ""
    else (if Unreserved(s[0]) then [s[0]] else PercentBytes(Utf8(s[0]))) + EncodeURIComponent(s[1..])
  }

  /** A character that can appear in an encoded component. */
  predicate EncodedChar(c: char)
  {
    Unreserved(c) || c == '%'
  }

  lemma {:induction false} PercentBytesAlphabet(bs: seq<nat>)
    requires forall i :: 0 <= i < |bs| ==> bs[i] < 256
    ensures forall i :: 0 <= i < |PercentBytes(bs)| ==> EncodedChar(PercentBytes(bs)[i])
  {
    if |bs| > 0 {
      PercentBytesAlphabet(bs[1..]);
    }
  }

  /** The encoded text holds only unreserved characters and percent escapes, so it has no
      `&`, `#`, `=`, `+`, `?`, `/` or space and stays one query value. */
  lemma {:induction false} EncodedAlphabet(s: string)
    ensures forall i :: 0 <= i < |EncodeURIComponent(s)| ==> EncodedChar(EncodeURIComponent(s)[i])
  {
    if |s| > 0 {
      EncodedAlphabet(s[1..]);
      if !Unreserved(s[0]) {
        PercentBytesAlphabet(Utf8(s[0]));
      }
    }
  }

  /** Text made of unreserved characters only is left unchanged. */
  lemma {:induction false} EncodeUnreservedIdentity(s: string)
    requires forall i :: 0 <= i < |s| ==> Unreserved(s[i])
    ensures EncodeURIComponent(s) == s
  {
    if |s| > 0 {
      EncodeUnreservedIdentity(s[1..]);
    }
  }

  class Frame {
    const ctx: Session
    const testAppUrl: string

    var iframeError: bool
    var useProxy: bool

    /** The listeners, the route-check interval and the inactivity timer of the current
        effect run are installed. */
    var listening: bool
    var lastUrl: string
    var lastActionTime: int
    var inactivityArmed: bool
    /** `sessionStartTime` as the current effect run captured it. */
    var capturedStart: Option<int>

    ghost predicate Valid()
      reads this, ctx
    {
      ctx.Valid() && (inactivityArmed ==> listening)
    }

    constructor (ctx: Session, testAppUrl: string)
      requires ctx.Valid()
      ensures Valid()
      ensures this.ctx == ctx && this.testAppUrl == testAppUrl
      ensures !iframeError && !useProxy && !listening && !inactivityArmed
    {
      this.ctx := ctx;
      this.testAppUrl := testAppUrl;
      iframeError := false;
      useProxy := false;
      listening := false;
      lastUrl := "";
      lastActionTime := 0;
      inactivityArmed := false;
      capturedStart := None;
    }

    /** The error screen replaces the frame exactly when loading failed and the proxy is
        not in use. */
    predicate ShowsError()
      reads this
    {
      iframeError && !useProxy
    }

    /** The frame's `src`: the proxy route with the encoded address, or the address itself. */
    function FrameSrc(): (src: string)
      reads this
      ensures useProxy ==> StartsWith(src, "/api/proxy?url=")
                           && src[|"/api/proxy?url="|..] == EncodeURIComponent(testAppUrl)
      ensures !useProxy ==> src == testAppUrl
    {
      if useProxy then "/api/proxy?url=" + EncodeURIComponent(testAppUrl) else testAppUrl
    }

    /** One run of the effect after the cleanup of the previous one: nothing is installed
        unless the session is active and the frame is on screen; otherwise the route memory
        starts empty, the last action is now, and the inactivity timer is armed once. */
    method RunEffect(now: int)
      requires Valid()
      modifies this
      ensures Valid()
      ensures !ctx.active || old(ShowsError()) ==> !listening && !inactivityArmed
      ensures ctx.active && !old(ShowsError()) ==>
                listening && inactivityArmed && lastUrl == "" && lastActionTime == now && capturedStart == ctx.startTime
      ensures iframeError == old(iframeError) && useProxy == old(useProxy)
    {
      listening := false;
      inactivityArmed := false;
      if !ctx.active || ShowsError() {
        return;
      }
      lastUrl := "";
      lastActionTime := now;
      inactivityArmed := true;
      capturedStart := ctx.startTime;
      listening := true;
    }

    /** The time since the session start captured by the effect, or 0 without a start. */
    function Elapsed(now: int): int
      reads this
    {
      if capturedStart.Some? && capturedStart.value != 0 then now - capturedStart.value else 0
    }

    /** `sendEvent`: one event, stamped with the time and the time since the session start
        (0 without a start), is appended to the log; it becomes the last action. */
    method SendEvent(tag: Tag, source: Option<string>, data: Option<Data>, now: int) returns (e: UserEvent)
      requires Valid()
      modifies this, ctx
      ensures Valid()
      ensures e == UserEvent(|old(ctx.events)|, tag, source, data, now, Some(Elapsed(now)))
      ensures ctx.events == old(ctx.events) + [e]
      ensures ctx.active == old(ctx.active) && ctx.startTime == old(ctx.startTime)
      ensures lastActionTime == now
      ensures lastUrl == old(lastUrl) && inactivityArmed == old(inactivityArmed) && listening == old(listening)
      ensures iframeError == old(iframeError) && useProxy == old(useProxy) && capturedStart == old(capturedStart)
    {
      e := ctx.Append(tag, source, data, now, Some(Elapsed(now)));
      lastActionTime := now;
    }

    /** The periodic `checkRouteChange`: a new address is reported as a route change, except
        the first one seen; a read that fails changes nothing. */
    method CheckRouteChange(read: FrameRead, now: int)
      requires Valid() && listening
      modifies this, ctx
      ensures Valid()
      ensures !read.Href? ==> ctx.events == old(ctx.events) && lastUrl == old(lastUrl) && lastActionTime == old(lastActionTime)
      ensures read.Href? ==> lastUrl == read.url
      ensures read.Href? && read.url != old(lastUrl) && old(lastUrl) != "" ==>
                && ctx.events == old(ctx.events) + [UserEvent(|old(ctx.events)|, StrTag(RouteChangeType), None,
                     Some(Object([("from", JStr(old(lastUrl))), ("to", JStr(read.url))])), now, Some(Elapsed(now)))]
                && lastActionTime == now
      ensures read.Href? && (read.url == old(lastUrl) || old(lastUrl) == "") ==>
                ctx.events == old(ctx.events) && lastActionTime == old(lastActionTime)
      ensures inactivityArmed == old(inactivityArmed) && listening == old(listening)
      ensures iframeError == old(iframeError) && useProxy == old(useProxy) && capturedStart == old(capturedStart)
    {
      match read
      case NoWindow =>
      case Refused =>
      case Href(currentUrl) =>
        if currentUrl != lastUrl && lastUrl != "" {
          var _ := SendEvent(StrTag(RouteChangeType), None, Some(Object([("from", JStr(lastUrl)), ("to", JStr(currentUrl))])), now);
        }
        lastUrl := currentUrl;
    }

    /** `handleMessage`: only an object with a truthy `type` is recorded, with its own
        fields. */
    method HandleMessage(posted: PostedData, now: int)
      requires Valid() && listening
      modifies this, ctx
      ensures Valid()
      ensures posted.PostedObject? && TagTruthy(posted.tag) ==>
                && ctx.events == old(ctx.events)
                     + [UserEvent(|old(ctx.events)|, posted.tag, posted.source, posted.data, now, Some(Elapsed(now)))]
                && lastActionTime == now
      ensures !(posted.PostedObject? && TagTruthy(posted.tag)) ==>
                ctx.events == old(ctx.events) && lastActionTime == old(lastActionTime)
      ensures ctx.active == old(ctx.active) && ctx.startTime == old(ctx.startTime)
      ensures lastUrl == old(lastUrl) && inactivityArmed == old(inactivityArmed) && listening == old(listening)
      ensures iframeError == old(iframeError) && useProxy == old(useProxy) && capturedStart == old(capturedStart)
    {
      if posted.PostedObject? && TagTruthy(posted.tag) {
        var _ := SendEvent(posted.tag, posted.source, posted.data, now);
      }
    }

    /** `handleLoad`: the error flag is cleared and one `page_load` event carrying the test
        address is recorded. */
    method HandleLoad(now: int)
      requires Valid() && listening
      modifies this, ctx
      ensures Valid()
      ensures !iframeError && useProxy == old(useProxy)
      ensures ctx.events == old(ctx.events) + [UserEvent(|old(ctx.events)|, StrTag("page_load"), None,
                                                         Some(Object([("url", JStr(testAppUrl))])), now, Some(Elapsed(now)))]
      ensures ctx.active == old(ctx.active) && ctx.startTime == old(ctx.startTime)
      ensures lastActionTime == now && lastUrl == old(lastUrl) && inactivityArmed == old(inactivityArmed)
      ensures listening == old(listening) && capturedStart == old(capturedStart)
    {
      iframeError := false;
      var _ := SendEvent(StrTag("page_load"), None, Some(Object([("url", JStr(testAppUrl))])), now);
    }

    /** `handleError`. */
    method HandleError()
      requires Valid() && listening
      modifies this
      ensures Valid()
      ensures iframeError && useProxy == old(useProxy)
      ensures listening == old(listening) && lastUrl == old(lastUrl) && lastActionTime == old(lastActionTime)
      ensures inactivityArmed == old(inactivityArmed) && capturedStart == old(capturedStart)
    {
      iframeError := true;
    }

    /** The inactivity timer runs once: an `inactivity` event with the pause's length is
        recorded only when more than 30 seconds have passed since the last event. */
    method InactivityFired(now: int)
      requires Valid() && inactivityArmed
      modifies this, ctx
      ensures Valid()
      ensures !inactivityArmed
      ensures now - old(lastActionTime) > InactivityLimit ==>
                && ctx.events == old(ctx.events) + [UserEvent(|old(ctx.events)|, StrTag("inactivity"), None,
                     Some(Object([("duration", JNum(now - old(lastActionTime)))])), now, Some(Elapsed(now)))]
                && lastActionTime == now
      ensures now - old(lastActionTime) <= InactivityLimit ==> ctx.events == old(ctx.events) && lastActionTime == old(lastActionTime)
      ensures ctx.active == old(ctx.active) && ctx.startTime == old(ctx.startTime)
      ensures listening == old(listening) && lastUrl == old(lastUrl)
      ensures iframeError == old(iframeError) && useProxy == old(useProxy) && capturedStart == old(capturedStart)
    {
      inactivityArmed := false;
      var timeSinceLastAction := now - lastActionTime;
      if timeSinceLastAction > InactivityLimit {
        var _ := SendEvent(StrTag("inactivity"), None, Some(Object([("duration", JNum(timeSinceLastAction))])), now);
      }
    }

    /** The retry button of the error screen: the proxy is used and the error cleared. */
    method RetryWithProxy()
      requires Valid()
      modifies this
      ensures Valid()
      ensures useProxy && !iframeError && !ShowsError()
      ensures FrameSrc() == "/api/proxy?url=" + EncodeURIComponent(testAppUrl)
      ensures listening == old(listening) && lastUrl == old(lastUrl) && lastActionTime == old(lastActionTime)
      ensures inactivityArmed == old(inactivityArmed) && capturedStart == old(capturedStart)
    {
      useProxy := true;
      iframeError := false;
    }
  }

  /** The first address observed is only remembered; the next different one is reported as
      a change from it. */
  method FirstAddressIsNotAChange() returns (afterFirst: nat, afterSecond: seq<UserEvent>)
    ensures afterFirst == 0
    ensures |afterSecond| == 1 && afterSecond[0].tag == StrTag(RouteChangeType)
    ensures afterSecond[0].data == Some(Object([("from", JStr("https://example.com/")), ("to", JStr("https://example.com/pricing"))]))
  {
    var ctx := new Session();
    ctx.SetActive(true);
    var frame := new Frame(ctx, "https://example.com/");
    frame.RunEffect(0);
    frame.CheckRouteChange(Href("https://example.com/"), 1000);
    afterFirst := |ctx.events|;
    frame.CheckRouteChange(Href("https://example.com/pricing"), 2000);
    afterSecond := ctx.events;
  }
}
