/** The browser-side helper of lib/admin-api.ts: the administrator token kept in session
    storage, and `adminFetch`, which picks the token, builds the request headers and turns a
    failed response into an error. */
module AdminApi {
  import opened Common

  const TokenKey := "admin_auth_token"
  const JsonType := "application/json"
  const RequestFailed := "Request failed"

  /** Session storage as the helpers reach it: without a window (server rendering) there is
      no storage, reads give null and writes do nothing. `stored` is the value under
      TokenKey. */
  class TokenStorage {
    const hasWindow: bool
    var stored: Option<string>

    constructor(hasWindow: bool, stored: Option<string>)
      ensures this.hasWindow == hasWindow && this.stored == stored
    {
      this.hasWindow := hasWindow;
      this.stored := stored;
    }

    /** `getAdminToken`. */
    function GetAdminToken(): (t: Option<string>)
      reads this
      ensures !hasWindow ==> t.None?
      ensures hasWindow ==> t == stored
    {
      if !hasWindow then None else stored
    }

    /** `setAdminToken`. */
    method SetAdminToken(token: string)
      modifies this
      ensures stored == if hasWindow then Some(token) else old(stored)
    {
      if hasWindow {
        stored := Some(token);
      }
    }

    /** `clearAdminToken`. */
    method ClearAdminToken()
      modifies this
      ensures stored == if hasWindow then None else old(stored)
      ensures GetAdminToken().None?
    {
      if hasWindow {
        stored := None;
      }
    }
  }

  /** `tokenOverride ?? getAdminToken()`: an override given as a string, even an empty one,
      wins; an undefined or null override falls back to the stored token. */
  function ChooseToken(tokenOverride: Nullish<string>, stored: Option<string>): (t: Option<string>)
    ensures tokenOverride.Present? ==> t == Some(tokenOverride.value)
    ensures !tokenOverride.Present? ==> t == stored
  {
    match tokenOverride
    case Present(v) => Some(v)
    case _ => stored
  }

  function LowerChar(c: char): char
  {
    if 'A' <= c <= 'Z' then (c as int + 32) as char else c
  }

  /** Header names compare without regard to ASCII case; the map below is keyed by the
      lower-cased name, as the Headers object normalises it, so `Authorization` and
      `Content-Type` are found under AuthorizationName and ContentTypeName. */
  function Lower(s: string): (r: string)
    ensures |r| == |s|
    ensures forall i :: 0 <= i < |s| ==> r[i] == LowerChar(s[i])
  {
    if |s| == 0 then "" else [LowerChar(s[0])] + Lower(s[1..])
  }

  const AuthorizationName := "authorization"
  const ContentTypeName := "content-type"

  /** The headers a record of initial headers gives: each entry is appended, and a repeated
      name (in any case) joins its values with ", ". */
  function InitialHeaders(init: seq<(string, string)>): map<string, string>
  {
    if |init| == 0 then map[]
    else
      var m := InitialHeaders(init[..|init| - 1]);
      var (name, value) := init[|init| - 1];
      var key := Lower(name);
      m[key := if key in m then m[key] + ", " + value else value]
  }

  /** A `Headers` object. */
  class Headers {
    var entries: map<string, string>

    /** `new Headers(init)`: the entries appended one by one. */
    constructor(init: seq<(string, string)>)
      ensures entries == InitialHeaders(init)
    {
      var m: map<string, string> := map[];
      var i := 0;
      while i < |init|
        invariant 0 <= i <= |init|
        invariant m == InitialHeaders(init[..i])
      {
        assert init[..i + 1][..i] == init[..i];
        var (name, value) := init[i];
        var key := Lower(name);
        m := m[key := if key in m then m[key] + ", " + value else value];
        i := i + 1;
      }
      assert init[..i] == init;
      entries := m;
    }

    /** `headers.has(name)` for a name given in lower case. */
    function Has(key: string): bool
      reads this
    {
      key in entries
    }

    /** `headers.set(name, value)` for a name given in lower case: replaces whatever the
        name held. */
    method Set(key: string, value: string)
      modifies this
      ensures entries == old(entries)[key := value]
    {
      entries := entries[key := value];
    }
  }

  /** The headers `adminFetch` sends: the initial ones, then `Authorization: Bearer <token>`
      when the chosen token is truthy, then a JSON content type when none was given and the
      request has a body. */
  ghost predicate SentHeaders(entries: map<string, string>, init: seq<(string, string)>, token: Option<string>, hasBody: bool)
  {
    var given := InitialHeaders(init);
    && (Truthy(token) ==> AuthorizationName in entries && entries[AuthorizationName] == "Bearer " + token.value)
    && (!Truthy(token) ==> (AuthorizationName in entries <==> AuthorizationName in given))
    && (!Truthy(token) && AuthorizationName in entries ==> entries[AuthorizationName] == given[AuthorizationName])
    && (ContentTypeName in given ==> ContentTypeName in entries && entries[ContentTypeName] == given[ContentTypeName])
    && (ContentTypeName !in given ==> (ContentTypeName in entries <==> hasBody))
    && (ContentTypeName !in given && hasBody ==> entries[ContentTypeName] == JsonType)
    && (forall k :: k != AuthorizationName && k != ContentTypeName ==> (k in entries <==> k in given))
    && (forall k :: k in entries && k != AuthorizationName && k != ContentTypeName ==> entries[k] == given[k])
  }

  /** Builds the headers of one request, as the predicate above describes them. */
  method BuildHeaders(init: seq<(string, string)>, token: Option<string>, hasBody: bool) returns (h: Headers)
    ensures fresh(h)
    ensures SentHeaders(h.entries, init, token, hasBody)
  {
    h := new Headers(init);
    if Truthy(token) {
      h.Set(AuthorizationName, "Bearer " + token.value);
    }
    if !h.Has(ContentTypeName) && hasBody {
      h.Set(ContentTypeName, JsonType);
    }
  }

  /** The response as `adminFetch` sees it: `text` is None when reading the body fails. */
  datatype HttpReply<T> = HttpReply(ok: bool, status: int, text: Option<string>, json: T)

  /** A promise's outcome. */
  datatype Outcome<T> = Resolved(value: T) | Threw(message: string)

  /** The message of the error a non-OK response throws: the response text, or a fallback
      naming the status when the text cannot be read, or `Request failed` when the text is
      empty. */
  function FailureMessage(status: int, text: Option<string>): (m: string)
    ensures m != ""
    ensures Truthy(text) ==> m == text.value
    ensures text.None? ==> m == "Request failed with status " + IntToString(status)
    ensures text == Some("") ==> m == RequestFailed
  {
    var message := if text.Some? then text.value else "Request failed with status " + IntToString(status);
    if message == "" then RequestFailed else message
  }

  /** A request as sent: its path, its headers and whether it has a body. */
  datatype Request = Request(path: string, headers: map<string, string>, hasBody: bool)

  /** `adminFetch(path, init, tokenOverride)` with the network's reply as a parameter: the
      request is sent with the headers above; a non-OK reply throws, an OK one yields its
      JSON. */
  method AdminFetch<T>(path: string, init: seq<(string, string)>, hasBody: bool, tokenOverride: Nullish<string>,
                       storage: TokenStorage, reply: HttpReply<T>)
    returns (sent: Request, outcome: Outcome<T>)
    ensures SentHeaders(sent.headers, init, ChooseToken(tokenOverride, storage.GetAdminToken()), hasBody)
    ensures sent.path == path && sent.hasBody == hasBody
    ensures !reply.ok ==> outcome == Threw(FailureMessage(reply.status, reply.text))
    ensures reply.ok ==> outcome == Resolved(reply.json)
  {
    var token := ChooseToken(tokenOverride, storage.GetAdminToken());
    var h := BuildHeaders(init, token, hasBody);
    sent := Request(path, h.entries, hasBody);
    if !reply.ok {
      outcome := Threw(FailureMessage(reply.status, reply.text));
    } else {
      outcome := Resolved(reply.json);
    }
  }
}
