/**
 * The session bookkeeping of the plugin's HTTP helper: how a request path
 * is put under the device's `/apis` root, how `Set-Cookie` headers fill the
 * cookie jar and how the jar becomes the `Cookie` header of the next
 * request, how a reply is classified (a 401 ends the session), and when
 * logging in succeeds. The socket, TLS and the timeout are not modelled:
 * what the device answered is an input.
 */
module Session {
  import opened Js

  // ---------------------------------------------------------------------
  // Request path

  /** The path a request goes to: a `/` is put in front when missing, then
      `/apis` unless the path already starts with it. */
  function NormalizePath(endpoint: string): string {
    var rooted := if StartsWith(endpoint, "/") then endpoint else "/" + endpoint;
    if !StartsWith(rooted, "/apis/") && !StartsWith(rooted, "/apis") then "/apis" + rooted else rooted
  }

  /** Every request goes under the `/apis` root. */
  lemma NormalizeUnderApis(endpoint: string)
    ensures StartsWith(NormalizePath(endpoint), "/apis")
  {
    var rooted := if StartsWith(endpoint, "/") then endpoint else "/" + endpoint;
    if !StartsWith(rooted, "/apis") {
      assert ("/apis" + rooted)[..5] == "/apis";
    }
  }

  /** A path already under `/apis` is sent as given, and only such a path. */
  lemma NormalizeFixedPoints(endpoint: string)
    ensures NormalizePath(endpoint) == endpoint <==> StartsWith(endpoint, "/apis")
  {
    if StartsWith(endpoint, "/apis") {
      assert endpoint[..1] == endpoint[..5][..1];
    } else {
      NormalizeUnderApis(endpoint);
    }
  }

  /** Normalising a normalised path changes nothing. */
  lemma NormalizeIdempotent(endpoint: string)
    ensures NormalizePath(NormalizePath(endpoint)) == NormalizePath(endpoint)
  {
    NormalizeUnderApis(endpoint);
    NormalizeFixedPoints(NormalizePath(endpoint));
  }

  /** The caller's endpoint is kept whole, behind at most `/apis/`. */
  lemma NormalizeKeepsEndpoint(endpoint: string)
    ensures NormalizePath(endpoint) in {endpoint, "/" + endpoint, "/apis" + endpoint, "/apis/" + endpoint}
  {
    if !StartsWith(endpoint, "/") && !StartsWith("/" + endpoint, "/apis") {
      assert "/apis" + ("/" + endpoint) == "/apis/" + endpoint;
    }
  }

  // ---------------------------------------------------------------------
  // `split` and `join` on one character

  /** `s.split(sep)`: the pieces between the separators, at least one. */
  function Split(s: string, sep: char): (parts: seq<string>)
    ensures |parts| >= 1
  {
    if |s| == 0 then [""]
    else
      var rest := Split(s[1..], sep);
      if s[0] == sep then [""] + rest else [[s[0]] + rest[0]] + rest[1..]
  }

  /** `parts.join(sep)`. */
  function Join(parts: seq<string>, sep: string): string {
    if |parts| == 0 then ""
    else if |parts| == 1 then parts[0]
    else parts[0] + sep + Join(parts[1..], sep)
  }

  /** Joining the pieces back with the separator gives the text split. */
  lemma {:induction false} JoinSplit(s: string, sep: char)
    ensures Join(Split(s, sep), [sep]) == s
  {
    if |s| > 0 {
      var rest := Split(s[1..], sep);
      JoinSplit(s[1..], sep);
      if s[0] == sep {
        assert Split(s, sep) == [""] + rest;
        assert ([""] + rest)[1..] == rest;
        assert s == [sep] + s[1..];
      } else if |rest| == 1 {
        assert s == [s[0]] + s[1..];
      } else {
        var parts := Split(s, sep);
        assert parts[1..] == rest[1..];
        assert Join(rest, [sep]) == rest[0] + [sep] + Join(rest[1..], [sep]);
        assert s == [s[0]] + s[1..];
      }
    }
  }

  /** No piece contains the separator. */
  lemma {:induction false} SplitPieces(s: string, sep: char)
    ensures forall i :: 0 <= i < |Split(s, sep)| ==> sep !in Split(s, sep)[i]
  {
    if |s| > 0 {
      SplitPieces(s[1..], sep);
    }
  }

  /** Text without the separator is one piece. */
  lemma {:induction false} SplitWhole(s: string, sep: char)
    requires sep !in s
    ensures Split(s, sep) == [s]
  {
    if |s| > 0 {
      SplitWhole(s[1..], sep);
      assert s == [s[0]] + s[1..];
    }
  }

  /** The first separator ends the first piece. */
  lemma {:induction false} SplitAt(x: string, sep: char, y: string)
    requires sep !in x
    ensures Split(x + [sep] + y, sep) == [x] + Split(y, sep)
  {
    if |x| > 0 {
      SplitAt(x[1..], sep, y);
      assert (x + [sep] + y)[1..] == x[1..] + [sep] + y;
      assert x == [x[0]] + x[1..];
    } else {
      assert x + [sep] + y == [sep] + y;
      assert ([sep] + y)[1..] == y;
    }
  }

  /** The first piece is the text up to the first separator. */
  lemma {:induction false} SplitFirst(s: string, sep: char)
    ensures s == Split(s, sep)[0] || StartsWith(s, Split(s, sep)[0] + [sep])
  {
    if |s| > 0 && s[0] != sep {
      SplitFirst(s[1..], sep);
      var h := Split(s[1..], sep)[0];
      assert Split(s, sep)[0] == [s[0]] + h;
      if s[1..] != h {
        assert s[1..][..|h| + 1] == h + [sep];
        assert s[..|h| + 2] == [s[0]] + s[1..][..|h| + 1];
      }
    }
  }

  // ---------------------------------------------------------------------
  // `Set-Cookie`

  /** Text that can be a cookie name or value: no `;` and no `=`. */
  predicate Plain(x: string) {
    ';' !in x && '=' !in x
  }

  /** The name and value a `Set-Cookie` header stores: the text before its
      first `;` must split on `=` into exactly two pieces. */
  function CookiePair(header: string): Option<(string, string)> {
    var parts := Split(Split(header, ';')[0], '=');
    if |parts| == 2 then Some((parts[0], parts[1])) else None
  }

  /** A stored pair is the header's `name=value` part, up to a `;`. */
  lemma CookiePairSound(header: string, name: string, value: string)
    requires CookiePair(header) == Some((name, value))
    ensures Plain(name) && Plain(value)
    ensures header == name + "=" + value || StartsWith(header, name + "=" + value + ";")
  {
    var head := Split(header, ';')[0];
    var parts := Split(head, '=');
    SplitPieces(header, ';');
    SplitFirst(header, ';');
    SplitPieces(head, '=');
    JoinSplit(head, '=');
    assert head == name + "=" + value;
  }

  /** A header that starts `name=value`, followed by nothing or by `;`, is
      stored. */
  lemma CookiePairComplete(name: string, value: string, rest: string)
    requires Plain(name) && Plain(value)
    requires rest == "" || rest[0] == ';'
    ensures CookiePair(name + "=" + value + rest) == Some((name, value))
  {
    var pair := name + "=" + value;
    if rest == "" {
      SplitWhole(pair, ';');
      assert pair + rest == pair;
    } else {
      SplitAt(pair, ';', rest[1..]);
      assert pair + [';'] + rest[1..] == pair + rest;
    }
    SplitAt(name, '=', value);
    SplitWhole(value, '=');
  }

  // ---------------------------------------------------------------------
  // The cookie jar

  /** The cookie jar, in the order names were first stored, which is the
      order `Object.entries` lists them in. */
  type Jar = seq<(string, string)>

  function NameSet(jar: Jar): set<string> {
    if |jar| == 0 then {} else {jar[0].0} + NameSet(jar[1..])
  }

  /** Each name once, and names and values as a `Set-Cookie` header can
      produce them. */
  predicate WellFormed(jar: Jar) {
    |jar| == 0 || (Plain(jar[0].0) && Plain(jar[0].1) && jar[0].0 !in NameSet(jar[1..]) && WellFormed(jar[1..]))
  }

  /** `cookies[name]`. */
  function Get(jar: Jar, name: string): Option<string> {
    if |jar| == 0 then None
    else if jar[0].0 == name then Some(jar[0].1)
    else Get(jar[1..], name)
  }

  /** `cookies[name] = value`: a stored name keeps its place and takes the
      new value; a new name goes last. */
  function Put(jar: Jar, name: string, value: string): Jar {
    if |jar| == 0 then [(name, value)]
    else if jar[0].0 == name then [(name, value)] + jar[1..]
    else [jar[0]] + Put(jar[1..], name, value)
  }

  lemma {:induction false} GetPresent(jar: Jar, name: string)
    ensures Get(jar, name).Some? <==> name in NameSet(jar)
  {
    if |jar| > 0 {
      GetPresent(jar[1..], name);
    }
  }

  /** After storing, the name reads back the value just stored. */
  lemma {:induction false} PutGet(jar: Jar, name: string, value: string)
    ensures Get(Put(jar, name, value), name) == Some(value)
  {
    if |jar| > 0 && jar[0].0 != name {
      PutGet(jar[1..], name, value);
    }
  }

  /** Storing one name leaves every other name's value alone. */
  lemma {:induction false} PutGetOther(jar: Jar, name: string, value: string, other: string)
    requires other != name
    ensures Get(Put(jar, name, value), other) == Get(jar, other)
  {
    if |jar| > 0 && jar[0].0 != name {
      PutGetOther(jar[1..], name, value, other);
    }
  }

  /** Storing adds the name and no other. */
  lemma {:induction false} PutNames(jar: Jar, name: string, value: string)
    ensures NameSet(Put(jar, name, value)) == NameSet(jar) + {name}
  {
    if |jar| > 0 {
      if jar[0].0 == name {
        assert ([(name, value)] + jar[1..])[1..] == jar[1..];
      } else {
        PutNames(jar[1..], name, value);
        assert (([jar[0]] + Put(jar[1..], name, value)))[1..] == Put(jar[1..], name, value);
      }
    }
  }

  /** A stored name keeps its place: the jar's length grows only for a new
      name, and then by one. */
  lemma {:induction false} PutLength(jar: Jar, name: string, value: string)
    ensures |Put(jar, name, value)| == if name in NameSet(jar) then |jar| else |jar| + 1
  {
    if |jar| > 0 && jar[0].0 != name {
      PutLength(jar[1..], name, value);
    }
  }

  lemma {:induction false} PutWellFormed(jar: Jar, name: string, value: string)
    requires WellFormed(jar) && Plain(name) && Plain(value)
    ensures WellFormed(Put(jar, name, value))
  {
    if |jar| > 0 {
      if jar[0].0 == name {
        assert ([(name, value)] + jar[1..])[1..] == jar[1..];
      } else {
        PutWellFormed(jar[1..], name, value);
        PutNames(jar[1..], name, value);
        assert (([jar[0]] + Put(jar[1..], name, value)))[1..] == Put(jar[1..], name, value);
      }
    }
  }

  /** One `Set-Cookie` header applied to the jar. */
  function Store(jar: Jar, header: string): Jar {
    match CookiePair(header)
    case None => jar
    case Some(pair) => Put(jar, pair.0, pair.1)
  }

  /** All the `Set-Cookie` headers of a reply, in order. */
  function Capture(jar: Jar, headers: seq<string>): Jar {
    if |headers| == 0 then jar
    else Store(Capture(jar, headers[..|headers| - 1]), headers[|headers| - 1])
  }

  /** Whether a header stores a cookie of this name. */
  predicate Names(header: string, name: string) {
    CookiePair(header).Some? && CookiePair(header).value.0 == name
  }

  /** Capturing keeps the jar well formed. */
  lemma {:induction false} CaptureWellFormed(jar: Jar, headers: seq<string>)
    requires WellFormed(jar)
    ensures WellFormed(Capture(jar, headers))
  {
    if |headers| > 0 {
      var before := Capture(jar, headers[..|headers| - 1]);
      CaptureWellFormed(jar, headers[..|headers| - 1]);
      var h := headers[|headers| - 1];
      if CookiePair(h).Some? {
        CookiePairSound(h, CookiePair(h).value.0, CookiePair(h).value.1);
        PutWellFormed(before, CookiePair(h).value.0, CookiePair(h).value.1);
      }
    }
  }

  /** The last header that names a cookie decides its value. */
  lemma {:induction false} CaptureLastWins(jar: Jar, headers: seq<string>, i: nat, name: string, value: string)
    requires i < |headers| && CookiePair(headers[i]) == Some((name, value))
    requires forall j :: i < j < |headers| ==> !Names(headers[j], name)
    ensures Get(Capture(jar, headers), name) == Some(value)
  {
    var last := |headers| - 1;
    var before := Capture(jar, headers[..last]);
    if i == last {
      PutGet(before, name, value);
    } else {
      CaptureLastWins(jar, headers[..last], i, name, value);
      var h := headers[last];
      if CookiePair(h).Some? {
        PutGetOther(before, CookiePair(h).value.0, CookiePair(h).value.1, name);
      }
    }
  }

  /** A cookie no header names keeps its value. */
  lemma {:induction false} CaptureKeeps(jar: Jar, headers: seq<string>, name: string)
    requires forall j :: 0 <= j < |headers| ==> !Names(headers[j], name)
    ensures Get(Capture(jar, headers), name) == Get(jar, name)
  {
    if |headers| > 0 {
      var last := |headers| - 1;
      CaptureKeeps(jar, headers[..last], name);
      var h := headers[last];
      if CookiePair(h).Some? {
        PutGetOther(Capture(jar, headers[..last]), CookiePair(h).value.0, CookiePair(h).value.1, name);
      }
    }
  }

  // ---------------------------------------------------------------------
  // The `Cookie` header

  /** The jar's `name=value` entries. */
  function Entries(jar: Jar): seq<string> {
    if |jar| == 0 then [] else [jar[0].0 + "=" + jar[0].1] + Entries(jar[1..])
  }

  /** The `Cookie` header a request carries: none for an empty jar, else
      the entries joined by `; `. */
  function CookieHeader(jar: Jar): Option<string> {
    if |jar| == 0 then None else Some(Join(Entries(jar), "; "))
  }

  /** A header value read back the way a server does: split on `;`, drop
      the space that starts each later entry, split each entry on `=`. */
  function ParseCookieHeader(h: string): Jar {
    var pieces := Split(h, ';');
    [EntryPair(pieces[0])] + LaterPairs(pieces[1..])
  }

  function EntryPair(entry: string): (string, string) {
    var kv := Split(entry, '=');
    (kv[0], if |kv| > 1 then kv[1] else "")
  }

  function LaterPairs(pieces: seq<string>): Jar {
    if |pieces| == 0 then []
    else
      var p := pieces[0];
      [EntryPair(if |p| > 0 && p[0] == ' ' then p[1..] else p)] + LaterPairs(pieces[1..])
  }

  /** The entries with the space the separator puts before each. */
  function Spaced(entries: seq<string>): seq<string> {
    if |entries| == 0 then [] else [" " + entries[0]] + Spaced(entries[1..])
  }

  lemma {:induction false} EntriesPlain(jar: Jar)
    requires WellFormed(jar)
    ensures forall i :: 0 <= i < |Entries(jar)| ==> ';' !in Entries(jar)[i]
    ensures |Entries(jar)| == |jar|
  {
    if |jar| > 0 {
      EntriesPlain(jar[1..]);
    }
  }

  lemma {:induction false} SplitJoined(entries: seq<string>)
    requires |entries| >= 1
    requires forall i :: 0 <= i < |entries| ==> ';' !in entries[i]
    ensures Split(Join(entries, "; "), ';') == [entries[0]] + Spaced(entries[1..])
  {
    if |entries| == 1 {
      SplitWhole(entries[0], ';');
    } else {
      var rest := Join(entries[1..], "; ");
      SplitJoined(entries[1..]);
      assert Join(entries, "; ") == entries[0] + [';'] + (" " + rest);
      SplitAt(entries[0], ';', " " + rest);
      assert (" " + rest)[1..] == rest;
      assert entries[1..][1..] == entries[2..];
    }
  }

  lemma {:induction false} EntryPairOf(name: string, value: string)
    requires Plain(name) && Plain(value)
    ensures EntryPair(name + "=" + value) == (name, value)
  {
    SplitAt(name, '=', value);
    SplitWhole(value, '=');
  }

  lemma {:induction false} LaterPairsSpaced(jar: Jar)
    requires WellFormed(jar)
    ensures LaterPairs(Spaced(Entries(jar))) == jar
  {
    if |jar| > 0 {
      LaterPairsSpaced(jar[1..]);
      EntryPairOf(jar[0].0, jar[0].1);
      var e := jar[0].0 + "=" + jar[0].1;
      assert (" " + e)[1..] == e;
    }
  }

  /** The `Cookie` header carries exactly the jar: read back, it gives the
      same names and values in the same order. */
  lemma CookieHeaderRoundTrip(jar: Jar)
    requires WellFormed(jar) && |jar| > 0
    ensures ParseCookieHeader(CookieHeader(jar).value) == jar
  {
    EntriesPlain(jar);
    SplitJoined(Entries(jar));
    var pieces := Split(Join(Entries(jar), "; "), ';');
    assert pieces[1..] == Spaced(Entries(jar[1..]));
    EntryPairOf(jar[0].0, jar[0].1);
    LaterPairsSpaced(jar[1..]);
  }

  // ---------------------------------------------------------------------
  // Replies

  /** What the device answered: the status code, the `Set-Cookie` headers,
      the body text, and what `JSON.parse` makes of the body (`None` when
      it throws). A request that fails before any answer (a socket error,
      the timeout) is `Fail` in a `Result<Reply>`. */
  datatype Reply = Reply(status: int, setCookie: seq<string>, body: string, parsed: Option<Json>)

  predicate Success(reply: Result<Reply>) {
    reply.Ok? && 200 <= reply.value.status < 300
  }

  predicate Unauthorized(reply: Result<Reply>) {
    reply.Ok? && reply.value.status == 401
  }

  /** What a request resolves to. */
  function Resolve(reply: Result<Reply>): (r: Result<Json>)
    ensures r.Ok? <==> Success(reply)
    ensures r.Ok? && reply.value.body == "" ==> r.value == Obj(map[])
    ensures r.Ok? && reply.value.body != "" && reply.value.parsed.Some? ==> r.value == reply.value.parsed.value
    ensures r.Ok? && reply.value.body != "" && reply.value.parsed.None? ==> r.value == Obj(map["raw" := Str(reply.value.body)])
  {
    if !Success(reply) then Fail
    else if reply.value.body == "" then Ok(Obj(map[]))
    else if reply.value.parsed.Some? then Ok(reply.value.parsed.value)
    else Ok(Obj(map["raw" := Str(reply.value.body)]))
  }

  /** The jar after a reply: its cookies are captured whatever the status,
      and a 401 then empties the jar. */
  function JarAfter(jar: Jar, reply: Result<Reply>): Jar {
    if reply.Fail? then jar
    else if reply.value.status == 401 then []
    else Capture(jar, reply.value.setCookie)
  }

  /** Only a 401 lowers the `authenticated` flag. */
  function AuthenticatedAfter(flag: bool, reply: Result<Reply>): bool {
    flag && !Unauthorized(reply)
  }

  /** A 401 ends the session, whatever cookies came with it. */
  lemma UnauthorizedEndsSession(jar: Jar, flag: bool, reply: Result<Reply>)
    requires Unauthorized(reply)
    ensures JarAfter(jar, reply) == [] && !AuthenticatedAfter(flag, reply)
    ensures Resolve(reply).Fail?
  {
  }

  /** Any other answer keeps the flag and only adds cookies: every name
      stored before is still stored. */
  lemma OtherRepliesKeepSession(jar: Jar, flag: bool, reply: Result<Reply>)
    requires !Unauthorized(reply)
    ensures AuthenticatedAfter(flag, reply) == flag
    ensures NameSet(jar) <= NameSet(JarAfter(jar, reply))
  {
    if reply.Ok? {
      CaptureGrows(jar, reply.value.setCookie);
    }
  }

  lemma {:induction false} CaptureGrows(jar: Jar, headers: seq<string>)
    ensures NameSet(jar) <= NameSet(Capture(jar, headers))
  {
    if |headers| > 0 {
      var before := Capture(jar, headers[..|headers| - 1]);
      CaptureGrows(jar, headers[..|headers| - 1]);
      var h := headers[|headers| - 1];
      if CookiePair(h).Some? {
        PutNames(before, CookiePair(h).value.0, CookiePair(h).value.1);
      }
    }
  }

  // ---------------------------------------------------------------------
  // Logging in

  const LoginPath: string := "/apis/authentication"

  /** Whether the jar holds a `SessionID` cookie with a non-empty value
      (an empty string is falsy). */
  predicate HasSession(jar: Jar) {
    Get(jar, "SessionID").Some? && Get(jar, "SessionID").value != ""
  }

  /** `authenticate`: the login POST must resolve, and afterwards the jar
      must hold a session cookie. A rejected request returns false. */
  predicate LoginSucceeds(jar: Jar, reply: Result<Reply>) {
    Resolve(reply).Ok? && HasSession(JarAfter(jar, reply))
  }

  /** Logging in needs a 2xx answer, whatever the jar held. */
  lemma LoginNeedsSuccess(jar: Jar, reply: Result<Reply>)
    requires LoginSucceeds(jar, reply)
    ensures Success(reply)
  {
  }

  /** A 2xx answer whose last `SessionID` cookie is non-empty logs in. */
  lemma LoginByNewCookie(jar: Jar, reply: Result<Reply>, i: nat, value: string)
    requires Success(reply)
    requires i < |reply.value.setCookie| && CookiePair(reply.value.setCookie[i]) == Some(("SessionID", value))
    requires forall j :: i < j < |reply.value.setCookie| ==> !Names(reply.value.setCookie[j], "SessionID")
    ensures LoginSucceeds(jar, reply) <==> value != ""
  {
    CaptureLastWins(jar, reply.value.setCookie, i, "SessionID", value);
  }

  /** A 2xx answer that sets no `SessionID` logs in exactly when the jar
      already held one: a session cookie from before is reused. */
  lemma LoginByStoredCookie(jar: Jar, reply: Result<Reply>)
    requires Success(reply)
    requires forall j :: 0 <= j < |reply.value.setCookie| ==> !Names(reply.value.setCookie[j], "SessionID")
    ensures LoginSucceeds(jar, reply) <==> HasSession(jar)
  {
    CaptureKeeps(jar, reply.value.setCookie, "SessionID");
  }

  lemma LoginPathNormal()
    ensures NormalizePath(LoginPath) == LoginPath
  {
    NormalizeFixedPoints(LoginPath);
  }

  // ---------------------------------------------------------------------
  // The client's state

  /** The cookie jar and the `authenticated` flag of one plugin instance. */
  class Client {
    var cookies: Jar
    var authenticated: bool

    ghost predicate Valid()
      reads this
    {
      WellFormed(cookies)
    }

    constructor ()
      ensures cookies == [] && !authenticated && Valid()
    {
      cookies := [];
      authenticated := false;
    }

    /** The request side of `makeRequest`: the path and the `Cookie`
        header, which carries the jar exactly. */
    method Prepare(endpoint: string) returns (path: string, cookieHeader: Option<string>)
      requires Valid()
      ensures path == NormalizePath(endpoint)
      ensures StartsWith(path, "/apis") && NormalizePath(path) == path
      ensures path in {endpoint, "/" + endpoint, "/apis" + endpoint, "/apis/" + endpoint}
      ensures cookieHeader.None? <==> cookies == []
      ensures cookieHeader.Some? ==> ParseCookieHeader(cookieHeader.value) == cookies
    {
      path := NormalizePath(endpoint);
      NormalizeUnderApis(endpoint);
      NormalizeIdempotent(endpoint);
      NormalizeKeepsEndpoint(endpoint);
      cookieHeader := CookieHeader(cookies);
      if cookies != [] {
        CookieHeaderRoundTrip(cookies);
      }
    }

    /** The `forEach` over a reply's `Set-Cookie` headers. */
    method CaptureCookies(headers: seq<string>)
      requires Valid()
      modifies this
      ensures Valid()
      ensures cookies == Capture(old(cookies), headers)
      ensures authenticated == old(authenticated)
    {
      var i := 0;
      while i < |headers|
        invariant 0 <= i <= |headers|
        invariant cookies == Capture(old(cookies), headers[..i])
        invariant authenticated == old(authenticated)
      {
        var parts := Split(Split(headers[i], ';')[0], '=');
        if |parts| == 2 {
          cookies := Put(cookies, parts[0], parts[1]);
        }
        assert headers[..i + 1][..i] == headers[..i];
        i := i + 1;
      }
      assert headers[..i] == headers;
      CaptureWellFormed(old(cookies), headers);
    }

    /** The reply side of `makeRequest`: capture the cookies, then resolve
        on 2xx, or end the session on 401, or reject. */
    method Complete(reply: Result<Reply>) returns (r: Result<Json>)
      requires Valid()
      modifies this
      ensures Valid()
      ensures r == Resolve(reply)
      ensures cookies == JarAfter(old(cookies), reply)
      ensures authenticated == AuthenticatedAfter(old(authenticated), reply)
    {
      if reply.Fail? {
        return Fail;
      }
      var res := reply.value;
      CaptureCookies(res.setCookie);
      if 200 <= res.status < 300 {
        if res.body == "" {
          r := Ok(Obj(map[]));
        } else if res.parsed.Some? {
          r := Ok(res.parsed.value);
        } else {
          r := Ok(Obj(map["raw" := Str(res.body)]));
        }
      } else if res.status == 401 {
        cookies := [];
        authenticated := false;
        r := Fail;
      } else {
        r := Fail;
      }
    }

    /** `authenticate`: the login request, then the session cookie test. */
    method Authenticate(reply: Result<Reply>) returns (path: string, ok: bool)
      requires Valid()
      modifies this
      ensures Valid()
      ensures path == LoginPath
      ensures ok == LoginSucceeds(old(cookies), reply)
      ensures cookies == JarAfter(old(cookies), reply)
      ensures authenticated == (ok || AuthenticatedAfter(old(authenticated), reply))
    {
      var cookieHeader;
      path, cookieHeader := Prepare(LoginPath);
      LoginPathNormal();
      var r := Complete(reply);
      ok := false;
      if r.Ok? {
        var session := Get(cookies, "SessionID");
        if session.Some? && session.value != "" {
          authenticated := true;
          ok := true;
        }
      }
    }
  }
}
