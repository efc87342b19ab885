/**
 * The embedding proxy (`GET /api/proxy?url=...`, and `POST`, which does the
 * same): it fetches a page, drops the headers that forbid framing, forces
 * permissive ones, and for HTML splices a `<base>` tag and a navigation
 * script into the document so that the page works inside an iframe.
 *
 * The URL parser and the upstream fetch are parameters: `parse` stands for
 * `new URL(...)` (None when it throws) and `fetch` for the network request
 * together with reading its body.
 */
module Proxy {
  import opened Wrappers
  import opened Strings

  /** The parts of a parsed URL the proxy reads. */
  datatype Url = Url(protocol: string, host: string, pathname: string)

  /**
   * What upstream answered: its status, its headers in the order `forEach`
   * visits them, the body as text (for HTML) and as bytes (for the rest).
   */
  datatype Upstream = Upstream(status: int, headers: seq<(string, string)>, text: string, bytes: seq<bv8>)

  datatype FetchResult = Fetched(response: Upstream) | Threw(message: string)

  /** The proxy's reply; header maps are keyed by lower-cased name, as `Headers` stores them. */
  datatype Response =
    | JsonError(status: int, error: string)
    | Document(status: int, headers: map<string, string>, html: string)
    | Passthrough(status: int, headers: map<string, string>, body: seq<bv8>)

  const MissingUrl := "URL não fornecida"
  const InvalidUrl := "URL inválida"
  const Unreachable := "Não foi possível acessar: "

  /** The upstream headers that are never copied. */
  const StrippedNames: set<string> := {"x-frame-options", "content-security-policy", "x-content-type-options", "content-encoding"}
  const FrameOptions := "x-frame-options"
  const AllowOrigin := "access-control-allow-origin"
  const ContentTypeKey := "content-type"
  const HtmlContentType := "text/html; charset=utf-8"

  /** The header names the handler writes, in the spelling it writes them, lower-case as `Headers` keys them. */
  lemma FrameOptionsLowered()
    ensures Lower("X-Frame-Options") == FrameOptions
  {
  }

  lemma AllowOriginLowered()
    ensures Lower("Access-Control-Allow-Origin") == AllowOrigin
  {
  }

  lemma ContentTypeLowered()
    ensures Lower("Content-Type") == ContentTypeKey
  {
  }

  /** A `Headers` object: one value per lower-cased name. */
  class HeaderMap {
    var fields: map<string, string>

    constructor()
      ensures fields == map[]
    {
      fields := map[];
    }

    /** `set(name, value)`: replaces whatever the name (in any case) held. */
    method Set(name: string, value: string)
      modifies this
      ensures fields == old(fields)[Lower(name) := value]
    {
      fields := fields[Lower(name) := value];
    }
  }

  /** `headers.get(name)` on the upstream headers: the value of the last entry with that (lower-cased) name. */
  function Lookup(hs: seq<(string, string)>, name: string): (r: Option<string>)
    ensures r.None? ==> forall i :: 0 <= i < |hs| ==> Lower(hs[i].0) != name
    ensures r.Some? ==> exists i :: 0 <= i < |hs| && Lower(hs[i].0) == name && hs[i].1 == r.value
                                    && forall j :: i < j < |hs| ==> Lower(hs[j].0) != name
  {
    if hs == [] then None
    else if Lower(hs[|hs| - 1].0) == name then
      assert Lower(hs[|hs| - 1].0) == name && hs[|hs| - 1].1 == hs[|hs| - 1].1;
      Some(hs[|hs| - 1].1)
    else
      var prefix := hs[..|hs| - 1];
      var r := Lookup(prefix, name);
      if r.Some? then
        var i :| 0 <= i < |prefix| && Lower(prefix[i].0) == name && prefix[i].1 == r.value
                 && forall j :: i < j < |prefix| ==> Lower(prefix[j].0) != name;
        assert hs[i] == prefix[i];
        r
      else r
  }

  /**
   * The headers after the copy loop: every upstream entry whose name is not
   * stripped, set in visiting order, so a later entry with the same name wins.
   */
  function Filtered(hs: seq<(string, string)>): (m: map<string, string>)
    ensures forall k :: k in m ==> k !in StrippedNames
  {
    if hs == [] then map[]
    else
      var prev := Filtered(hs[..|hs| - 1]);
      var name := Lower(hs[|hs| - 1].0);
      if name in StrippedNames then prev else prev[name := hs[|hs| - 1].1]
  }

  /** The copy keeps exactly what a lookup on the upstream headers sees, for every name not stripped. */
  lemma {:induction false} FilteredAgreesWithLookup(hs: seq<(string, string)>, name: string)
    requires name !in StrippedNames
    ensures name in Filtered(hs) <==> Lookup(hs, name).Some?
    ensures name in Filtered(hs) ==> Filtered(hs)[name] == Lookup(hs, name).value
  {
    if hs != [] {
      FilteredAgreesWithLookup(hs[..|hs| - 1], name);
    }
  }

  /** The headers of every non-error reply: the copy, then the two permissive headers forced. */
  function ResponseHeaders(hs: seq<(string, string)>): (m: map<string, string>)
    ensures FrameOptions in m && m[FrameOptions] == "ALLOWALL"
    ensures AllowOrigin in m && m[AllowOrigin] == "*"
    ensures forall k :: k in StrippedNames && k != FrameOptions ==> k !in m
    ensures forall k :: k in m && k != FrameOptions && k != AllowOrigin ==> k in Filtered(hs) && m[k] == Filtered(hs)[k]
    ensures forall k :: k in Filtered(hs) && k != AllowOrigin ==> k in m && m[k] == Filtered(hs)[k]
  {
    Filtered(hs)[FrameOptions := "ALLOWALL"][AllowOrigin := "*"]
  }

  /**
   * Every upstream header other than the stripped ones and the forced
   * `Access-Control-Allow-Origin` reaches the reply with the value a lookup
   * on the upstream headers gives, and nothing else does.
   */
  lemma OtherHeadersCopied(hs: seq<(string, string)>, name: string)
    requires name !in StrippedNames && name != AllowOrigin
    ensures name in ResponseHeaders(hs) <==> Lookup(hs, name).Some?
    ensures name in ResponseHeaders(hs) ==> ResponseHeaders(hs)[name] == Lookup(hs, name).value
  {
    FilteredAgreesWithLookup(hs, name);
  }

  /** `response.headers.get('content-type') || ''`. */
  function ContentType(hs: seq<(string, string)>): string
  {
    OrDefault(Lookup(hs, ContentTypeKey), "")
  }

  predicate IsHtml(hs: seq<(string, string)>)
  {
    Contains(ContentType(hs), "text/html")
  }

  /** `${protocol}//${host}`. */
  function BaseOrigin(url: Url): string
  {
    url.protocol + "//" + url.host
  }

  /**
   * The directory part of the path: the path itself when it ends in `/`,
   * otherwise everything up to and including its last `/` (empty when it has none).
   */
  function BasePath(pathname: string): (p: string)
    ensures p <= pathname
    ensures EndsWith(pathname, "/") ==> p == pathname
    ensures '/' in pathname ==> |p| > 0 && p[|p| - 1] == '/'
    ensures forall k :: |p| <= k < |pathname| ==> pathname[k] != '/'
    ensures '/' !in pathname ==> p == ""
  {
    if EndsWith(pathname, "/") then pathname
    else pathname[..LastIndexOf(pathname, '/') + 1]
  }

  function BaseHref(url: Url): string
  {
    BaseOrigin(url) + BasePath(url.pathname)
  }

  const BaseTagOpen := "<base href=\""
  const ScriptToOrigin :=
    "\n<script>\n// Allow navigation within the iframe\nwindow.addEventListener('click', function(e) {\n"
    + "    var el = e.target.closest('a');\n"
    + "    if (el && el.href && !el.href.startsWith('javascript:')) {\n"
    + "        var href = el.href;\n"
    + "        if (!href.startsWith('"
  const ScriptFromOrigin :=
    "') && !href.startsWith('/')) return;\n"
    + "        e.preventDefault();\n"
    + "        var proxyUrl = '/_proxy?url=' + encodeURIComponent(href);\n"
    + "        window.location.href = proxyUrl;\n"
    + "    }\n"
    + "}, true);\n"
    + "</script>"

  /** The `<base>` tag that makes the page's relative links resolve against `baseHref`. */
  function BaseTag(baseHref: string): string
  {
    BaseTagOpen + baseHref + "\">"
  }

  /**
   * The script that routes same-origin and root-relative link clicks back
   * through the proxy (its behaviour in the browser is not modelled).
   */
  function NavigationScript(baseOrigin: string): (script: string)
    ensures EndsWith(script, "</script>")
  {
    var script := ScriptToOrigin + baseOrigin + ScriptFromOrigin;
    assert script[|script| - 9..] == ScriptFromOrigin[|ScriptFromOrigin| - 9..];
    script
  }

  /** The trimmed injection: the `<base>` tag, then the navigation script. */
  function Injection(baseHref: string, baseOrigin: string): (inj: string)
    ensures BaseTag(baseHref) <= inj
    ensures EndsWith(inj, "</script>")
  {
    var inj := BaseTag(baseHref) + NavigationScript(baseOrigin);
    assert inj[..|BaseTag(baseHref)|] == BaseTag(baseHref);
    assert inj[|inj| - 9..] == NavigationScript(baseOrigin)[|NavigationScript(baseOrigin)| - 9..];
    inj
  }

  /**
   * Where the injection goes: before the first `</head>`; failing that,
   * right after the first `<head>`; failing that, at the very start.
   */
  function InsertionPoint(html: string): (i: nat)
    ensures i <= |html|
    ensures Contains(html, "</head>") ==>
              OccursAt(html, "</head>", i) && forall j: nat :: j < i ==> !OccursAt(html, "</head>", j)
    ensures !Contains(html, "</head>") && Contains(html, "<head>") ==>
              i >= 6 && OccursAt(html, "<head>", i - 6) && forall j: nat :: j < i - 6 ==> !OccursAt(html, "<head>", j)
    ensures !Contains(html, "</head>") && !Contains(html, "<head>") ==> i == 0
  {
    match IndexOf(html, "</head>")
    case Some(i) => i
    case None =>
      match IndexOf(html, "<head>")
      case Some(j) => j + 6
      case None => 0
  }

  /**
   * The rewritten document: the injection spliced in at the insertion point
   * and nothing else changed.
   */
  function Inject(html: string, inj: string): (r: string)
    ensures r == html[..InsertionPoint(html)] + inj + html[InsertionPoint(html)..]
    ensures |r| == |html| + |inj|
    ensures r[InsertionPoint(html)..InsertionPoint(html) + |inj|] == inj
  {
    var i := InsertionPoint(html);
    var r :=
      if Contains(html, "</head>") then
        SpliceBeforeMatch(html, "</head>", inj);
        ReplaceFirst(html, "</head>", inj + "</head>")
      else if Contains(html, "<head>") then
        SpliceAfterMatch(html, "<head>", inj);
        ReplaceFirst(html, "<head>", "<head>" + inj)
      else
        assert html[..0] == [] && html[0..] == html;
        inj + html;
    assert r[i..i + |inj|] == inj;
    r
  }

  /**
   * The replacement text as JavaScript's `String.prototype.replace` reads it
   * when the pattern is a string (so there are no capture groups): `$$` is a
   * dollar sign, `$&` the matched text, `` $` `` the text before the match,
   * `$'` the text after it; every other character stands for itself.
   */
  function Expand(rep: string, before: string, matched: string, after: string): string
    decreases |rep|
  {
    if rep == [] then []
    else if rep[0] == '$' && |rep| >= 2 && rep[1] in "$&`'" then
      (if rep[1] == '$' then "$" else if rep[1] == '&' then matched else if rep[1] == '`' then before else after)
      + Expand(rep[2..], before, matched, after)
    else [rep[0]] + Expand(rep[1..], before, matched, after)
  }

  /** Text without a dollar sign is inserted as it is. */
  lemma {:induction false} ExpandLiteralPrefix(x: string, y: string, before: string, matched: string, after: string)
    requires '$' !in x
    ensures Expand(x + y, before, matched, after) == x + Expand(y, before, matched, after)
    decreases |x|
  {
    if x != [] {
      assert (x + y)[0] == x[0] && x[0] != '$';
      assert (x + y)[1..] == x[1..] + y;
      assert '$' !in x[1..];
      ExpandLiteralPrefix(x[1..], y, before, matched, after);
      calc {
        Expand(x + y, before, matched, after);
        [x[0]] + Expand(x[1..] + y, before, matched, after);
        [x[0]] + (x[1..] + Expand(y, before, matched, after));
        { assert [x[0]] + x[1..] == x; }
        x + Expand(y, before, matched, after);
      }
    } else {
      assert x + y == y;
    }
  }

  /** `s.replace(p, rep)` exactly as JavaScript runs it for a string pattern. */
  function JsReplaceFirst(s: string, p: string, rep: string): string
  {
    match IndexOf(s, p)
    case None => s
    case Some(i) => s[..i] + Expand(rep, s[..i], p, s[i + |p|..]) + s[i + |p|..]
  }

  /**
   * The splice as the handler writes it: the injection goes through
   * `replace`, so dollar patterns in it are expanded. When the injection has
   * no dollar sign this is the literal splice `Inject`.
   */
  function InjectAsWritten(html: string, inj: string): (r: string)
    ensures '$' !in inj ==> r == Inject(html, inj)
  {
    if Contains(html, "</head>") then
      var i := IndexOf(html, "</head>").value;
      if '$' !in inj then
        ExpandLiteralPrefix(inj + "</head>", [], html[..i], "</head>", html[i + 7..]);
        assert inj + "</head>" + [] == inj + "</head>";
        JsReplaceFirst(html, "</head>", inj + "</head>")
      else JsReplaceFirst(html, "</head>", inj + "</head>")
    else if Contains(html, "<head>") then
      var j := IndexOf(html, "<head>").value;
      if '$' !in inj then
        ExpandLiteralPrefix("<head>" + inj, [], html[..j], "<head>", html[j + 6..]);
        assert "<head>" + inj + [] == "<head>" + inj;
        JsReplaceFirst(html, "<head>", "<head>" + inj)
      else JsReplaceFirst(html, "<head>", "<head>" + inj)
    else inj + html
  }

  /**
   * Whenever the injection holds `$&` with no dollar sign before it and the
   * page has a `</head>`, the splice as written differs from the literal one:
   * `replace` puts the matched `</head>` where the `$&` was.
   */
  lemma DollarAmpersandSplice(html: string, inj: string, n: nat)
    requires Contains(html, "</head>")
    requires n + 2 <= |inj| && inj[n] == '$' && inj[n + 1] == '&' && '$' !in inj[..n]
    ensures InjectAsWritten(html, inj) != Inject(html, inj)
  {
    var i := IndexOf(html, "</head>").value;
    var before, after := html[..i], html[i + 7..];
    var expanded := ExpandAfterDollarAmpersand(inj, n, before, after);
    var asWritten := InjectAsWritten(html, inj);
    assert asWritten == before + expanded + after;
    assert asWritten[i + n + 1] == expanded[n + 1] == '/';
    assert Inject(html, inj)[i + n + 1] == inj[n + 1];
  }

  /** Expanding `inj + "</head>"` when `inj` holds `$&` at `n`: the matched `</head>` lands at `n`. */
  lemma ExpandAfterDollarAmpersand(inj: string, n: nat, before: string, after: string) returns (expanded: string)
    requires n + 2 <= |inj| && inj[n] == '$' && inj[n + 1] == '&' && '$' !in inj[..n]
    ensures expanded == Expand(inj + "</head>", before, "</head>", after)
    ensures n + 2 <= |expanded| && expanded[n + 1] == '/'
  {
    var rest := (inj + "</head>")[n + 2..];
    assert inj + "</head>" == inj[..n] + ("$&" + rest);
    ExpandLiteralPrefix(inj[..n], "$&" + rest, before, "</head>", after);
    assert ("$&" + rest)[2..] == rest;
    expanded := Expand(inj + "</head>", before, "</head>", after);
    assert expanded == inj[..n] + ("</head>" + Expand(rest, before, "</head>", after));
  }

  /** The `<base>` tag for a directory named `$&`: the pair right after the origin and its slash. */
  lemma DollarTag(origin: string) returns (n: nat)
    requires '$' !in origin
    ensures var tag := BaseTag(origin + "/$&/");
            n + 2 <= |tag| && tag[n] == '$' && tag[n + 1] == '&' && '$' !in tag[..n]
  {
    var tag := BaseTag(origin + "/$&/");
    n := |BaseTagOpen| + |origin| + 1;
    assert tag[..n] == BaseTagOpen + origin + "/";
  }

  /**
   * Under a directory named `$&` the injection holds `$&` right after the
   * origin and its slash, with no dollar sign before it.
   */
  lemma DollarPathInjection(url: Url) returns (n: nat)
    requires url.pathname == "/$&/" && '$' !in url.protocol && '$' !in url.host
    ensures var inj := Injection(BaseHref(url), BaseOrigin(url));
            n + 2 <= |inj| && inj[n] == '$' && inj[n + 1] == '&' && '$' !in inj[..n]
  {
    var origin := BaseOrigin(url);
    assert EndsWith(url.pathname, "/");
    assert BaseHref(url) == origin + "/$&/";
    n := DollarTag(origin);
    var tag := BaseTag(BaseHref(url));
    var inj := Injection(BaseHref(url), origin);
    assert inj[..|tag|] == tag;
    assert inj[..n] == tag[..n];
  }

  /**
   * A page under a directory named `$&` (for example `http://x.test/$&/`,
   * sent percent-encoded as the `url` query parameter, and which the URL
   * parser leaves as it is) gets a broken `<base>` tag when
   * the document has a `</head>`.
   */
  lemma DollarPathCorruptsBase(url: Url, html: string)
    requires url.pathname == "/$&/" && '$' !in url.protocol && '$' !in url.host
    requires Contains(html, "</head>")
    ensures InjectAsWritten(html, Injection(BaseHref(url), BaseOrigin(url)))
            != Inject(html, Injection(BaseHref(url), BaseOrigin(url)))
  {
    var n := DollarPathInjection(url);
    DollarAmpersandSplice(html, Injection(BaseHref(url), BaseOrigin(url)), n);
  }

  /** The URL was given and parses: only then is upstream contacted. */
  predicate Accepted(query: Option<string>, parse: string -> Option<Url>)
  {
    query.Some? && query.value != "" && parse(query.value).Some?
  }

  /**
   * The statuses with which the Fetch `Response` constructor refuses a reply
   * that has a body: anything outside 200..599 (a RangeError) and the
   * null-body statuses 204, 205 and 304 (a TypeError). The handler always
   * passes a body, so for these its `try` ends in the `catch`.
   */
  predicate RefusedStatus(status: int)
  {
    status < 200 || status > 599 || status == 204 || status == 205 || status == 304
  }

  /**
   * What `GET` answers. `refusal` gives the message of the error the
   * `Response` constructor throws for a refused status.
   */
  function Handle(query: Option<string>, parse: string -> Option<Url>, fetch: string -> FetchResult,
                  refusal: int -> string): (resp: Response)
    ensures query.None? || query.value == "" ==> resp == JsonError(400, MissingUrl)
    ensures query.Some? && query.value != "" && parse(query.value).None? ==> resp == JsonError(400, InvalidUrl)
    ensures Accepted(query, parse) && fetch(query.value).Threw? ==>
              resp == JsonError(502, Unreachable + fetch(query.value).message)
    ensures Accepted(query, parse) && fetch(query.value).Fetched? && RefusedStatus(fetch(query.value).response.status) ==>
              resp == JsonError(502, Unreachable + refusal(fetch(query.value).response.status))
    ensures Accepted(query, parse) && fetch(query.value).Fetched? && !RefusedStatus(fetch(query.value).response.status) ==>
              var up := fetch(query.value).response;
              && !resp.JsonError?
              && resp.status == up.status
              && (resp.Document? <==> IsHtml(up.headers))
              && (resp.Passthrough? ==> resp.headers == ResponseHeaders(up.headers) && resp.body == up.bytes)
              && (resp.Document? ==>
                    && resp.headers == ResponseHeaders(up.headers)[ContentTypeKey := HtmlContentType]
                    && var url := parse(query.value).value;
                       resp.html == Inject(up.text, Injection(BaseHref(url), BaseOrigin(url))))
  {
    if query.None? || query.value == "" then JsonError(400, MissingUrl)
    else match parse(query.value)
      case None => JsonError(400, InvalidUrl)
      case Some(url) =>
        match fetch(query.value)
        case Threw(message) => JsonError(502, Unreachable + message)
        case Fetched(up) =>
          if RefusedStatus(up.status) then JsonError(502, Unreachable + refusal(up.status))
          else if IsHtml(up.headers) then
            Document(up.status, ResponseHeaders(up.headers)[ContentTypeKey := HtmlContentType],
                     Inject(up.text, Injection(BaseHref(url), BaseOrigin(url))))
          else Passthrough(up.status, ResponseHeaders(up.headers), up.bytes)
  }

  /** The `forEach` over the upstream headers: a fresh `Headers` holding every entry not stripped. */
  method CopyHeaders(hs: seq<(string, string)>) returns (responseHeaders: HeaderMap)
    ensures fresh(responseHeaders)
    ensures responseHeaders.fields == Filtered(hs)
  {
    responseHeaders := new HeaderMap();
    for i := 0 to |hs|
      invariant fresh(responseHeaders)
      invariant responseHeaders.fields == Filtered(hs[..i])
    {
      var (key, value) := hs[i];
      if Lower(key) !in StrippedNames {
        responseHeaders.Set(key, value);
      }
      assert hs[..i + 1][..i] == hs[..i];
    }
    assert hs[..|hs|] == hs;
  }

  /** The handler step by step: the header copy loop, the forced headers, the splice. */
  method Get(query: Option<string>, parse: string -> Option<Url>, fetch: string -> FetchResult,
             refusal: int -> string) returns (resp: Response)
    ensures resp == Handle(query, parse, fetch, refusal)
  {
    if query.None? || query.value == "" {
      return JsonError(400, MissingUrl);
    }
    var targetUrl := query.value;
    var parsed := parse(targetUrl);
    if parsed.None? {
      return JsonError(400, InvalidUrl);
    }
    var url := parsed.value;
    var fetched := fetch(targetUrl);
    if fetched.Threw? {
      return JsonError(502, Unreachable + fetched.message);
    }
    var upstream := fetched.response;
    var hs := upstream.headers;
    var responseHeaders := CopyHeaders(hs);
    FrameOptionsLowered();
    AllowOriginLowered();
    ContentTypeLowered();
    responseHeaders.Set("X-Frame-Options", "ALLOWALL");
    responseHeaders.Set("Access-Control-Allow-Origin", "*");
    var contentType := OrDefault(Lookup(hs, ContentTypeKey), "");
    if Contains(contentType, "text/html") {
      var html := upstream.text;
      var baseOrigin := url.protocol + "//" + url.host;
      var basePath := if EndsWith(url.pathname, "/") then url.pathname
                      else url.pathname[..LastIndexOf(url.pathname, '/') + 1];
      var baseHref := baseOrigin + basePath;
      var injection := Injection(baseHref, baseOrigin);
      if Contains(html, "</head>") {
        html := ReplaceFirst(html, "</head>", injection + "</head>");
      } else if Contains(html, "<head>") {
        html := ReplaceFirst(html, "<head>", "<head>" + injection);
      } else {
        html := injection + html;
      }
      responseHeaders.Set("Content-Type", HtmlContentType);
      if RefusedStatus(upstream.status) {
        return JsonError(502, Unreachable + refusal(upstream.status));
      }
      return Document(upstream.status, responseHeaders.fields, html);
    }
    if RefusedStatus(upstream.status) {
      return JsonError(502, Unreachable + refusal(upstream.status));
    }
    return Passthrough(upstream.status, responseHeaders.fields, upstream.bytes);
  }

  /** `POST` answers exactly as `GET`. */
  method Post(query: Option<string>, parse: string -> Option<Url>, fetch: string -> FetchResult,
              refusal: int -> string) returns (resp: Response)
    ensures resp == Handle(query, parse, fetch, refusal)
  {
    resp := Get(query, parse, fetch, refusal);
  }
}
