/** Admission tickets and the reserved headers in which they travel. */
module Ticket {
  import opened Common
  import opened Text
  import opened Headers

  const SCOPE_HEADER: Name := "x-breeze-admission-scope"
  const TOKEN_HEADER: Name := "x-breeze-admission-token"

  datatype Uri = Uri(scheme: Option<string>, authority: Option<string>, pathAndQuery: Option<string>)

  datatype TicketError = InvalidTicket | InvalidRecorderUrl

  datatype Ticket = Ticket(scope: string, token: string, origin: Option<Uri>)

  predicate IsWhitespace(c: char) { c in " \t\n\r" || c as int == 11 || c as int == 12 }

  predicate IsAscii(s: string) { forall c | c in s :: c as int < 128 }

  /** The text of a header value: printable ASCII and tabs. */
  predicate IsVisible(s: string) { forall c | c in s :: 32 <= c as int < 127 || c == '\t' }

  /** `AdmissionTicket::new` */
  function New(scope: string, token: string): (r: Result<Ticket, TicketError>) {
    if || (forall c | c in scope :: IsWhitespace(c))
       || (forall c | c in token :: IsWhitespace(c))
       || !IsAscii(scope) || !IsAscii(token)
    then Err(InvalidTicket)
    else if !IsVisible(scope) || !IsVisible(token) then Err(InvalidTicket)
    else Ok(Ticket(scope, token, None))
  }

  /** Text that a ticket can carry: not blank, and fit for a header value. */
  predicate Sendable(s: string) { (exists c :: c in s && !IsWhitespace(c)) && IsVisible(s) }

  /** In terms of characters: printable or tab throughout, and printable beyond the space somewhere. */
  lemma SendableIsExact(s: string)
    ensures Sendable(s) <==>
            && (forall c | c in s :: c as int == 9 || 32 <= c as int <= 126)
            && exists c :: c in s && 33 <= c as int <= 126
  {
    assert '\t' as int == 9;
    if Sendable(s) {
      var c :| c in s && !IsWhitespace(c);
      assert c != ' ' && c != '\t';
    }
    if c :| c in s && 33 <= c as int <= 126 {
      assert !IsWhitespace(c);
    }
  }

  /** A ticket exists exactly for two sendable texts. */
  lemma NewIsExact(scope: string, token: string)
    ensures New(scope, token).Ok? <==> Sendable(scope) && Sendable(token)
    ensures New(scope, token).Ok? ==> New(scope, token).value == Ticket(scope, token, None)
  {
  }

  predicate IsHexDigit(c: char) { '0' <= c <= '9' || 'a' <= c <= 'f' }

  /** Random tokens are hexadecimal, so whether a ticket can be built depends on the scope alone. */
  lemma ScopeDecides(scope: string, token: string)
    requires token != "" && forall c | c in token :: IsHexDigit(c)
    ensures New(scope, token).Ok? <==> Sendable(scope)
  {
    NewIsExact(scope, token);
    assert token[0] in token && !IsWhitespace(token[0]);
  }

  /** Tickets are only built by `New`, possibly followed by `WithOrigin`. */
  predicate Valid(t: Ticket) { New(t.scope, t.token).Ok? }

  /** `Uri::path`: the text before the query, and `/` for an empty one. */
  function PathOf(uri: Uri): (path: string) {
    var text := if uri.pathAndQuery.Some? then uri.pathAndQuery.value else "";
    var path := if '?' in text then Split(text, '?')[0] else text;
    if path == "" then "/" else path
  }

  predicate HasQuery(uri: Uri) { uri.pathAndQuery.Some? && '?' in uri.pathAndQuery.value }

  /** `with_origin`: accepts exactly http origins, written without a path or with the root path. */
  function WithOrigin(t: Ticket, origin: Uri): (r: Result<Ticket, TicketError>)
    ensures r.Ok? <==>
            && origin.scheme == Some("http") && origin.authority.Some?
            && origin.pathAndQuery in {None, Some(""), Some("/")}
    ensures r.Ok? ==> r.value.origin == Some(origin) && r.value.scope == t.scope && r.value.token == t.token
    ensures r.Ok? ==> (Valid(r.value) <==> Valid(t))
    ensures r.Err? ==> r.error == InvalidRecorderUrl
  {
    if || origin.scheme != Some("http")
       || origin.authority.None?
       || PathOf(origin) != "/"
       || HasQuery(origin)
    then Err(InvalidRecorderUrl)
    else Ok(t.(origin := Some(origin)))
  }

  /** `attach`: each header is replaced by one line. */
  function Attached(f: Fields, t: Ticket): (r: Fields) {
    f[SCOPE_HEADER := [t.scope]][TOKEN_HEADER := [t.token]]
  }

  function Detached(f: Fields): (r: Fields) {
    f - {SCOPE_HEADER, TOKEN_HEADER}
  }

  /** `from_headers` */
  function FromHeaders(f: Fields): (r: Result<Option<Ticket>, TicketError>) {
    var scopes, tokens := Lines(f, SCOPE_HEADER), Lines(f, TOKEN_HEADER);
    if scopes == [] && tokens == [] then Ok(None)
    else if scopes != [] && tokens != [] then
      if |scopes| != 1 || |tokens| != 1 then Err(InvalidTicket)
      else if !IsVisible(scopes[0]) || !IsVisible(tokens[0]) then Err(InvalidTicket)
      else
        var t := New(scopes[0], tokens[0]);
        if t.Ok? then Ok(Some(t.value)) else Err(t.error)
    else Err(InvalidTicket)
  }

  /**
   * A ticket is read exactly from one sendable line of each header; a request without
   * both headers has none, and anything else is refused.
   */
  lemma FromHeadersIsExact(f: Fields)
    requires forall name | name in f :: f[name] != []
    ensures var scope, token := "x-breeze-admission-scope", "x-breeze-admission-token";
            && (FromHeaders(f) == Ok(None) <==> scope !in f && token !in f)
            && (FromHeaders(f).Ok? && FromHeaders(f).value.Some? <==>
                  && scope in f && token in f && |f[scope]| == 1 && |f[token]| == 1
                  && Sendable(f[scope][0]) && Sendable(f[token][0]))
            && (FromHeaders(f).Ok? && FromHeaders(f).value.Some? ==>
                  FromHeaders(f).value.value == Ticket(f[scope][0], f[token][0], None))
            && (FromHeaders(f).Err? ==> FromHeaders(f).error == InvalidTicket)
  {
    hide Sendable, IsVisible;
    var scopes, tokens := Lines(f, SCOPE_HEADER), Lines(f, TOKEN_HEADER);
    if |scopes| == 1 && |tokens| == 1 {
      NewIsExact(scopes[0], tokens[0]);
      SendableIsVisible(scopes[0]);
      SendableIsVisible(tokens[0]);
    }
  }

  lemma SendableIsVisible(s: string)
    ensures Sendable(s) ==> IsVisible(s)
  {
  }

  /** A ticket survives the transport headers, whatever they held before. */
  lemma AttachRoundTrip(f: Fields, t: Ticket)
    requires Valid(t)
    ensures FromHeaders(Attached(f, t)) == Ok(Some(t.(origin := None)))
  {
    assert SCOPE_HEADER != TOKEN_HEADER;
  }

  /** Detaching undoes attaching on requests that carried no admission header. */
  lemma DetachUndoesAttach(f: Fields, t: Ticket)
    requires SCOPE_HEADER !in f && TOKEN_HEADER !in f
    ensures Detached(Attached(f, t)) == f
  {
  }
}
