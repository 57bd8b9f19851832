/** Preparation of a request for its next hop. */
module Proxy {
  import opened Common
  import opened Headers
  import opened Ticket

  const HOST: Name := "host"
  const FORWARDED_FOR: Name := "x-forwarded-for"
  const FORWARDED_PROTO: Name := "x-forwarded-proto"
  const FORWARDED_HOST: Name := "x-forwarded-host"

  /** A forwarding origin; `from_admission` has no authority of its own. */
  datatype Origin = Origin(authority: Option<string>)

  /** The ticket's recorder wins over the configured origin. */
  function Target(origin: Origin, ticket: Option<Ticket>): (authority: Option<string>) {
    if ticket.Some? && ticket.value.origin.Some? && ticket.value.origin.value.authority.Some? then
      ticket.value.origin.value.authority
    else origin.authority
  }

  // ---------------------------------------------------------------------------
  // Headers
  // ---------------------------------------------------------------------------

  /** `append_forwarded_for`: the first line is extended, unreadable or missing ones are replaced. */
  function ForwardedFor(f: Fields, address: string): (r: Fields) {
    var lines := Lines(f, FORWARDED_FOR);
    if lines != [] && IsVisible(lines[0]) then
      var combined := lines[0] + ", " + address;
      if IsVisible(combined) then f[FORWARDED_FOR := [combined]] else f
    else if IsVisible(address) then f[FORWARDED_FOR := [address]]
    else if lines != [] then f - {FORWARDED_FOR}
    else f
  }

  function OrInsert(f: Fields, name: Name, value: Value): (r: Fields) {
    if name in f then f else f[name := [value]]
  }

  function PreparedFields(f: Fields, address: string, upgrade: bool, ticket: Option<Ticket>): (r: Fields) {
    var hosts := Lines(f, HOST);
    var g := OrInsert(ForwardedFor(Stripped(f, upgrade), address), FORWARDED_PROTO, "http");
    var h := if hosts != [] then OrInsert(g, FORWARDED_HOST, hosts[0]) else g;
    if ticket.Some? then Attached(h, ticket.value) else h
  }

  method AppendForwardedFor(headers: HeaderMap, address: string)
    modifies headers
    ensures headers.fields == ForwardedFor(old(headers.fields), address)
  {
    var lines := Lines(headers.fields, FORWARDED_FOR);
    if lines != [] {
      if !IsVisible(lines[0]) {
        headers.Remove(FORWARDED_FOR);
        if IsVisible(address) {
          headers.Insert(FORWARDED_FOR, address);
        }
        return;
      }
      var combined := lines[0] + ", " + address;
      if IsVisible(combined) {
        headers.Insert(FORWARDED_FOR, combined);
      }
    } else if IsVisible(address) {
      headers.Insert(FORWARDED_FOR, address);
    }
  }

  /** The header part of `prepare_request`, in place. */
  method PrepareHeaders(headers: HeaderMap, address: string, upgrade: bool, ticket: Option<Ticket>)
    modifies headers
    ensures headers.fields == PreparedFields(old(headers.fields), address, upgrade, ticket)
  {
    var hosts := Lines(headers.fields, HOST);
    headers.RemoveHopByHop(upgrade);
    AppendForwardedFor(headers, address);
    if FORWARDED_PROTO !in headers.fields {
      headers.Insert(FORWARDED_PROTO, "http");
    }
    if hosts != [] && FORWARDED_HOST !in headers.fields {
      headers.Insert(FORWARDED_HOST, hosts[0]);
    }
    if ticket.Some? {
      headers.Insert(SCOPE_HEADER, ticket.value.scope);
      headers.Insert(TOKEN_HEADER, ticket.value.token);
    }
  }

  const REWRITTEN: set<Name> := {FORWARDED_FOR, FORWARDED_PROTO, FORWARDED_HOST, SCOPE_HEADER, TOKEN_HEADER}

  /**
   * Preparation is exact: a field outside the five rewritten ones crosses the hop
   * with its values if and only if it is not hop-by-hop.
   */
  lemma PreparationIsExact(f: Fields, address: string, upgrade: bool, ticket: Option<Ticket>, name: Name)
    requires name !in REWRITTEN
    ensures var p := PreparedFields(f, address, upgrade, ticket);
            && (name in p <==> name in f && !HopByHop(f, upgrade, name))
            && (name in p ==> p[name] == f[name])
  {
  }

  /** The five rewritten fields, for a header map without empty entries and a printable peer address. */
  lemma RewrittenFields(f: Fields, address: string, upgrade: bool, ticket: Option<Ticket>)
    requires IsVisible(address)
    requires forall name | name in f :: f[name] != []
    ensures REWRITTEN == {"x-forwarded-for", "x-forwarded-proto", "x-forwarded-host",
                          "x-breeze-admission-scope", "x-breeze-admission-token"}
    ensures FORWARDED_FOR == "x-forwarded-for" && FORWARDED_PROTO == "x-forwarded-proto"
    ensures FORWARDED_HOST == "x-forwarded-host" && HOST == "host"
    ensures var p := PreparedFields(f, address, upgrade, ticket);
            var kept := Stripped(f, upgrade);
            && Lines(p, FORWARDED_FOR) ==
                 (if FORWARDED_FOR in kept && IsVisible(f[FORWARDED_FOR][0]) then
                    [f[FORWARDED_FOR][0] + ", " + address]
                  else [address])
            && Lines(p, FORWARDED_PROTO) == (if FORWARDED_PROTO in kept then f[FORWARDED_PROTO] else ["http"])
            && Lines(p, FORWARDED_HOST) ==
                 (if FORWARDED_HOST in kept then f[FORWARDED_HOST] else if HOST in f then [f[HOST][0]] else [])
            && Lines(p, SCOPE_HEADER) == (if ticket.Some? then [ticket.value.scope] else Lines(kept, SCOPE_HEADER))
            && Lines(p, TOKEN_HEADER) == (if ticket.Some? then [ticket.value.token] else Lines(kept, TOKEN_HEADER))
  {
    hide HopByHop, IsVisible;
    var kept := Stripped(f, upgrade);
    var g := ForwardedFor(kept, address);
    if FORWARDED_FOR in kept && IsVisible(kept[FORWARDED_FOR][0]) {
      VisibleJoin(kept[FORWARDED_FOR][0], address);
    }
    assert Lines(g, FORWARDED_FOR) ==
           (if FORWARDED_FOR in kept && IsVisible(f[FORWARDED_FOR][0]) then
              [f[FORWARDED_FOR][0] + ", " + address]
            else [address]);
    assert forall name | name != FORWARDED_FOR :: Lines(g, name) == Lines(kept, name);
  }

  lemma VisibleJoin(a: string, b: string)
    requires IsVisible(a) && IsVisible(b)
    ensures IsVisible(a + ", " + b)
  {
    forall c | c in a + ", " + b ensures 32 <= c as int < 127 || c == '\t' {
      assert c in a || c in ", " || c in b;
    }
  }

  /** No Connection nomination can strip the gateway's own ticket. */
  lemma TicketSurvivesPreparation(f: Fields, address: string, upgrade: bool, ticket: Ticket)
    requires Valid(ticket)
    ensures FromHeaders(PreparedFields(f, address, upgrade, Some(ticket))) == Ok(Some(ticket.(origin := None)))
  {
    var hosts := Lines(f, HOST);
    var g := OrInsert(ForwardedFor(Stripped(f, upgrade), address), FORWARDED_PROTO, "http");
    AttachRoundTrip(if hosts != [] then OrInsert(g, FORWARDED_HOST, hosts[0]) else g, ticket);
  }

  // ---------------------------------------------------------------------------
  // Requests
  // ---------------------------------------------------------------------------

  /** A request body: data frames, then optional trailers, unless reading it fails midway. */
  datatype Stream = Stream(data: seq<string>, trailers: Option<Fields>, failed: bool)

  datatype Request = Request(
    verb: string,
    uri: Uri,
    version: string,
    fields: Fields,
    ticket: Option<Ticket>,
    fallback: Option<Origin>,
    body: Stream)

  /** `prepare_request`, for a target that exists; the URI builder may refuse its parts. */
  function Prepared(origin: Origin, r: Request, address: string, upgrade: bool, builds: (string, string) -> bool)
    : (p: Option<Request>)
    requires Target(origin, r.ticket).Some?
  {
    var target := Target(origin, r.ticket).value;
    var path := if r.uri.pathAndQuery.Some? then r.uri.pathAndQuery.value else "/";
    if !builds(target, path) then None
    else Some(r.(uri := Uri(Some("http"), Some(target), Some(path)),
                 fields := PreparedFields(r.fields, address, upgrade, r.ticket)))
  }
}
