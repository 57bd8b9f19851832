/**
 * `Gateway::handle` with `OriginService`: the admission decision, dispatch to the
 * recorder, and the single replay to the original origin. Methods return the log of
 * upstream contacts so that their contracts can speak about it.
 */
module Dispatch {
  import opened Common
  import opened Headers
  import opened Ticket
  import opened Proxy
  import opened Replay

  const RESPONSE_CORS_HEADER: Name := "x-breeze-response-cors"

  /** What the HTTP client reports for one request. */
  datatype Answer = ConnectError | OtherError | Answered(status: nat)

  /** One request handed to the HTTP client: its prepared head and its payload. */
  datatype Contact = Contact(
    authority: string,
    verb: string,
    uri: Uri,
    version: string,
    fields: Fields,
    payload: Payload)

  /** `local` responses are made by the gateway itself. */
  datatype Response = Response(status: nat, local: bool)

  /** The environment: the URI builder, and the client's answer to the n-th contact of this exchange. */
  datatype Env = Env(builds: (string, string) -> bool, answer: (nat, Contact) -> Answer, peer: string)

  /** The answer of the admission provider; errors include the acquisition timeout. */
  datatype Outcome = Acquired(ticket: Ticket) | Declined | Errored

  /**
   * What the route table says about this request: an excluded request selects no
   * route; `rule` is the scope of the selected route's admission rule.
   */
  datatype Route = Route(excluded: bool, selected: bool, rule: Option<string>)

  /** `recording` is the scope of the global admission rule. */
  datatype Gateway = Gateway(recorder: Origin, fallback: Origin, recording: Option<string>)

  datatype Toward = Recorder | Fallback

  const BAD_REQUEST: nat := 400
  const NOT_FOUND: nat := 404
  const BAD_GATEWAY: nat := 502
  const UNAVAILABLE: nat := 503
  const SWITCHING: nat := 101

  /** What this origin would be sent for `r`, if its URI can be built. */
  function ContactFor(origin: Origin, r: Request, env: Env): (c: Option<Contact>) {
    var target := Target(origin, r.ticket);
    if target.None? then None
    else
      var p := Prepared(origin, r, env.peer, IsUpgrade(r.fields), env.builds);
      if p.None? then None
      else
        var q := p.value;
        Some(Contact(target.value, q.verb, q.uri, q.version, q.fields, PayloadOf(q.body)))
  }

  /** The request as `handle` lets it in: no admission header, no ticket, no CORS control. */
  function Sanitized(r: Request): (s: Request) {
    r.(fields := r.fields - {SCOPE_HEADER, TOKEN_HEADER, RESPONSE_CORS_HEADER}, ticket := None, fallback := None)
  }

  /** A request is let in without the three reserved headers and otherwise as it came. */
  lemma SanitizedIsExact(r: Request, name: Name)
    ensures var s := Sanitized(r);
            var reserved := {"x-breeze-admission-scope", "x-breeze-admission-token", "x-breeze-response-cors"};
            && (name in s.fields <==> name in r.fields && name !in reserved)
            && (name in s.fields ==> s.fields[name] == r.fields[name])
            && s.ticket == None && s.fallback == None
            && s.verb == r.verb && s.uri == r.uri && s.version == r.version && s.body == r.body
  {
  }

  /** The recorder a ticket carries wins over the configured origin. */
  function OriginOf(origin: Origin, ticket: Option<Ticket>): (authority: Option<string>)
    ensures ticket.None? ==> authority == origin.authority
  {
    match ticket
    case Some(Ticket(_, _, Some(Uri(_, Some(recorder), _)))) => Some(recorder)
    case _ => origin.authority
  }

  /**
   * What an origin is sent: nothing exactly without a target or when no URI can be
   * built for it; otherwise the same method, version, body and trailers, at the same
   * path and query of that target, with every field that does not end at this hop.
   */
  lemma ContactIsExact(origin: Origin, r: Request, env: Env, name: Name)
    ensures var c := ContactFor(origin, r, env);
            var target := OriginOf(origin, r.ticket);
            var path := if r.uri.pathAndQuery.Some? then r.uri.pathAndQuery.value else "/";
            && (c.None? <==> target.None? || !env.builds(target.value, path))
            && (c.Some? ==>
                  && Some(c.value.authority) == target
                  && c.value.uri == Uri(Some("http"), target, Some(path))
                  && c.value.verb == r.verb && c.value.version == r.version
                  && c.value.payload == Payload(Concat(r.body.data), r.body.trailers)
                  && (name !in REWRITTEN ==>
                        && (name in c.value.fields <==>
                              name in r.fields && !HopByHop(r.fields, IsUpgrade(r.fields), name))
                        && (name in c.value.fields ==> c.value.fields[name] == r.fields[name])))
  {
    hide PreparedFields, HopByHop, IsUpgrade;
    if name !in REWRITTEN {
      PreparationIsExact(r.fields, env.peer, IsUpgrade(r.fields), r.ticket, name);
    }
  }

  /** An origin receives an upgrade exactly when the client sent one whose Connection does not nominate itself. */
  lemma UpgradeReachesOrigin(origin: Origin, r: Request, env: Env)
    ensures var c := ContactFor(origin, r, env);
            c.Some? ==> (IsUpgrade(c.value.fields) <==> IsUpgrade(r.fields) && !Nominated(r.fields, CONNECTION))
  {
    var upgrade := IsUpgrade(r.fields);
    var prepared, kept := PreparedFields(r.fields, env.peer, upgrade, r.ticket), Stripped(r.fields, upgrade);
    PreparationIsExact(r.fields, env.peer, upgrade, r.ticket, CONNECTION);
    PreparationIsExact(r.fields, env.peer, upgrade, r.ticket, UPGRADE);
    SameUpgrade(prepared, kept);
    if upgrade {
      UpgradeSurvives(r.fields);
    } else {
      UpgradeIsRemoved(r.fields);
    }
  }

  lemma SameUpgrade(f: Fields, g: Fields)
    requires Lines(f, CONNECTION) == Lines(g, CONNECTION) && (UPGRADE in f <==> UPGRADE in g)
    ensures IsUpgrade(f) <==> IsUpgrade(g)
  {
  }

  // ---------------------------------------------------------------------------
  // One forwarding attempt
  // ---------------------------------------------------------------------------

  /** The response this origin yields for `r` as the n-th contact, connect failures included. */
  function ResponseTo(origin: Origin, r: Request, env: Env, n: nat): (response: Response) {
    var c := ContactFor(origin, r, env);
    if Target(origin, r.ticket).None? then Response(UNAVAILABLE, true)
    else if c.None? then Response(BAD_GATEWAY, true)
    else match env.answer(n, c.value)
         case Answered(status) => Response(status, false)
         case _ => Response(BAD_GATEWAY, true)
  }

  /** The origin accepts an upgrade handshake as the n-th contact. */
  predicate Accepts(origin: Origin, r: Request, env: Env, n: nat) {
    var c := ContactFor(origin, r, env);
    c.Some? && env.answer(n, c.value) == Answered(SWITCHING)
  }

  predicate Unreachable(origin: Origin, r: Request, env: Env, n: nat) {
    var c := ContactFor(origin, r, env);
    c.Some? && env.answer(n, c.value).ConnectError?
  }

  function Contacts(origin: Origin, r: Request, env: Env): (log: seq<Contact>) {
    var c := ContactFor(origin, r, env);
    if c.Some? then [c.value] else []
  }

  /** `None` is a connect failure; otherwise the response. */
  type Attempt = Option<Response>

  /** `try_forward_body`: a tunnel takes the handle, anything else leaves it available. */
  method TryForward(origin: Origin, r: Request, env: Env, n: nat, handle: bool)
    returns (attempt: Attempt, log: seq<Contact>, handleAfter: bool, tunnels: nat)
    ensures log == Contacts(origin, r, env)
    ensures attempt == if Unreachable(origin, r, env, n) then None else Some(ResponseTo(origin, r, env, n))
    ensures if handle && Accepts(origin, r, env, n) then tunnels == 1 && !handleAfter
            else tunnels == 0 && handleAfter == handle
  {
    log, handleAfter, tunnels := [], handle, 0;
    var target := Target(origin, r.ticket);
    if target.None? {
      return Some(Response(UNAVAILABLE, true)), log, handleAfter, tunnels;
    }
    var upgrade := IsUpgrade(r.fields);
    var prepared := Prepared(origin, r, env.peer, upgrade, env.builds);
    if prepared.None? {
      return Some(Response(BAD_GATEWAY, true)), log, handleAfter, tunnels;
    }
    var p := prepared.value;
    var contact := Contact(target.value, p.verb, p.uri, p.version, p.fields, PayloadOf(p.body));
    log := [contact];
    match env.answer(n, contact) {
      case ConnectError => return None, log, handleAfter, tunnels;
      case OtherError => return Some(Response(BAD_GATEWAY, true)), log, handleAfter, tunnels;
      case Answered(status) =>
        if status == SWITCHING && handleAfter {
          handleAfter := false;
          tunnels := 1;
        }
        return Some(Response(status, false)), log, handleAfter, tunnels;
    }
  }

  /** `forward` */
  method Forward(origin: Origin, r: Request, env: Env) returns (response: Response, log: seq<Contact>, tunnels: nat)
    ensures log == Contacts(origin, r, env)
    ensures response == ResponseTo(origin, r, env, 0)
    ensures tunnels == if IsUpgrade(r.fields) && Accepts(origin, r, env, 0) then 1 else 0
  {
    var attempt, handle;
    attempt, log, handle, tunnels := TryForward(origin, r, env, 0, IsUpgrade(r.fields));
    response := if attempt.Some? then attempt.value else Response(BAD_GATEWAY, true);
  }

  // ---------------------------------------------------------------------------
  // Replay
  // ---------------------------------------------------------------------------

  /** A first contact that allows the replay: a connect failure, or a 404 outside an upgrade. */
  predicate Replays(origin: Origin, r: Request, env: Env) {
    var c := ContactFor(origin, r, env);
    && c.Some?
    && (|| env.answer(0, c.value).ConnectError?
        || (env.answer(0, c.value) == Answered(NOT_FOUND) && !IsUpgrade(r.fields)))
  }

  /** The retained copy of a recording request. */
  function Retry(r: Request): (retry: Request) {
    r.(fields := Detached(r.fields), ticket := None, fallback := None)
  }

  /**
   * `forward_recording`: without a retained fallback it is plain forwarding. With
   * one, the recorder is contacted first and the fallback at most once, its answer
   * being final. The handle outlives a connect failure, so an upgrade can still be
   * tunnelled once.
   */
  method ForwardRecording(origin: Origin, r: Request, env: Env)
    returns (response: Response, log: seq<Contact>, tunnels: nat)
    ensures
      if r.fallback.None? then
        && log == Contacts(origin, r, env) && response == ResponseTo(origin, r, env, 0)
        && tunnels == if IsUpgrade(r.fields) && Accepts(origin, r, env, 0) then 1 else 0
      else if r.body.failed then
        log == [] && response == Response(BAD_REQUEST, true) && tunnels == 0
      else if !Replays(origin, r, env) then
        && log == Contacts(origin, r, env) && response == ResponseTo(origin, r, env, 0)
        && tunnels == if IsUpgrade(r.fields) && Accepts(origin, r, env, 0) then 1 else 0
      else
        var fallback := r.fallback.value;
        && log == Contacts(origin, r, env) + Contacts(fallback, Retry(r), env)
        && response == ResponseTo(fallback, Retry(r), env, 1)
        && tunnels == if IsUpgrade(r.fields) && Accepts(fallback, Retry(r), env, 1) then 1 else 0
  {
    hide Prepared;
    if r.fallback.None? {
      response, log, tunnels := Forward(origin, r, env);
      return;
    }
    var fallback := r.fallback.value;
    var request := r.(fallback := None);
    var upgrade := IsUpgrade(request.fields);
    if request.body.failed {
      return Response(BAD_REQUEST, true), [], 0;
    }
    var payload := Deliver(request.body);
    var body := Stream([payload.bytes], payload.trailers, false);
    assert Concat([payload.bytes]) == payload.bytes + Concat([]) == payload.bytes;
    request := request.(body := body);
    var retry := Request(request.verb, request.uri, request.version, request.fields, None, None, body);
    retry := retry.(fields := retry.fields - {SCOPE_HEADER, TOKEN_HEADER});
    SameContact(origin, r, request, env);
    SameContact(fallback, Retry(r), retry, env);
    assert IsUpgrade(Detached(r.fields)) == upgrade by { DetachKeepsUpgrade(r.fields); }
    var attempt, handle, more, made;
    attempt, log, handle, tunnels := TryForward(origin, request, env, 0, upgrade);
    if attempt.Some? && (upgrade || attempt.value.status != NOT_FOUND) {
      return attempt.value, log, tunnels;
    }
    attempt, more, handle, made := TryForward(fallback, retry, env, 1, handle);
    log, tunnels := log + more, tunnels + made;
    response := if attempt.Some? then attempt.value else Response(BAD_GATEWAY, true);
  }

  /** The contact depends on the head and the payload only, not on how the body is framed. */
  lemma SameContact(origin: Origin, a: Request, b: Request, env: Env)
    requires a.(body := b.body, fallback := b.fallback) == b
    requires PayloadOf(a.body) == PayloadOf(b.body)
    ensures ContactFor(origin, a, env) == ContactFor(origin, b, env)
  {
  }

  lemma DetachKeepsUpgrade(f: Fields)
    ensures IsUpgrade(Detached(f)) == IsUpgrade(f)
  {
    assert Lines(Detached(f), CONNECTION) == Lines(f, CONNECTION);
  }

  /** The response, the tunnel and the replay that each answer of the client leads to. */
  lemma AnswersAreExact(origin: Origin, r: Request, env: Env, n: nat)
    ensures var c := ContactFor(origin, r, env);
            var local := Response(if OriginOf(origin, r.ticket).None? then 503 else 502, true);
            if c.None? then
              && ResponseTo(origin, r, env, n) == local && Contacts(origin, r, env) == []
              && !Unreachable(origin, r, env, n) && !Accepts(origin, r, env, n) && !Replays(origin, r, env)
            else
              var answer, first := env.answer(n, c.value), env.answer(0, c.value);
              && Contacts(origin, r, env) == [c.value]
              && ResponseTo(origin, r, env, n) == (if answer.Answered? then Response(answer.status, false) else local)
              && (Unreachable(origin, r, env, n) <==> answer == ConnectError)
              && (Accepts(origin, r, env, n) <==> answer == Answered(101))
              && (Replays(origin, r, env) <==>
                    first == ConnectError || (first == Answered(404) && !IsUpgrade(r.fields)))
  {
    hide IsUpgrade, Prepared;
  }

  // ---------------------------------------------------------------------------
  // The gateway
  // ---------------------------------------------------------------------------

  /** The admission rule in force: the global one unless the request is excluded, else the route's. */
  function RuleFor(gateway: Gateway, route: Route): (scope: Option<string>) {
    if gateway.recording.Some? && !route.excluded then gateway.recording
    else if route.selected then route.rule
    else None
  }

  /** Admission succeeded for the scope that asked for it. */
  predicate Admitted(gateway: Gateway, route: Route, outcome: Outcome) {
    var rule := RuleFor(gateway, route);
    rule.Some? && outcome.Acquired? && outcome.ticket.scope == rule.value
  }

  /** The sanitized request with its ticket, as dispatched to the recorder. */
  function Ticketed(gateway: Gateway, r: Request, ticket: Ticket): (t: Request) {
    r.(fields := Attached(r.fields, ticket), ticket := Some(ticket), fallback := Some(gateway.fallback))
  }

  /** `handle` */
  method Handle(gateway: Gateway, r: Request, route: Route, outcome: Outcome, env: Env)
    returns (response: Response, log: seq<Contact>, toward: seq<Toward>, tunnels: nat)
    requires route.excluded ==> !route.selected
    ensures |toward| == |log| <= 2 && tunnels <= 1
    // Excluded and unmatched requests never see the recorder.
    ensures route.excluded || (gateway.recording.None? && !route.selected) ==>
              Recorder !in toward && log == Contacts(gateway.fallback, Sanitized(r), env)
    // Global recording decides for every other request; without it, the selected route's own rule does.
    ensures var scope := if gateway.recording.Some? then gateway.recording else route.rule;
            && !route.excluded && (gateway.recording.Some? || route.selected) && scope.Some? ==>
              if outcome.Acquired? && outcome.ticket.scope == scope.value then
                log != [] ==> toward[0] == Recorder
              else Recorder !in toward && log == Contacts(gateway.fallback, Sanitized(r), env)
    // A plain migration route is not subject to admission.
    ensures gateway.recording.None? && route.selected && route.rule.None? ==>
              Fallback !in toward && log == Contacts(gateway.recorder, Sanitized(r), env)
    ensures
      var clean := Sanitized(r);
      if Admitted(gateway, route, outcome) then
        var ticketed := Ticketed(gateway, clean, outcome.ticket);
        if r.body.failed then
          log == [] && response == Response(400, true) && tunnels == 0
        else if Replays(gateway.recorder, ticketed, env) then
          // The recorder, then the fallback with exactly what it would have received directly.
          && log == Contacts(gateway.recorder, ticketed, env) + Contacts(gateway.fallback, clean, env)
          && Recorder !in toward[1..] && toward[0] == Recorder
          && response == ResponseTo(gateway.fallback, clean, env, 1)
          && tunnels == if IsUpgrade(clean.fields) && Accepts(gateway.fallback, clean, env, 1) then 1 else 0
        else
          && log == Contacts(gateway.recorder, ticketed, env) && Fallback !in toward
          && response == ResponseTo(gateway.recorder, ticketed, env, 0)
          && tunnels == if IsUpgrade(clean.fields) && Accepts(gateway.recorder, ticketed, env, 0) then 1 else 0
      else
        // A plain migration route goes to its service; every other request to the fallback. No replay.
        var origin := if RuleFor(gateway, route).None? && route.selected then gateway.recorder else gateway.fallback;
        && log == Contacts(origin, clean, env)
        && (if RuleFor(gateway, route).None? && route.selected then Fallback else Recorder) !in toward
        && response == ResponseTo(origin, clean, env, 0)
        && tunnels == if IsUpgrade(clean.fields) && Accepts(origin, clean, env, 0) then 1 else 0
  {
    hide ResponseTo, Accepts, IsUpgrade;
    var request := r.(fields := r.fields - {SCOPE_HEADER} - {TOKEN_HEADER}, ticket := None, fallback := None);
    request := request.(fields := request.fields - {RESPONSE_CORS_HEADER});
    assert request == Sanitized(r);
    var matched := route.selected;
    var rule := RuleFor(gateway, route);
    if rule.Some? {
      match outcome {
        case Acquired(ticket) =>
          if ticket.scope == rule.value {
            matched := true;
            request := Ticketed(gateway, request, ticket);
          } else {
            matched := false;
          }
        case _ => matched := false;
      }
    }
    if matched {
      response, log, tunnels := ForwardRecording(gateway.recorder, request, env);
      toward := if log == [] then [] else if |log| == 1 then [Recorder] else [Recorder, Fallback];
      if Admitted(gateway, route, outcome) {
        RetryIsDirect(gateway, Sanitized(r), outcome.ticket);
        AttachKeepsUpgrade(Sanitized(r).fields, outcome.ticket);
      }
    } else {
      response, log, tunnels := Forward(gateway.fallback, request, env);
      toward := if log == [] then [] else [Fallback];
    }
  }

  lemma AttachKeepsUpgrade(f: Fields, t: Ticket)
    ensures IsUpgrade(Attached(f, t)) == IsUpgrade(f)
  {
    assert Lines(Attached(f, t), CONNECTION) == Lines(f, CONNECTION);
  }

  /** The retained copy is the sanitized request again. */
  lemma RetryIsDirect(gateway: Gateway, clean: Request, ticket: Ticket)
    requires SCOPE_HEADER !in clean.fields && TOKEN_HEADER !in clean.fields
    requires clean.ticket == None && clean.fallback == None
    ensures Retry(Ticketed(gateway, clean, ticket)) == clean
  {
    DetachUndoesAttach(clean.fields, ticket);
  }

  /**
   * Replay transparency: for every request, Connection header and ticket, the retry
   * reaches the fallback as the contact that direct forwarding would have made, to
   * the fallback's own authority and without admission headers.
   */
  lemma ReplayIsTransparent(gateway: Gateway, r: Request, ticket: Ticket, env: Env)
    requires gateway.fallback.authority.Some?
    ensures var clean := Sanitized(r);
            var retry := ContactFor(gateway.fallback, Retry(Ticketed(gateway, clean, ticket)), env);
            && retry == ContactFor(gateway.fallback, clean, env)
            && (retry.Some? ==>
                  && Some(retry.value.authority) == gateway.fallback.authority == retry.value.uri.authority
                  && FromHeaders(retry.value.fields) == Ok(None)
                  && retry.value.verb == r.verb && retry.value.payload == PayloadOf(r.body))
  {
    var clean := Sanitized(r);
    RetryIsDirect(gateway, clean, ticket);
    var upgrade := IsUpgrade(clean.fields);
    assert SCOPE_HEADER !in PreparedFields(clean.fields, env.peer, upgrade, None);
    assert TOKEN_HEADER !in PreparedFields(clean.fields, env.peer, upgrade, None);
  }

  /** The recorder receives the gateway's ticket, whatever headers the client sent or nominated. */
  lemma RecorderReceivesTicket(gateway: Gateway, r: Request, ticket: Ticket, env: Env)
    requires Valid(ticket)
    ensures var contact := ContactFor(gateway.recorder, Ticketed(gateway, Sanitized(r), ticket), env);
            contact.Some? ==>
              && FromHeaders(contact.value.fields) == Ok(Some(ticket.(origin := None)))
              && (ticket.origin.Some? && ticket.origin.value.authority.Some? ==>
                    Some(contact.value.authority) == ticket.origin.value.authority)
  {
    var t := Ticketed(gateway, Sanitized(r), ticket);
    TicketSurvivesPreparation(t.fields, env.peer, IsUpgrade(t.fields), ticket);
  }
}
