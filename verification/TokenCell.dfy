/**
 * One Redis string key holding an owner token with a millisecond expiry, and the
 * four atomic commands issued against such keys: `SET NX PX`, the token-checked
 * `PEXPIRE` and `DEL` scripts, and the token comparison behind `owns`.
 *
 * Gateway slots, request reservations and recorder registrations are all
 * instances of this cell.
 */
module TokenCell {
  import opened Common

  /** `expiry` is the first instant at which Redis treats the key as absent. */
  datatype Entry<T(==)> = Entry(token: T, expiry: int)

  type Cell<T(==)> = Option<Entry<T>>

  predicate Present<T(==)>(cell: Cell<T>, now: int) {
    cell.Some? && now < cell.value.expiry
  }

  /** GET compared with the caller's token. */
  predicate Owns<T(==)>(cell: Cell<T>, now: int, token: T) {
    Present(cell, now) && cell.value.token == token
  }

  datatype Op<T(==)> =
    | Set(token: T, ttl: int)
    | Extend(token: T, ttl: int)
    | Delete(token: T)
    | Get(token: T)

  /** The cell after one atomic command, and the boolean the caller decodes. */
  function Apply<T(==)>(cell: Cell<T>, now: int, op: Op<T>): (r: (Cell<T>, bool)) {
    match op
    case Set(token, ttl) =>
      if Present(cell, now) then (cell, false) else (Some(Entry(token, now + ttl)), true)
    case Extend(token, ttl) =>
      if Owns(cell, now, token) then (Some(Entry(token, now + ttl)), true) else (cell, false)
    case Delete(token) =>
      if Owns(cell, now, token) then (None, true) else (cell, false)
    case Get(token) =>
      (cell, Owns(cell, now, token))
  }

  /** Commands carrying another token neither disturb a live owner nor create one. */
  lemma Isolation<T>(cell: Cell<T>, now: int, op: Op<T>, token: T)
    requires op.token != token
    ensures Owns(cell, now, token) ==> Apply(cell, now, op).0 == cell
    ensures forall later :: now <= later && Owns(Apply(cell, now, op).0, later, token) ==> Owns(cell, later, token)
  {
  }

  // ---------------------------------------------------------------------------
  // Histories of one key
  // ---------------------------------------------------------------------------

  datatype Event<T(==)> = Event(at: int, op: Op<T>)

  type History<T(==)> = seq<Event<T>>

  /** The single Redis clock never runs backwards. */
  ghost predicate WellTimed<T>(h: History<T>) {
    forall i, j | 0 <= i < j < |h| :: h[i].at <= h[j].at
  }

  function CellAfter<T(==)>(h: History<T>): (cell: Cell<T>) {
    if h == [] then None
    else Apply(CellAfter(h[..|h| - 1]), h[|h| - 1].at, h[|h| - 1].op).0
  }

  /** What the i-th command answered. */
  predicate Answer<T(==)>(h: History<T>, i: nat)
    requires i < |h|
  {
    Apply(CellAfter(h[..i]), h[i].at, h[i].op).1
  }

  /**
   * The holder's own account of its lease: the deadline set by its own accepted
   * SET, moved by its own renewals before that deadline, and dropped by its own
   * completion before that deadline. Commands of other holders play no part.
   */
  ghost function OwnDeadline<T>(h: History<T>, token: T): (deadline: Option<int>) {
    if h == [] then None
    else
      var past := OwnDeadline(h[..|h| - 1], token);
      var e := h[|h| - 1];
      if e.op.token != token then past
      else match e.op
           case Set(_, ttl) => if Answer(h, |h| - 1) then Some(e.at + ttl) else past
           case Extend(_, ttl) => if past.Some? && e.at < past.value then Some(e.at + ttl) else past
           case Delete(_) => if past.Some? && e.at < past.value then None else past
           case Get(_) => past
  }

  lemma PrefixFacts<T>(h: History<T>, n: nat)
    requires n <= |h| && WellTimed(h)
    ensures WellTimed(h[..n])
  {
  }

  /**
   * The shared key agrees with every holder's private account at every later
   * instant: ownership depends on the holder's own commands alone.
   */
  lemma {:induction false} OwnAccountIsExact<T>(h: History<T>, token: T, now: int)
    requires WellTimed(h)
    requires h != [] ==> h[|h| - 1].at <= now
    ensures Owns(CellAfter(h), now, token)
            <==> OwnDeadline(h, token).Some? && now < OwnDeadline(h, token).value
    decreases |h|
  {
    if h != [] {
      var past := h[..|h| - 1];
      PrefixFacts(h, |h| - 1);
      OwnAccountIsExact(past, token, h[|h| - 1].at);
      OwnAccountIsExact(past, token, now);
    }
  }

  /** A recorded deadline that disappears was removed by the holder's own completion. */
  lemma {:induction false} DeadlineGoneMeansCompleted<T>(h: History<T>, token: T, i: nat)
    requires WellTimed(h)
    requires i < |h| && h[i].op.Set? && h[i].op.token == token && Answer(h, i)
    requires OwnDeadline(h, token) == None
    ensures exists k :: i < k < |h| && h[k].op == Delete(token) && Answer(h, k)
    decreases |h|
  {
    var n := |h| - 1;
    var past := h[..n];
    PrefixFacts(h, n);
    assert forall k | 0 <= k < n :: past[..k] == h[..k];
    if i == n {
      assert false;
    } else if OwnDeadline(past, token) == None {
      DeadlineGoneMeansCompleted(past, token, i);
      var k :| i < k < n && past[k].op == Delete(token) && Answer(past, k);
      assert h[k].op == Delete(token) && Answer(h, k);
    } else {
      OwnAccountIsExact(past, token, h[n].at);
      assert h[n].op == Delete(token) && Answer(h, n);
    }
  }

  /**
   * Succession: when a later SET is accepted, the earlier holder had either
   * completed, or its last accepted extension had already run out.
   */
  lemma {:induction false} Succession<T>(h: History<T>, i: nat, j: nat)
    requires WellTimed(h)
    requires i < j < |h| && h[i].op.Set? && h[j].op.Set?
    requires Answer(h, i) && Answer(h, j)
    ensures var deadline := OwnDeadline(h[..j], h[i].op.token);
            || (exists k :: i < k < j && h[k].op == Delete(h[i].op.token) && Answer(h, k))
            || (deadline.Some? && deadline.value <= h[j].at)
  {
    var token := h[i].op.token;
    var before := h[..j];
    PrefixFacts(h, j);
    assert forall k | 0 <= k < j :: before[..k] == h[..k];
    OwnAccountIsExact(before, token, h[j].at);
    if OwnDeadline(before, token) == None {
      DeadlineGoneMeansCompleted(before, token, i);
      var k :| i < k < j && before[k].op == Delete(token) && Answer(before, k);
      assert h[k].op == Delete(token) && Answer(h, k);
    }
  }

  /** From position `n` on, `token` is offered by no further SET before position `m`. */
  ghost predicate NotReoffered<T>(h: History<T>, token: T, n: nat, m: nat) {
    forall k | n <= k < m && k < |h| :: !(h[k].op.Set? && h[k].op.token == token)
  }

  /** A key once lost is never owned again without a new offer of the token. */
  lemma {:induction false} LostStaysLost<T>(h: History<T>, token: T, n: nat, m: nat)
    requires WellTimed(h) && n <= m < |h|
    requires !Owns(CellAfter(h[..n]), h[n].at, token) && NotReoffered(h, token, n, m)
    ensures !Owns(CellAfter(h[..m]), h[m].at, token)
    decreases m
  {
    if n < m {
      LostStaysLost(h, token, n, m - 1);
      assert h[..m][..m - 1] == h[..m - 1];
      assert h[m - 1].at <= h[m].at;
    }
  }

  /** Hence owns, renew and complete calls with that token all answer false and change nothing. */
  lemma StaleCommandsAreInert<T>(h: History<T>, token: T, n: nat, m: nat)
    requires WellTimed(h) && n <= m < |h|
    requires !Owns(CellAfter(h[..n]), h[n].at, token) && NotReoffered(h, token, n, m + 1)
    requires h[m].op.token == token
    ensures !Answer(h, m) && CellAfter(h[..m + 1]) == CellAfter(h[..m])
  {
    LostStaysLost(h, token, n, m);
    assert h[..m + 1][..m] == h[..m];
  }

  // ---------------------------------------------------------------------------
  // One-shot tokens
  // ---------------------------------------------------------------------------

  /** Random request tokens are fresh: no token is offered by two SET commands. */
  ghost predicate FreshTokens<T>(h: History<T>) {
    forall i, j | 0 <= i < j < |h| && h[i].op.Set? && h[j].op.Set? :: h[i].op.token != h[j].op.token
  }

  /** Once a ticket has been offered and does not own its slot, it is inert forever. */
  lemma LostTicketIsInertForever<T>(h: History<T>, token: T, offered: nat, n: nat, m: nat)
    requires WellTimed(h) && FreshTokens(h) && offered < n <= m < |h|
    requires h[offered].op.Set? && h[offered].op.token == token
    requires !Owns(CellAfter(h[..n]), h[n].at, token)
    requires h[m].op.token == token
    ensures !h[m].op.Set? && !Answer(h, m) && CellAfter(h[..m + 1]) == CellAfter(h[..m])
  {
    assert NotReoffered(h, token, n, m + 1);
    StaleCommandsAreInert(h, token, n, m);
  }
}
