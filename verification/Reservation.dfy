/**
 * The token cell in use: the recorder's side of a request reservation, and recorder
 * registrations. Both act on one Redis key through token-checked commands; the
 * key remembers its history so that the cell's theorems apply to it.
 */
module Reservation {
  import opened Common
  import opened TokenCell

  /** One Redis key as its clients see it. */
  class RedisKey<T(==)> {
    var cell: Cell<T>
    var clock: int
    ghost var history: History<T>

    ghost predicate Valid()
      reads this
    {
      && cell == CellAfter(history)
      && WellTimed(history)
      && (history != [] ==> history[|history| - 1].at <= clock)
    }

    constructor (now: int)
      ensures Valid() && history == [] && clock == now
    {
      cell, clock, history := None, now, [];
    }

    method Run(op: Op<T>, now: int) returns (answer: bool)
      requires Valid() && clock <= now
      modifies this
      ensures Valid() && clock == now && history == old(history) + [Event(now, op)]
      ensures answer == Answer(history, |history| - 1)
      ensures (cell, answer) == Apply(old(cell), now, op)
    {
      var applied := Apply(cell, now, op);
      cell, answer, clock := applied.0, applied.1, now;
      history := history + [Event(now, op)];
      assert history[..|history| - 1] == old(history);
    }
  }

  /** The recorder's calls for one ticket. */
  class Ticket {
    const slot: RedisKey<string>
    const token: string
    const ttl: int

    constructor (slot: RedisKey<string>, token: string, ttl: int)
      ensures this.slot == slot && this.token == token && this.ttl == ttl
    {
      this.slot, this.token, this.ttl := slot, token, ttl;
    }

    /** The ticket's standing, from its own commands alone. */
    ghost predicate Holds(now: int)
      reads this, slot
    {
      OwnDeadline(slot.history, token).Some? && now < OwnDeadline(slot.history, token).value
    }

    method Complete(now: int) returns (released: bool)
      requires slot.Valid() && slot.clock <= now
      modifies slot
      ensures slot.Valid() && slot.clock == now
      ensures released <==> old(Holds(now))
      ensures !Holds(now) && (!released ==> slot.cell == old(slot.cell))
      ensures released ==> slot.cell == None
    {
      OwnAccountIsExact(slot.history, token, now);
      released := slot.Run(Delete(token), now);
      OwnAccountIsExact(slot.history, token, now);
    }

    method Renew(now: int) returns (extended: bool)
      requires slot.Valid() && slot.clock <= now && 0 < ttl
      modifies slot
      ensures slot.Valid() && slot.clock == now
      ensures extended <==> old(Holds(now))
      ensures extended <==> Holds(now)
      ensures if extended then slot.cell == Some(Entry(token, now + ttl)) else slot.cell == old(slot.cell)
    {
      OwnAccountIsExact(slot.history, token, now);
      extended := slot.Run(Extend(token, ttl), now);
      OwnAccountIsExact(slot.history, token, now);
    }

    method OwnsSlot(now: int) returns (owns: bool)
      requires slot.Valid() && slot.clock <= now
      modifies slot
      ensures slot.Valid() && slot.clock == now && slot.cell == old(slot.cell)
      ensures owns <==> old(Holds(now))
    {
      OwnAccountIsExact(slot.history, token, now);
      owns := slot.Run(Get(token), now);
    }
  }

  /** An address lease; `value` carries the random owner, so registrations never share it. */
  class RecorderRegistration {
    const key: RedisKey<string>
    const value: string
    const ttl: int

    constructor (key: RedisKey<string>, value: string, ttl: int)
      requires 0 < ttl
      ensures this.key == key && this.value == value && this.ttl == ttl
    {
      this.key, this.value, this.ttl := key, value, ttl;
    }

    /** The recorder's standing, from its own commands alone. */
    ghost predicate Registered(now: int)
      reads this, key
    {
      OwnDeadline(key.history, value).Some? && now < OwnDeadline(key.history, value).value
    }

    /** Succeeds exactly when no recorder, this one included, is live at the key. */
    method Register(now: int) returns (accepted: bool)
      requires key.Valid() && key.clock <= now && 0 < ttl
      modifies key
      ensures key.Valid() && key.clock == now
      ensures accepted <==> !Present(old(key.cell), now)
      ensures if accepted then key.cell == Some(Entry(value, now + ttl)) && Registered(now)
              else key.cell == old(key.cell)
    {
      accepted := key.Run(Set(value, ttl), now);
      OwnAccountIsExact(key.history, value, now);
    }

    method Renew(now: int) returns (extended: bool)
      requires key.Valid() && key.clock <= now && 0 < ttl
      modifies key
      ensures key.Valid() && key.clock == now
      ensures extended <==> old(Registered(now))
      ensures extended <==> Registered(now)
      ensures if extended then key.cell == Some(Entry(value, now + ttl)) else key.cell == old(key.cell)
    {
      OwnAccountIsExact(key.history, value, now);
      extended := key.Run(Extend(value, ttl), now);
      OwnAccountIsExact(key.history, value, now);
    }

    method Unregister(now: int) returns (removed: bool)
      requires key.Valid() && key.clock <= now
      modifies key
      ensures key.Valid() && key.clock == now
      ensures removed <==> old(Registered(now))
      ensures !Registered(now)
      ensures if removed then key.cell == None else key.cell == old(key.cell)
    {
      OwnAccountIsExact(key.history, value, now);
      removed := key.Run(Delete(value), now);
      OwnAccountIsExact(key.history, value, now);
    }
  }
}
