/**
  Timers and their manager.  The ordered set `timers_` is a sequence kept in the comparator's order:
  by deadline, and by address (`id`) among equal deadlines.  Times are 64-bit: sums wrap.

  `clock` is the ghost of the clock's last reading, `watched` the earliest deadline the last
  `getNextTimer` saw (FOREVER if there was none), `live` the timers not yet freed, and `armed` those of
  them that were made with a callback.
*/
module TimerModule {

  datatype Option<T> = None | Some(value: T)

  const FOREVER := 0x1_0000_0000_0000_0000
  const HOUR := 60 * 60 * 1000

  function Wrap(x: int): (w: int)
    ensures 0 <= w < FOREVER
    ensures 0 <= x < FOREVER ==> w == x
  {
    x % FOREVER
  }

  class Timer {
    const id: nat
    const recurring: bool
    var ms: int
    var next: int
    var cb: Option<int>

    constructor (id: nat, ms: int, cb: Option<int>, recurring: bool, now: int)
      ensures this.id == id && this.recurring == recurring && this.ms == ms && this.cb == cb && next == Wrap(now + ms)
    {
      this.id, this.recurring, this.ms, this.cb := id, recurring, ms, cb;
      next := Wrap(now + ms);
    }
  }

  /** The comparator on deadline and address. */
  predicate Less(next: int, id: nat, next': int, id': nat) {
    next < next' || (next == next' && id < id')
  }

  predicate Before(a: Timer, b: Timer)
    reads a, b
  {
    Less(a.next, a.id, b.next, b.id)
  }

  ghost predicate Sorted(timers: seq<Timer>)
    reads timers
  {
    forall i, j | 0 <= i < j < |timers| :: Before(timers[i], timers[j])
  }

  ghost predicate DistinctIds(live: set<Timer>) {
    forall t, u | t in live && u in live && t != u :: t.id != u.id
  }

  predicate RolledBack(previous: int, now: int) {
    now < previous && (previous < HOUR || now < previous - HOUR)
  }

  class TimerManager {
    var timers: seq<Timer>
    var tickled: bool
    var previousTime: int
    ghost var live: set<Timer>
    ghost var armed: set<Timer>
    ghost var clock: int
    ghost var watched: int

    /** The set holds live timers, in order; no two live timers share an address. */
    ghost predicate Ordered()
      reads this, timers
    {
      (forall t | t in timers :: t in live) && DistinctIds(live) && Sorted(timers)
    }

    /** The set is ordered, and a timer made with a callback has one just while it is in the set. */
    ghost predicate Valid()
      reads this, live, timers
    {
      && Ordered() && armed <= live && 0 <= previousTime < FOREVER
      && (forall t | t in armed :: t.cb.Some? <==> t in timers)
      && (forall t | t in live - armed :: t.cb == None)
    }

    /** No deadline has wrapped, and no timer started after the clock. */
    ghost predicate Timely()
      reads this, live
    {
      && 0 <= previousTime <= clock < FOREVER
      && forall t | t in live :: 0 <= t.ms <= t.next < FOREVER && t.next - t.ms <= clock
    }

    /** No timer of the set would wrap if it were started now. */
    ghost predicate InRange(now: int)
      reads this, timers
    {
      forall t | t in timers :: now + t.ms < FOREVER
    }

    /** No lost wake-up: the earliest deadline is no earlier than the one last waited for, or the flag is set. */
    ghost predicate Awake()
      reads this, timers
    {
      tickled || timers == [] || watched <= timers[0].next
    }

    constructor (now: int)
      requires 0 <= now < FOREVER
      ensures Valid() && Timely() && Awake() && timers == [] && clock == now && live == {} && !tickled
    {
      timers, tickled, previousTime := [], false, now;
      live, armed, clock, watched := {}, {}, now, 0;
    }

    // ----- the ordered set -----------------------------------------------------------------

    /** The position of the first timer not before t. */
    method LowerBound(next: int, id: nat) returns (pos: nat)
      requires Sorted(timers)
      ensures pos <= |timers|
      ensures forall i | 0 <= i < pos :: Less(timers[i].next, timers[i].id, next, id)
      ensures forall i | pos <= i < |timers| :: !Less(timers[i].next, timers[i].id, next, id)
    {
      pos := 0;
      while pos < |timers| && Less(timers[pos].next, timers[pos].id, next, id)
        invariant pos <= |timers|
        invariant forall i | 0 <= i < pos :: Less(timers[i].next, timers[i].id, next, id)
      {
        pos := pos + 1;
      }
    }

    /** Where the set finds t; |timers| if it does not. */
    method Find(t: Timer) returns (pos: nat)
      requires Ordered() && t in live
      ensures if t in timers then pos < |timers| && timers[pos] == t else pos == |timers|
    {
      pos := LowerBound(t.next, t.id);
      FoundAt(t, pos);
      if pos < |timers| && Before(t, timers[pos]) {
        pos := |timers|;
      }
    }

    lemma FoundAt(t: Timer, pos: nat)
      requires Ordered() && t in live && pos <= |timers|
      requires forall i | 0 <= i < pos :: Before(timers[i], t)
      requires forall i | pos <= i < |timers| :: !Before(timers[i], t)
      ensures t in timers <==> pos < |timers| && timers[pos] == t
      ensures pos < |timers| ==> timers[pos] == t || Before(t, timers[pos])
    {
      if pos < |timers| {
        assert timers[pos] in live;
        assert timers[pos] != t ==> timers[pos].id != t.id;
      }
      if t in timers {
        var k :| 0 <= k < |timers| && timers[k] == t;
        InOrder(if pos < k then pos else k, k);
      }
    }

    lemma InOrder(i: int, j: int)
      requires Ordered() && 0 <= i <= j < |timers|
      ensures i == j || Before(timers[i], timers[j])
    {
    }

    method Erase(pos: nat)
      requires pos < |timers|
      modifies this`timers
      ensures timers == old(timers)[..pos] + old(timers)[pos + 1..]
    {
      timers := timers[..pos] + timers[pos + 1..];
    }

    /** Takes t out of the set, if it is there; the earliest deadline can only get later. */
    method TakeOut(t: Timer) returns (found: bool)
      requires Ordered() && t in live
      modifies this`timers
      ensures Ordered() && found == (t in old(timers)) && t !in timers
      ensures forall u :: u in timers <==> u in old(timers) && u != t
      ensures old(Awake()) ==> Awake()
      ensures |timers| > 0 ==> |old(timers)| > 0 && old(timers)[0].next <= timers[0].next
    {
      var pos := Find(t);
      if pos == |timers| {
        return false;
      }
      Erase(pos);
      Removed(old(timers), timers, pos);
      return true;
    }

    /** Puts t where the order wants it. */
    method Insert(t: Timer) returns (pos: nat)
      requires Sorted(timers) && t !in timers
      requires forall u | u in timers :: u.id != t.id
      modifies this`timers
      ensures Sorted(timers)
      ensures pos <= |old(timers)| && timers == old(timers)[..pos] + [t] + old(timers)[pos..]
    {
      pos := LowerBound(t.next, t.id);
      timers := timers[..pos] + [t] + timers[pos..];
    }

    /** The private `addTimer`: says whether the owner must be woken. */
    method AddToSet(t: Timer) returns (wake: bool)
      requires Ordered() && t in live && t !in timers
      modifies this`timers, this`tickled
      ensures Ordered() && (forall u :: u in timers <==> u in old(timers) || u == t)
      ensures old(Awake()) ==> Awake()
      ensures tickled == (old(tickled) || wake)
      ensures wake <==> !old(tickled) && timers[0] == t
    {
      var pos := Insert(t);
      wake := pos == 0 && !tickled;
      if wake {
        tickled := true;
      }
      ghost var was := old(timers);
      assert timers[pos] == t && (pos > 0 ==> timers[0] == was[0]);
      assert timers == was[..pos] + [t] + was[pos..];
    }

    // ----- what the owner and the timers do ------------------------------------------------

    /** A new timer, at an address no live timer has. */
    method AddTimer(id: nat, ms: int, cb: Option<int>, recurring: bool, now: int) returns (t: Timer, wake: bool)
      requires Valid() && (forall u | u in live :: u.id != id)
      requires 0 <= ms < FOREVER && 0 <= now < FOREVER
      modifies this
      ensures Valid() && fresh(t) && live == old(live) + {t} && (forall u :: u in timers <==> u in old(timers) || u == t)
      ensures t.next == Wrap(now + ms) && t.ms == ms && t.cb == cb && t.recurring == recurring
      ensures old(Awake()) ==> Awake()
      ensures tickled == (old(tickled) || wake) && (wake <==> !old(tickled) && timers[0] == t)
      ensures old(Timely()) && now >= old(clock) && now + ms < FOREVER ==> Timely()
      ensures clock == now && watched == old(watched) && previousTime == old(previousTime)
      ensures armed == old(armed) + (if cb.Some? then {t} else {})
    {
      t := new Timer(id, ms, cb, recurring, now);
      live := live + {t};
      if cb.Some? {
        armed := armed + {t};
      }
      clock := now;
      wake := AddToSet(t);
    }

    /** The last pointer to a timer outside the set is gone: it is freed, and its address may be used again. */
    ghost method Release(t: Timer)
      requires Valid() && t in live && t !in timers
      modifies this`live, this`armed
      ensures Valid() && live == old(live) - {t} && armed == old(armed) - {t}
      ensures old(Awake()) ==> Awake()
      ensures old(Timely()) ==> Timely()
    {
      live, armed := live - {t}, armed - {t};
    }

    /** Cancels a timer that still has its callback; what it erases from the set is always there. */
    method Cancel(t: Timer) returns (done: bool)
      requires Valid() && t in live
      modifies this`timers, t`cb
      ensures Valid() && done == (old(t.cb) != None) && t.cb == None
      ensures forall u :: u in timers <==> u in old(timers) && !(done && u == t)
      ensures old(Awake()) ==> Awake()
      ensures old(Timely()) ==> Timely()
    {
      done := false;
      if t.cb.Some? {
        t.cb := None;
        var found := TakeOut(t);
        assert found;
        done := true;
      }
    }

    /** A timer out of the set gets a deadline and goes in. */
    method PutBack(t: Timer, next: int)
      requires Ordered() && t in live && t !in timers
      modifies this`timers, t`next
      ensures Ordered() && t.next == next && (forall u :: u in timers <==> u in old(timers) || u == t)
      ensures old(Awake()) && next >= watched ==> Awake()
      ensures timers[0] == t || (|old(timers)| > 0 && timers[0] == old(timers)[0])
    {
      t.next := next;
      var at := Insert(t);
      ghost var was := old(timers);
      assert timers == was[..at] + [t] + was[at..];
      assert timers[at] == t && (at > 0 ==> timers[0] == was[0]);
    }

    method Refresh(t: Timer, now: int) returns (done: bool)
      requires Valid() && t in live && 0 <= now < FOREVER
      modifies this`timers, this`clock, t`next
      ensures Valid() && done == (t.cb != None) && clock == now
      ensures t.next == if done then Wrap(now + t.ms) else old(t.next)
      ensures forall u :: u in timers <==> u in old(timers)
      ensures old(Timely()) && now >= old(clock) && now + t.ms < FOREVER ==> Timely()
      ensures old(Timely()) && now >= old(clock) && now + t.ms < FOREVER && old(Awake()) ==> Awake()
    {
      clock := now;
      if t.cb == None {
        return false;
      }
      var found := TakeOut(t);
      if !found {
        return false;
      }
      PutBack(t, Wrap(now + t.ms));
      return true;
    }

    method Restart(t: Timer, ms: int, next: int) returns (wake: bool)
      requires Ordered() && t in live && t !in timers
      modifies this`timers, this`tickled, t`ms, t`next
      ensures Ordered() && t.ms == ms && t.next == next && (forall u :: u in timers <==> u in old(timers) || u == t)
      ensures old(Awake()) ==> Awake()
      ensures tickled == (old(tickled) || wake) && (wake <==> !old(tickled) && timers[0] == t)
    {
      t.ms, t.next := ms, next;
      wake := AddToSet(t);
    }

    method Reset(t: Timer, ms: int, fromNow: bool, now: int) returns (done: bool, wake: bool)
      requires Valid() && t in live && 0 <= now < FOREVER && 0 <= ms < FOREVER
      modifies this`timers, this`clock, this`tickled, t`next, t`ms
      ensures Valid() && done
      ensures forall u :: u in timers <==> u in old(timers)
      ensures var resets := t.cb != None && (fromNow || ms != old(t.ms));
        && t.ms == (if resets then ms else old(t.ms))
        && t.next == (if resets then Wrap((if fromNow then now else Wrap(old(t.next) - old(t.ms))) + ms) else old(t.next))
        && (wake <==> resets && !old(tickled) && timers[0] == t)
      ensures tickled == (old(tickled) || wake) && clock == now
      ensures old(Awake()) ==> Awake()
      ensures old(Timely()) && now >= old(clock) && now + ms < FOREVER ==> Timely()
    {
      clock := now;
      wake := false;
      if ms == t.ms && !fromNow {
        return true, false;
      }
      if t.cb == None {
        return true, false;
      }
      var found := TakeOut(t);
      if !found {
        return false, false;
      }
      var start := if fromNow then now else Wrap(t.next - t.ms);
      wake := Restart(t, ms, Wrap(start + ms));
      done := true;
    }

    /** How long the owner may wait; from here on an earlier deadline has to set the flag. */
    method GetNextTimer(now: int) returns (wait: int)
      requires Valid() && 0 <= now < FOREVER
      modifies this`tickled, this`clock, this`watched
      ensures Valid() && clock == now && Awake() && !tickled && watched == if timers == [] then FOREVER else timers[0].next
      ensures wait == if timers == [] then FOREVER - 1 else if now >= timers[0].next then 0 else timers[0].next - now
      ensures old(Timely()) && now >= old(clock) ==> Timely()
    {
      tickled, clock := false, now;
      if |timers| == 0 {
        watched := FOREVER;
        return FOREVER - 1;
      }
      watched := timers[0].next;
      if now >= timers[0].next {
        return 0;
      }
      return timers[0].next - now;
    }

    ghost method Tick(now: int)
      requires Valid()
      modifies this`clock
      ensures Valid() && clock == now
    {
      clock := now;
    }

    /**
      A clock more than an hour behind its last reading has rolled over; but in the clock's first
      hour the subtraction wraps, and any step back counts.
    */
    method DetectClockRollover(now: int) returns (rollover: bool)
      requires 0 <= now < FOREVER && Valid()
      modifies this`previousTime
      ensures previousTime == now && Valid()
      ensures rollover <==> RolledBack(old(previousTime), now)
    {
      if previousTime < HOUR {
        assert Wrap(previousTime - HOUR) == previousTime - HOUR + FOREVER by {
          assert previousTime - HOUR == -1 * FOREVER + (previousTime - HOUR + FOREVER);
        }
      }
      rollover := now < previousTime && now < Wrap(previousTime - HOUR);
      previousTime := now;
    }

    // ----- expiry --------------------------------------------------------------------------

    /** The first k timers are those that are due. */
    ghost predicate Due(timers: seq<Timer>, k: int, now: int)
      reads timers
    {
      && 0 <= k <= |timers|
      && (forall i | 0 <= i < k :: timers[i].next <= now)
      && (forall i | k <= i < |timers| :: timers[i].next > now)
    }

    /** Where the due timers end: wherever `lower_bound` lands among equal deadlines, they are all before it. */
    method PastDue(now: int, address: nat) returns (it: nat)
      requires Sorted(timers)
      ensures Due(timers, it, now)
    {
      it := LowerBound(now, address);
      while it < |timers| && timers[it].next == now
        invariant it <= |timers|
        invariant forall i | 0 <= i < it :: timers[i].next <= now
        invariant forall i | it <= i < |timers| :: timers[i].next >= now
      {
        it := it + 1;
      }
    }

    /** What expiry leaves of a timer: a recurring one starts again from now, another loses its callback. */
    predicate AfterExpiry(t: Timer, next: int, ms: int, cb: Option<int>, now: int)
      reads t
    {
      t.ms == ms && if t.recurring then t.next == Wrap(now + ms) && t.cb == cb else t.next == next && t.cb == None
    }

    /** The last part: hand out the callbacks, rearm what recurs, disarm what does not. */
    method HandOut(expired: seq<Timer>, now: int) returns (cbs: seq<Option<int>>)
      requires Ordered() && (forall t | t in expired :: t in live && t !in timers) && 0 <= now < FOREVER
      requires forall i, j | 0 <= i < j < |expired| :: expired[i] != expired[j]
      modifies this`timers, expired
      ensures Ordered()
      ensures |cbs| == |expired| && forall i | 0 <= i < |cbs| :: cbs[i] == old(expired[i].cb)
      ensures forall t | t in live :: t in timers <==> t in old(timers) || Rearmed(expired, |expired|, t)
      ensures forall t | t in expired :: t.ms == old(t.ms)
      ensures forall t | t in expired && t.recurring :: t.next == Wrap(now + t.ms) && t.cb == old(t.cb)
      ensures forall t | t in expired && !t.recurring :: t.next == old(t.next) && t.cb == None
    {
      hide Ordered, Wrap, Rearmed;
      RearmedNone(expired);
      cbs := [];
      for i := 0 to |expired|
        invariant Ordered() && |cbs| == i
        invariant forall j | 0 <= j < i :: cbs[j] == old(expired[j].cb)
        invariant forall t | t in live :: t in timers <==> t in old(timers) || Rearmed(expired, i, t)
        invariant forall j | i <= j < |expired| :: expired[j].cb == old(expired[j].cb) && expired[j].next == old(expired[j].next)
        invariant forall t | t in expired :: t.ms == old(t.ms)
        invariant forall j | 0 <= j < i && expired[j].recurring :: expired[j].next == Wrap(now + expired[j].ms) && expired[j].cb == old(expired[j].cb)
        invariant forall j | 0 <= j < i && !expired[j].recurring :: expired[j].next == old(expired[j].next) && expired[j].cb == None
      {
        var timer := expired[i];
        RearmedNext(expired, i);
        cbs := cbs + [timer.cb];
        HandOutOne(timer, now);
      }
    }

    method HandOutOne(t: Timer, now: int)
      requires Ordered() && t in live && t !in timers
      modifies this`timers, t`next, t`cb
      ensures Ordered() && forall u :: u in timers <==> u in old(timers) || (u == t && t.recurring)
      ensures t.next == if t.recurring then Wrap(now + t.ms) else old(t.next)
      ensures t.cb == if t.recurring then old(t.cb) else None
    {
      if t.recurring {
        PutBack(t, Wrap(now + t.ms));
      } else {
        t.cb := None;
      }
    }

    /** Expires the first n timers of the set. */
    method ExpireFirst(n: nat, now: int) returns (cbs: seq<Option<int>>)
      requires Valid() && n <= |timers| && 0 <= now < FOREVER
      modifies this`timers, timers
      ensures Valid()
      ensures |cbs| == n && forall i | 0 <= i < n :: cbs[i] == old(timers[i].cb)
      ensures forall t :: t in timers <==> t in old(timers)[n..] || (t in old(timers)[..n] && t.recurring)
      ensures forall t | t in old(timers)[..n] :: AfterExpiry(t, old(t.next), old(t.ms), old(t.cb), now)
      ensures forall t | t in old(timers)[n..] :: t.next == old(t.next) && t.ms == old(t.ms) && t.cb == old(t.cb)
      ensures forall t | t in live :: t.ms == old(t.ms) && (t.next == old(t.next) || (t in old(timers) && t.next == Wrap(now + t.ms)))
    {
      OrderedDistinct();
      AllCreated();
      var expired := timers[..n];
      Halves(timers, n);
      timers := timers[n..];
      cbs := HandOut(expired, now);
      RearmedAll(expired);
      AllCreated();
    }

    /** The same, with what it means for deadlines and the wake-up. */
    method ExpireDue(n: nat, now: int) returns (cbs: seq<Option<int>>)
      requires Valid() && n <= |timers| && 0 <= now < FOREVER && clock == now
      modifies this`timers, timers
      ensures Valid()
      ensures |cbs| == n && forall i | 0 <= i < n :: cbs[i] == old(timers[i].cb)
      ensures forall t :: t in timers <==> t in old(timers)[n..] || (t in old(timers)[..n] && t.recurring)
      ensures forall t | t in old(timers)[..n] :: AfterExpiry(t, old(t.next), old(t.ms), old(t.cb), now)
      ensures forall t | t in old(timers)[n..] :: t.next == old(t.next) && t.ms == old(t.ms) && t.cb == old(t.cb)
      ensures old(Timely()) && old(InRange(now)) ==> Timely()
      ensures old(Timely()) && old(InRange(now)) && old(Awake()) ==> Awake()
    {
      hide Sorted, DistinctIds, Wrap;
      FirstIsEarliest();
      AllCreated();
      Members(timers, n);
      cbs := ExpireFirst(n, now);
      EarliestKept(old(timers), timers);
    }

    /** From the search on: everything after a rollover, else what is due. */
    method TakeExpired(rollover: bool, now: int, address: nat) returns (cbs: seq<Option<int>>, ghost k: nat)
      requires Valid() && 0 <= now < FOREVER && clock == now
      modifies this`timers, timers
      ensures Valid() && k <= |old(timers)|
      ensures if rollover then k == |old(timers)| else old(Due(timers, k, now))
      ensures |cbs| == k && forall i | 0 <= i < k :: cbs[i] == old(timers[i].cb)
      ensures forall t :: t in timers <==> t in old(timers)[k..] || (t in old(timers)[..k] && t.recurring)
      ensures forall t | t in old(timers)[..k] :: AfterExpiry(t, old(t.next), old(t.ms), old(t.cb), now)
      ensures forall t | t in old(timers)[k..] :: t.next == old(t.next) && t.ms == old(t.ms) && t.cb == old(t.cb)
      ensures old(Timely()) && old(InRange(now)) ==> Timely()
      ensures old(Timely()) && old(InRange(now)) && old(Awake()) ==> Awake()
    {
      hide Sorted, DistinctIds, Wrap, AfterExpiry, Valid, Timely, Awake, InRange;
      ValidSorted();
      var it := |timers|;
      if !rollover {
        it := PastDue(now, address);
      }
      k := it;
      cbs := ExpireDue(it, now);
    }

    lemma ValidSorted()
      requires Valid()
      ensures Sorted(timers)
    {
    }

    lemma AllCreated()
      requires Ordered()
      ensures forall t | t in timers :: t in live
    {
    }

    lemma FirstIsEarliest()
      requires Ordered()
      ensures forall t | t in timers :: timers[0].next <= t.next
    {
      forall t | t in timers ensures timers[0].next <= t.next {
        var i :| 0 <= i < |timers| && timers[i] == t;
        assert i > 0 ==> Before(timers[0], timers[i]);
      }
    }

    lemma OrderedDistinct()
      requires Ordered()
      ensures forall i, j | 0 <= i < j < |timers| :: timers[i] != timers[j]
    {
    }

    /**
      Takes out the timers that are due, recurring ones at once back in.  With a clock that does not
      roll back, the callbacks are those of exactly the timers whose deadline has come, in order; with
      one that does, those of all timers.  k is how many they are.
    */
    method ListExpiredCb(now: int, address: nat) returns (cbs: seq<Option<int>>, ghost k: nat)
      requires Valid() && 0 <= now < FOREVER
      modifies this`timers, this`previousTime, this`clock, timers
      ensures Valid() && k <= |old(timers)|
      ensures if RolledBack(old(previousTime), now) then k == |old(timers)| else old(Due(timers, k, now))
      ensures previousTime == (if old(timers) == [] then old(previousTime) else now) && clock == now
      ensures |cbs| == k && forall i | 0 <= i < k :: cbs[i] == old(timers[i].cb)
      ensures forall t :: t in timers <==> t in old(timers)[k..] || (t in old(timers)[..k] && t.recurring)
      ensures forall t | t in old(timers)[..k] :: AfterExpiry(t, old(t.next), old(t.ms), old(t.cb), now)
      ensures forall t | t in old(timers)[k..] :: t.next == old(t.next) && t.ms == old(t.ms) && t.cb == old(t.cb)
      ensures old(Timely()) && now >= old(clock) && old(InRange(now)) ==> Timely()
      ensures old(Timely()) && now >= old(clock) && old(InRange(now)) && old(Awake()) ==> Awake()
    {
      hide Sorted, DistinctIds, Wrap, AfterExpiry;
      Tick(now);
      cbs, k := [], 0;
      if |timers| == 0 {
        return;
      }
      var rollover := DetectClockRollover(now);
      if !rollover && timers[0].next > now {
        FirstIsEarliest();
        return;
      }
      cbs, k := TakeExpired(rollover, now, address);
    }
  }

  lemma Halves(timers: seq<Timer>, n: int)
    requires 0 <= n <= |timers| && forall i, j | 0 <= i < j < |timers| :: timers[i] != timers[j]
    ensures forall t | t in timers[..n] :: t in timers && t !in timers[n..]
    ensures forall t :: t in timers <==> t in timers[..n] || t in timers[n..]
  {
    assert timers == timers[..n] + timers[n..];
  }

  lemma Members(timers: seq<Timer>, n: int)
    requires 0 <= n <= |timers|
    ensures forall t | t in timers[n..] || t in timers[..n] :: t in timers
  {
  }

  lemma EarliestKept(was: seq<Timer>, timers: seq<Timer>)
    requires forall t | t in timers :: t in was
    ensures timers != [] ==> was != [] && timers[0] in was
  {
    if timers != [] {
      assert timers[0] in timers;
    }
  }

  /** A refresh moves a timer's deadline forward, unless the sum wraps: exactly then the new deadline is earlier. */
  lemma RefreshEarlierIffWraps(ms: int, next: int, clock: int, now: int)
    requires 0 <= ms <= next < FOREVER && next - ms <= clock <= now < FOREVER
    ensures Wrap(now + ms) < next <==> now + ms >= FOREVER
  {
    if now + ms >= FOREVER {
      assert now + ms == 1 * FOREVER + (now + ms - FOREVER);
      assert (now + ms) % FOREVER == now + ms - FOREVER;
    }
  }

  /** One of the first i timers, and recurring. */
  ghost predicate Rearmed(expired: seq<Timer>, i: int, t: Timer)
    requires i <= |expired|
  {
    t.recurring && exists j | 0 <= j < i :: expired[j] == t
  }

  lemma RearmedNone(expired: seq<Timer>)
    ensures forall t :: !Rearmed(expired, 0, t)
  {
  }

  lemma RearmedAll(expired: seq<Timer>)
    ensures forall t :: Rearmed(expired, |expired|, t) <==> t in expired && t.recurring
  {
  }

  lemma RearmedNext(expired: seq<Timer>, i: int)
    requires 0 <= i < |expired| && forall a, b | 0 <= a < b < |expired| :: expired[a] != expired[b]
    ensures !Rearmed(expired, i, expired[i])
    ensures forall t :: Rearmed(expired, i + 1, t) <==> Rearmed(expired, i, t) || (t == expired[i] && t.recurring)
  {
  }

  /** One element out of an ordered sequence. */
  lemma Removed(was: seq<Timer>, timers: seq<Timer>, pos: int)
    requires 0 <= pos < |was| && timers == was[..pos] + was[pos + 1..]
    requires forall i, j | 0 <= i < j < |was| :: was[i] != was[j]
    ensures forall u :: u in timers <==> u in was && u != was[pos]
    ensures forall i | 0 <= i < |timers| :: timers[i] == was[if i < pos then i else i + 1]
  {
  }

  // ----- a wake-up lost --------------------------------------------------------------------

  lemma OnlyOne(timers: seq<Timer>, t: Timer)
    requires t in timers && (forall u | u in timers :: u == t) && forall i, j | 0 <= i < j < |timers| :: timers[i] != timers[j]
    ensures timers == [t]
  {
    var last := |timers| - 1;
    assert timers[0] in timers && timers[last] in timers;
  }

  /** The owner waits for a timer with the longest of periods. */
  method Waiting() returns (m: TimerManager, t: Timer)
    ensures fresh(m) && fresh(t) && m.Valid() && m.Timely() && m.Awake() && !m.tickled && m.clock == 0
    ensures m.timers == [t] && t in m.live && t.ms == FOREVER - 1 && t.next == FOREVER - 1 && t.cb == Some(7)
    ensures m.watched == FOREVER - 1
  {
    m := new TimerManager(0);
    var wake, wait;
    t, wake := m.AddTimer(1, FOREVER - 1, Some(7), false, 0);
    m.OrderedDistinct();
    OnlyOne(m.timers, t);
    wait := m.GetNextTimer(0);
  }

  /** A refresh ten milliseconds later wraps: the deadline is now early, and nobody is woken. */
  method WakeUpLost() returns (m: TimerManager)
    ensures fresh(m) && m.Valid() && !m.Awake() && m.clock == 10
  {
    var t, done;
    m, t := Waiting();
    done := m.Refresh(t, 10);
    assert t in m.timers && m.timers[0] in m.timers;
    assert 10 + (FOREVER - 1) == 1 * FOREVER + 9;
    assert Wrap(10 + (FOREVER - 1)) == 9;
  }
}
