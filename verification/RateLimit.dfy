/** The per-user token bucket (gateway/src/lib/rate-limit.ts), scaled to exact
    integers: one token is UNITS units, a millisecond of refill is `capacity`
    units, and a full bucket is capacity * UNITS units. */
module RateLimit {
  import opened Options

  const UNITS := 60000
  const KEY_TTL_MS := 60000

  /** The hash Redis keeps under a user's key. */
  datatype Bucket = Bucket(units: nat, stamp: nat)

  datatype Verdict = Verdict(allowed: bool, retryAfterMs: nat)

  datatype RateLimited = RateLimited(retryAfterSeconds: nat)

  function Min(a: int, b: int): int {
    if a <= b then a else b
  }

  function CeilDiv(a: nat, b: nat): nat
    requires b > 0
  {
    if a == 0 then 0 else (a - 1) / b + 1
  }

  lemma CeilDivBounds(a: nat, b: nat)
    requires b > 0
    ensures a > 0 ==> (CeilDiv(a, b) - 1) * b < a <= CeilDiv(a, b) * b && CeilDiv(a, b) > 0
  {
    if a > 0 {
      assert a - 1 == (a - 1) / b * b + (a - 1) % b;
    }
  }

  function Full(capacity: nat): nat {
    capacity * UNITS
  }

  /** What the bucket holds at `now`, before this call takes anything. */
  function Refilled(b: Option<Bucket>, capacity: nat, now: nat): int {
    match b
    case None => Full(capacity)
    case Some(Bucket(units, stamp)) => Min(Full(capacity), units + (now - stamp) * capacity)
  }

  function VerdictOn(units: nat, capacity: nat): Verdict
    requires capacity > 0
  {
    if units >= UNITS then Verdict(true, 0) else Verdict(false, CeilDiv(UNITS - units, capacity))
  }

  /** One evaluation of the script. */
  function Take(b: Option<Bucket>, capacity: nat, now: nat): (r: (Verdict, Bucket))
    requires capacity > 0 && Sound(b, capacity, now)
    ensures Sound(Some(r.1), capacity, now)
  {
    RefillWithinCapacity(b, capacity, now);
    var units: nat := Refilled(b, capacity, now);
    (VerdictOn(units, capacity), Bucket(if units >= UNITS then units - UNITS else units, now))
  }

  /** Tokens stay within [0, capacity] and the clock has not gone back. */
  predicate Sound(b: Option<Bucket>, capacity: nat, now: nat) {
    b.Some? ==> b.value.units <= Full(capacity) && b.value.stamp <= now
  }

  lemma RefillWithinCapacity(b: Option<Bucket>, capacity: nat, now: nat)
    requires Sound(b, capacity, now)
    ensures 0 <= Refilled(b, capacity, now) <= Full(capacity)
  {
    if b.Some? { Products(now - b.value.stamp, capacity); }
  }

  lemma Products(x: int, y: int)
    requires x >= 0 && y >= 0
    ensures x * y >= 0
  {}

  // ---- Call sequences ----

  ghost predicate Ordered(times: seq<nat>, from: nat) {
    && (forall i :: 0 <= i < |times| ==> from <= times[i])
    && (forall i, j :: 0 <= i <= j < |times| ==> times[i] <= times[j])
  }

  /** The verdicts of a run of calls by one user. */
  ghost function Verdicts(b: Option<Bucket>, capacity: nat, now: nat, times: seq<nat>): (vs: seq<Verdict>)
    requires capacity > 0 && Sound(b, capacity, now) && Ordered(times, now)
    ensures |vs| == |times|
    decreases |times|
  {
    if times == [] then [] else
    assert Sound(b, capacity, times[0]);
    var (v, b') := Take(b, capacity, times[0]);
    [v] + Verdicts(Some(b'), capacity, times[0], times[1..])
  }

  // ---- The bucket that ticks every millisecond ----

  function Tick(units: nat, capacity: nat): nat {
    Min(Full(capacity), units + capacity)
  }

  function TickFor(units: nat, capacity: nat, ms: nat): nat
    decreases ms
  {
    if ms == 0 then units else TickFor(Tick(units, capacity), capacity, ms - 1)
  }

  ghost function TickingVerdicts(units: nat, capacity: nat, now: nat, times: seq<nat>): (vs: seq<Verdict>)
    requires capacity > 0 && Ordered(times, now)
    decreases |times|
  {
    if times == [] then [] else
    var u := TickFor(units, capacity, times[0] - now);
    [VerdictOn(u, capacity)] + TickingVerdicts(if u >= UNITS then u - UNITS else u, capacity, times[0], times[1..])
  }

  lemma {:induction false} TickForIsRefill(units: nat, capacity: nat, ms: nat)
    requires units <= Full(capacity)
    ensures TickFor(units, capacity, ms) == Min(Full(capacity), units + ms * capacity)
    decreases ms
  {
    Products(ms, capacity);
    if ms > 0 {
      TickForIsRefill(Tick(units, capacity), capacity, ms - 1);
      Products(ms - 1, capacity);
      assert ms * capacity == (ms - 1) * capacity + capacity;
    }
  }

  /** The script's refill is what the ticks have added. */
  lemma TickingTake(b: Bucket, capacity: nat, t: nat)
    requires capacity > 0 && Sound(Some(b), capacity, t)
    ensures var u := TickFor(b.units, capacity, t - b.stamp);
            Take(Some(b), capacity, t) == (VerdictOn(u, capacity), Bucket(if u >= UNITS then u - UNITS else u, t))
  {
    TickForIsRefill(b.units, capacity, t - b.stamp);
  }

  lemma TickingCons(units: nat, capacity: nat, now: nat, times: seq<nat>)
    requires capacity > 0 && Ordered(times, now) && times != []
    ensures var u := TickFor(units, capacity, times[0] - now);
            TickingVerdicts(units, capacity, now, times)
            == [VerdictOn(u, capacity)]
             + TickingVerdicts(if u >= UNITS then u - UNITS else u, capacity, times[0], times[1..])
  {}

  /** The lazy script gives, call by call, the verdicts and waits of a bucket
      that really gains capacity/60000 of a token every millisecond. */
  lemma {:induction false} LazyRefinesTicking(b: Bucket, capacity: nat, now: nat, times: seq<nat>)
    requires capacity > 0 && Sound(Some(b), capacity, b.stamp) && b.stamp == now && Ordered(times, now)
    ensures Verdicts(Some(b), capacity, now, times) == TickingVerdicts(b.units, capacity, now, times)
    decreases |times|
  {
    if times != [] {
      var b' := Take(Some(b), capacity, times[0]).1;
      TickingTake(b, capacity, times[0]);
      LazyRefinesTicking(b', capacity, times[0], times[1..]);
      VerdictsCons(Some(b), capacity, now, times);
      TickingCons(b.units, capacity, now, times);
    }
  }

  /** A first call, with no key stored, behaves as a full ticking bucket. */
  lemma FreshBucketIsFull(capacity: nat, now: nat, times: seq<nat>)
    requires capacity > 0 && Ordered(times, now)
    ensures Verdicts(None, capacity, now, times) == TickingVerdicts(Full(capacity), capacity, now, times)
  {
    var full := Bucket(Full(capacity), now);
    if times != [] {
      Products(times[0] - now, capacity);
      assert Take(None, capacity, times[0]) == Take(Some(full), capacity, times[0]);
    }
    LazyRefinesTicking(full, capacity, now, times);
  }

  // ---- Refused calls leave no trace ----

  lemma RefillComposes(b: Option<Bucket>, capacity: nat, t: nat, later: nat)
    requires Sound(b, capacity, t) && t <= later
    ensures b.Some? ==>
              var units := Refilled(b, capacity, t);
              Refilled(b, capacity, later) == Min(Full(capacity), units + (later - t) * capacity)
    ensures b.None? ==>
              Refilled(b, capacity, later) == Min(Full(capacity), Refilled(b, capacity, t) + (later - t) * capacity)
  {
    Products(later - t, capacity);
    if b.Some? {
      var s := b.value.stamp;
      Products(t - s, capacity);
      assert (later - s) * capacity == (t - s) * capacity + (later - t) * capacity;
    }
  }

  function Without<T>(s: seq<T>, k: nat): seq<T>
    requires k < |s|
  {
    s[..k] + s[k + 1..]
  }

  lemma WithoutCons<T>(x: T, s: seq<T>, k: nat)
    requires k < |s|
    ensures Without([x] + s, k + 1) == [x] + Without(s, k)
  {}

  lemma WithoutKeepsOrder(times: seq<nat>, now: nat, k: nat)
    requires Ordered(times, now) && k < |times|
    ensures Ordered(Without(times, k), now)
  {}

  /** Dropping a refused call from the sequence changes no other verdict. */
  lemma {:induction false} RefusedCallsChangeNothing(
      b: Option<Bucket>, capacity: nat, now: nat, times: seq<nat>, k: nat)
    requires capacity > 0 && Sound(b, capacity, now) && Ordered(times, now) && k < |times|
    requires !Verdicts(b, capacity, now, times)[k].allowed
    ensures Ordered(Without(times, k), now)
    ensures Verdicts(b, capacity, now, Without(times, k)) == Without(Verdicts(b, capacity, now, times), k)
    decreases k
  {
    WithoutKeepsOrder(times, now, k);
    if k == 0 {
      FirstRefusal(b, capacity, now, times);
    } else {
      LaterVerdict(b, capacity, now, times, k);
      RefusedCallsChangeNothing(Some(Take(b, capacity, times[0]).1), capacity, times[0], times[1..], k - 1);
      DropAfterFirst(b, capacity, now, times, k);
    }
  }

  lemma FirstRefusal(b: Option<Bucket>, capacity: nat, now: nat, times: seq<nat>)
    requires capacity > 0 && Sound(b, capacity, now) && times != []
    requires Ordered(times, now) && Ordered(Without(times, 0), now)
    requires !Verdicts(b, capacity, now, times)[0].allowed
    ensures Verdicts(b, capacity, now, Without(times, 0)) == Without(Verdicts(b, capacity, now, times), 0)
  {
    var b' := Take(b, capacity, times[0]).1;
    VerdictsCons(b, capacity, now, times);
    assert Without(times, 0) == times[1..];
    SameAfterRefusal(b, b', capacity, now, times[0], times[1..]);
    var vs := Verdicts(Some(b'), capacity, times[0], times[1..]);
    assert Without([Take(b, capacity, times[0]).0] + vs, 0) == vs;
  }

  lemma LaterVerdict(b: Option<Bucket>, capacity: nat, now: nat, times: seq<nat>, k: nat)
    requires capacity > 0 && Sound(b, capacity, now) && Ordered(times, now) && 0 < k < |times|
    ensures Verdicts(b, capacity, now, times)[k]
         == Verdicts(Some(Take(b, capacity, times[0]).1), capacity, times[0], times[1..])[k - 1]
  {
    VerdictsCons(b, capacity, now, times);
  }

  lemma VerdictsCons(b: Option<Bucket>, capacity: nat, now: nat, times: seq<nat>)
    requires capacity > 0 && Sound(b, capacity, now) && Ordered(times, now) && times != []
    ensures var (v, b') := Take(b, capacity, times[0]);
            Verdicts(b, capacity, now, times) == [v] + Verdicts(Some(b'), capacity, times[0], times[1..])
  {}

  lemma DropAfterFirst(b: Option<Bucket>, capacity: nat, now: nat, times: seq<nat>, k: nat)
    requires capacity > 0 && Sound(b, capacity, now) && Ordered(times, now) && 0 < k < |times|
    requires Ordered(Without(times, k), now) && Ordered(Without(times[1..], k - 1), times[0])
    requires var b' := Take(b, capacity, times[0]).1;
             Verdicts(Some(b'), capacity, times[0], Without(times[1..], k - 1))
             == Without(Verdicts(Some(b'), capacity, times[0], times[1..]), k - 1)
    ensures Verdicts(b, capacity, now, Without(times, k)) == Without(Verdicts(b, capacity, now, times), k)
  {
    var (v, b') := Take(b, capacity, times[0]);
    var vs := Verdicts(Some(b'), capacity, times[0], times[1..]);
    VerdictsCons(b, capacity, now, times);
    WithoutCons(v, vs, k - 1);
    assert Without(times, k)[1..] == Without(times[1..], k - 1);
    VerdictsCons(b, capacity, now, Without(times, k));
  }

  lemma {:induction false} SameAfterRefusal(
      b: Option<Bucket>, b': Bucket, capacity: nat, now: nat, t: nat, times: seq<nat>)
    requires capacity > 0 && Sound(b, capacity, now) && now <= t && Ordered(times, t) && Ordered(times, now)
    requires !Take(b, capacity, t).0.allowed && b' == Take(b, capacity, t).1
    ensures Verdicts(b, capacity, now, times) == Verdicts(Some(b'), capacity, t, times)
  {
    if times != [] {
      RefillComposes(b, capacity, t, times[0]);
      RefillWithinCapacity(b, capacity, t);
      assert Refilled(b, capacity, times[0]) == Refilled(Some(b'), capacity, times[0]);
    }
  }

  // ---- Key expiry ----

  /** A call together with whether Redis had dropped the key by then. */
  datatype Call = Call(at: nat, dropped: bool)

  function Times(calls: seq<Call>): (ts: seq<nat>)
    ensures |ts| == |calls| && forall i :: 0 <= i < |calls| ==> ts[i] == calls[i].at
  {
    if calls == [] then [] else [calls[0].at] + Times(calls[1..])
  }

  /** Redis may drop the key once KEY_TTL_MS have passed since the last call. */
  ghost predicate ExpiryLegal(calls: seq<Call>, last: nat) {
    calls != [] ==>
      && (calls[0].dropped ==> calls[0].at >= last + KEY_TTL_MS)
      && ExpiryLegal(calls[1..], calls[0].at)
  }

  ghost function ExpiringVerdicts(b: Option<Bucket>, capacity: nat, now: nat, calls: seq<Call>): seq<Verdict>
    requires capacity > 0 && Sound(b, capacity, now) && Ordered(Times(calls), now)
    decreases |calls|
  {
    if calls == [] then [] else
    var times := Times(calls);
    var stored := if calls[0].dropped then None else b;
    assert Sound(stored, capacity, times[0]);
    var (v, b') := Take(stored, capacity, times[0]);
    assert Times(calls[1..]) == times[1..];
    [v] + ExpiringVerdicts(Some(b'), capacity, times[0], calls[1..])
  }

  /** Expiry is invisible: verdicts and waits are those of a key kept forever. */
  lemma {:induction false} ExpiryIsInvisible(b: Option<Bucket>, capacity: nat, now: nat, calls: seq<Call>)
    requires capacity > 0 && Sound(b, capacity, now) && Ordered(Times(calls), now)
    requires b.Some? ==> b.value.stamp == now
    requires ExpiryLegal(calls, now)
    ensures ExpiringVerdicts(b, capacity, now, calls) == Verdicts(b, capacity, now, Times(calls))
    decreases |calls|
  {
    if calls != [] {
      var times := Times(calls);
      var at := times[0];
      if calls[0].dropped && b.Some? {
        FullAfterTtl(b.value.units, capacity, at - now);
      }
      var (_, b') := Take(b, capacity, at);
      assert Times(calls[1..]) == times[1..];
      ExpiryIsInvisible(Some(b'), capacity, at, calls[1..]);
    }
  }

  lemma FullAfterTtl(units: nat, capacity: nat, ms: nat)
    requires ms >= KEY_TTL_MS
    ensures units + ms * capacity >= Full(capacity)
  {
    Products(ms - KEY_TTL_MS, capacity);
    assert ms * capacity == KEY_TTL_MS * capacity + (ms - KEY_TTL_MS) * capacity;
  }

  // ---- The rate bound ----

  function Grants(vs: seq<Verdict>): nat {
    if vs == [] then 0 else (if vs[0].allowed then 1 else 0) + Grants(vs[1..])
  }

  /** A call takes out what it grants, and the next one finds no more than time
      has added since. */
  lemma TakeThenWait(b: Option<Bucket>, capacity: nat, t: nat, wait: nat)
    requires capacity > 0 && Sound(b, capacity, t)
    ensures var (v, b') := Take(b, capacity, t);
            && Refilled(b, capacity, t) == b'.units + (if v.allowed then UNITS else 0)
            && Refilled(Some(b'), capacity, t + wait) <= b'.units + wait * capacity
  {
    RefillWithinCapacity(b, capacity, t);
    Products(wait, capacity);
  }

  lemma Spans(first: nat, second: nat, capacity: nat)
    ensures (first + second) * capacity == first * capacity + second * capacity
  {}

  /** Every grant is paid for: from what the bucket held at the first call of
      the window plus what time added since. */
  lemma {:induction false} GrantsArePaidFor(b: Option<Bucket>, capacity: nat, now: nat, times: seq<nat>, span: nat)
    requires capacity > 0 && Sound(b, capacity, now) && Ordered(times, now)
    requires times != [] && times[|times| - 1] - times[0] == span
    ensures Grants(Verdicts(b, capacity, now, times)) * UNITS <= Refilled(b, capacity, times[0]) + span * capacity
    decreases |times|
  {
    var rest := times[1..];
    GrantsCons(b, capacity, now, times);
    if rest == [] {
      TakeThenWait(b, capacity, times[0], 0);
    } else {
      var wait: nat, left: nat := rest[0] - times[0], span - (rest[0] - times[0]);
      TakeThenWait(b, capacity, times[0], wait);
      GrantsArePaidFor(Some(Take(b, capacity, times[0]).1), capacity, times[0], rest, left);
      Spans(wait, left, capacity);
    }
  }

  lemma GrantsCons(b: Option<Bucket>, capacity: nat, now: nat, times: seq<nat>)
    requires capacity > 0 && Sound(b, capacity, now) && Ordered(times, now) && times != []
    ensures var (v, b') := Take(b, capacity, times[0]);
            Grants(Verdicts(b, capacity, now, times))
            == (if v.allowed then 1 else 0) + Grants(Verdicts(Some(b'), capacity, times[0], times[1..]))
  {
    var (v, b') := Take(b, capacity, times[0]);
    assert Verdicts(b, capacity, now, times)[1..] == Verdicts(Some(b'), capacity, times[0], times[1..]);
  }

  /** Whatever happened before (any sound bucket), a window of `delta` ms holds
      at most capacity + floor(delta * capacity / 60000) grants. */
  lemma RateBoundOverEveryWindow(b: Option<Bucket>, capacity: nat, now: nat, times: seq<nat>, delta: nat)
    requires capacity > 0 && Sound(b, capacity, now) && Ordered(times, now)
    requires times != [] ==> times[|times| - 1] - times[0] <= delta
    ensures Grants(Verdicts(b, capacity, now, times)) <= capacity + delta * capacity / 60000
  {
    var grants := Grants(Verdicts(b, capacity, now, times));
    if times == [] {
      SpendWithin(grants, 0, 0, delta, capacity);
    } else {
      var span := times[|times| - 1] - times[0];
      OrderedEnds(times, now);
      RefillWithinCapacity(b, capacity, times[0]);
      GrantsArePaidFor(b, capacity, now, times, span);
      SpendWithin(grants, Refilled(b, capacity, times[0]), span, delta, capacity);
    }
  }

  lemma {:induction false} OrderedEnds(times: seq<nat>, from: nat)
    requires Ordered(times, from) && times != []
    ensures times[0] <= times[|times| - 1]
    decreases |times|
  {
    if |times| > 1 { OrderedEnds(times[1..], times[0]); }
  }

  lemma SpendWithin(grants: nat, held: int, span: int, delta: nat, capacity: nat)
    requires grants * UNITS <= held + span * capacity && held <= Full(capacity) && span <= delta
    ensures grants <= capacity + delta * capacity / 60000
  {
    MulMonotone(span, delta, capacity);
    DivideOut(grants - capacity, delta * capacity);
  }

  lemma DivideOut(x: int, y: int)
    requires x * UNITS <= y
    ensures x <= y / UNITS
  {}

  lemma MulMonotone(x: int, y: int, k: nat)
    requires x <= y
    ensures x * k <= y * k
  {}

  // ---- What a bucket is good for ----

  lemma Multiple(tokens: nat, capacity: nat)
    requires 0 < tokens <= capacity
    ensures capacity * 60000 >= 60000 && tokens * 60000 <= capacity * 60000
  {}

  /** Exactly: the call is granted when what was left, and capacity / 60000 of a
      token for every millisecond since, make a whole one. */
  lemma GrantedIff(b: Bucket, capacity: nat, t: nat)
    requires capacity > 0 && Sound(Some(b), capacity, t)
    ensures Take(Some(b), capacity, t).0.allowed <==> b.units + (t - b.stamp) * capacity >= 60000
  {
    Multiple(1, capacity);
  }

  /** A call on a bucket that holds a token leaves one less, at this instant. */
  lemma OneTokenLess(b: Option<Bucket>, capacity: nat, t: nat, tokens: nat)
    requires capacity > 0 && Sound(b, capacity, t) && Refilled(b, capacity, t) == tokens * 60000
    ensures var (v, b') := Take(b, capacity, t);
            && (v.allowed <==> tokens > 0)
            && Refilled(Some(b'), capacity, t) == (if tokens > 0 then tokens - 1 else 0) * 60000
  {
    RefillWithinCapacity(b, capacity, t);
  }

  ghost predicate AllAt(times: seq<nat>, t: nat) {
    forall i :: 0 <= i < |times| ==> times[i] == t
  }

  /** `tokens` tokens serve exactly the first `tokens` of any calls made at once. */
  lemma {:induction false} TokensAreSpent(
      b: Option<Bucket>, capacity: nat, now: nat, times: seq<nat>, t: nat, tokens: nat)
    requires capacity > 0 && Sound(b, capacity, now) && Ordered(times, now) && now <= t && AllAt(times, t)
    requires Refilled(b, capacity, t) == tokens * 60000
    ensures forall i :: 0 <= i < |times| ==> (Verdicts(b, capacity, now, times)[i].allowed <==> i < tokens)
    decreases |times|
  {
    if times != [] {
      var b' := Take(b, capacity, t).1;
      OneTokenLess(b, capacity, t, tokens);
      VerdictsCons(b, capacity, now, times);
      TokensAreSpent(Some(b'), capacity, t, times[1..], t, if tokens > 0 then tokens - 1 else 0);
      var rest := Verdicts(Some(b'), capacity, t, times[1..]);
      forall i | 0 <= i < |times| ensures Verdicts(b, capacity, now, times)[i].allowed <==> i < tokens {
        if i > 0 { assert Verdicts(b, capacity, now, times)[i] == rest[i - 1]; }
      }
    }
  }

  /** A user without a key, or one who has not called for 60000 ms, has exactly
      `capacity` calls granted at once. */
  lemma BurstIsExactlyCapacity(b: Option<Bucket>, capacity: nat, now: nat, times: seq<nat>, t: nat)
    requires capacity > 0 && Sound(b, capacity, now) && Ordered(times, now) && now <= t && AllAt(times, t)
    requires b.Some? ==> t - b.value.stamp >= 60000
    ensures forall i :: 0 <= i < |times| ==> (Verdicts(b, capacity, now, times)[i].allowed <==> i < capacity)
  {
    if b.Some? { FullAfterTtl(b.value.units, capacity, t - b.value.stamp); }
    TokensAreSpent(b, capacity, now, times, t, capacity);
  }

  // ---- Many users on one store ----

  type Store = map<string, Bucket>

  function Lookup(store: Store, user: string): Option<Bucket> {
    if user in store then Some(store[user]) else None
  }

  /** A call, and the keys Redis has dropped since the one before. */
  datatype UserCall = UserCall(user: string, at: nat, dropped: set<string>)

  ghost predicate StoreSound(store: Store, capacity: nat, now: nat) {
    forall u :: u in store ==> Sound(Some(store[u]), capacity, now)
  }

  ghost predicate CallsOrdered(calls: seq<UserCall>, from: nat) {
    calls != [] ==> from <= calls[0].at && CallsOrdered(calls[1..], calls[0].at)
  }

  /** The store that the next call of `calls` leaves behind. */
  ghost function StoreNext(store: Store, capacity: nat, now: nat, calls: seq<UserCall>): (store': Store)
    requires capacity > 0 && StoreSound(store, capacity, now) && CallsOrdered(calls, now) && calls != []
    ensures StoreSound(store', capacity, calls[0].at)
  {
    var c, kept := calls[0], store - calls[0].dropped;
    kept[c.user := Take(Lookup(kept, c.user), capacity, c.at).1]
  }

  /** The verdicts of all calls on the one store, in order. */
  ghost function SharedVerdicts(store: Store, capacity: nat, now: nat, calls: seq<UserCall>): (vs: seq<Verdict>)
    requires capacity > 0 && StoreSound(store, capacity, now) && CallsOrdered(calls, now)
    ensures |vs| == |calls|
    decreases |calls|
  {
    if calls == [] then [] else
    var c := calls[0];
    [Take(Lookup(store - c.dropped, c.user), capacity, c.at).0]
    + SharedVerdicts(StoreNext(store, capacity, now, calls), capacity, c.at, calls[1..])
  }

  /** Only keys past their TTL are ever dropped. */
  ghost predicate DropsLegal(store: Store, capacity: nat, now: nat, calls: seq<UserCall>)
    requires capacity > 0 && StoreSound(store, capacity, now) && CallsOrdered(calls, now)
    decreases |calls|
  {
    calls != [] ==>
      && (forall u :: u in calls[0].dropped && u in store ==> store[u].stamp + KEY_TTL_MS <= calls[0].at)
      && DropsLegal(StoreNext(store, capacity, now, calls), capacity, calls[0].at, calls[1..])
  }

  function VerdictsTo(user: string, calls: seq<UserCall>, vs: seq<Verdict>): seq<Verdict>
    requires |vs| == |calls|
  {
    if calls == [] then []
    else (if calls[0].user == user then [vs[0]] else []) + VerdictsTo(user, calls[1..], vs[1..])
  }

  function TimesOf(calls: seq<UserCall>, user: string): seq<nat> {
    if calls == [] then []
    else (if calls[0].user == user then [calls[0].at] else []) + TimesOf(calls[1..], user)
  }

  lemma {:induction false} TimesOfOrdered(calls: seq<UserCall>, from: nat, user: string)
    requires CallsOrdered(calls, from)
    ensures Ordered(TimesOf(calls, user), from)
  {
    if calls != [] {
      TimesOfOrdered(calls[1..], calls[0].at, user);
    }
  }

  /** What the store holds of a user's bucket: the bucket, or nothing once it
      has been full for certain. */
  predicate Stands(held: Option<Bucket>, b: Option<Bucket>, now: nat) {
    held == b || (held.None? && b.Some? && b.value.stamp + KEY_TTL_MS <= now)
  }

  lemma SameTake(held: Option<Bucket>, b: Option<Bucket>, capacity: nat, now: nat)
    requires capacity > 0 && Sound(b, capacity, now) && Sound(held, capacity, now) && Stands(held, b, now)
    ensures Take(held, capacity, now) == Take(b, capacity, now)
  {
    if held != b { FullAfterTtl(b.value.units, capacity, now - b.value.stamp); }
  }

  lemma SinceDoesNotMatter(b: Option<Bucket>, capacity: nat, now: nat, later: nat, times: seq<nat>)
    requires capacity > 0 && Sound(b, capacity, now) && now <= later && Ordered(times, later) && Ordered(times, now)
    ensures Verdicts(b, capacity, now, times) == Verdicts(b, capacity, later, times)
  {}

  lemma SharedCons(store: Store, capacity: nat, now: nat, calls: seq<UserCall>, user: string)
    requires capacity > 0 && StoreSound(store, capacity, now) && CallsOrdered(calls, now) && calls != []
    ensures var c := calls[0];
            var v := Take(Lookup(store - c.dropped, c.user), capacity, c.at).0;
            var vs := SharedVerdicts(StoreNext(store, capacity, now, calls), capacity, c.at, calls[1..]);
            VerdictsTo(user, calls, SharedVerdicts(store, capacity, now, calls))
            == if c.user == user then [v] + VerdictsTo(user, calls[1..], vs) else VerdictsTo(user, calls[1..], vs)
  {
    var vs := SharedVerdicts(StoreNext(store, capacity, now, calls), capacity, calls[0].at, calls[1..]);
    assert SharedVerdicts(store, capacity, now, calls)[1..] == vs;
    assert [] + VerdictsTo(user, calls[1..], vs) == VerdictsTo(user, calls[1..], vs);
  }

  /** Drops and other users' calls leave what stands for a user's bucket. */
  lemma StillStands(store: Store, b: Option<Bucket>, capacity: nat, now: nat, calls: seq<UserCall>, user: string)
    requires capacity > 0 && StoreSound(store, capacity, now) && CallsOrdered(calls, now) && calls != []
    requires DropsLegal(store, capacity, now, calls)
    requires Sound(b, capacity, now) && Stands(Lookup(store, user), b, now)
    ensures Stands(Lookup(store - calls[0].dropped, user), b, calls[0].at)
    ensures calls[0].user != user ==> Stands(Lookup(StoreNext(store, capacity, now, calls), user), b, calls[0].at)
  {}

  lemma TimesCons(calls: seq<UserCall>, user: string)
    requires calls != []
    ensures calls[0].user == user ==> TimesOf(calls, user) == [calls[0].at] + TimesOf(calls[1..], user)
    ensures calls[0].user != user ==> TimesOf(calls, user) == TimesOf(calls[1..], user)
  {
    assert [] + TimesOf(calls[1..], user) == TimesOf(calls[1..], user);
  }

  lemma OwnCall(b: Option<Bucket>, capacity: nat, now: nat, at: nat, rest: seq<nat>)
    requires capacity > 0 && Sound(b, capacity, now) && now <= at && Ordered(rest, at) && Ordered([at] + rest, now)
    ensures Verdicts(b, capacity, now, [at] + rest)
         == [Take(b, capacity, at).0] + Verdicts(Some(Take(b, capacity, at).1), capacity, at, rest)
  {
    VerdictsCons(b, capacity, now, [at] + rest);
    assert ([at] + rest)[1..] == rest;
  }

  /** Other users' calls and key expiry, together, never change a user's
      verdicts: they are those of its own calls on a key kept for ever. */
  lemma {:induction false} UsersAreIndependent(
      store: Store, b: Option<Bucket>, capacity: nat, now: nat, calls: seq<UserCall>, user: string)
    requires capacity > 0 && StoreSound(store, capacity, now) && CallsOrdered(calls, now)
    requires DropsLegal(store, capacity, now, calls)
    requires Sound(b, capacity, now) && Stands(Lookup(store, user), b, now)
    ensures Ordered(TimesOf(calls, user), now)
    ensures VerdictsTo(user, calls, SharedVerdicts(store, capacity, now, calls))
         == Verdicts(b, capacity, now, TimesOf(calls, user))
    decreases |calls|
  {
    TimesOfOrdered(calls, now, user);
    if calls != [] {
      var c, store' := calls[0], StoreNext(store, capacity, now, calls);
      var rest := TimesOf(calls[1..], user);
      SharedCons(store, capacity, now, calls, user);
      StillStands(store, b, capacity, now, calls, user);
      TimesOfOrdered(calls[1..], c.at, user);
      TimesCons(calls, user);
      if c.user == user {
        SameTake(Lookup(store - c.dropped, user), b, capacity, c.at);
        UsersAreIndependent(store', Some(Take(b, capacity, c.at).1), capacity, c.at, calls[1..], user);
        OwnCall(b, capacity, now, c.at, rest);
      } else {
        UsersAreIndependent(store', b, capacity, c.at, calls[1..], user);
        SinceDoesNotMatter(b, capacity, now, c.at, rest);
      }
    }
  }

  // ---- The rate bound on the shared store ----

  /** Grants to `user` among these calls. */
  function GrantsTo(user: string, calls: seq<UserCall>, vs: seq<Verdict>): nat
    requires |vs| == |calls|
  {
    Grants(VerdictsTo(user, calls, vs))
  }

  lemma {:induction false} FirstCalls(store: Store, capacity: nat, now: nat, calls: seq<UserCall>, n: nat)
    requires capacity > 0 && StoreSound(store, capacity, now) && CallsOrdered(calls, now) && n <= |calls|
    requires DropsLegal(store, capacity, now, calls)
    ensures CallsOrdered(calls[..n], now) && DropsLegal(store, capacity, now, calls[..n])
    ensures SharedVerdicts(store, capacity, now, calls[..n]) == SharedVerdicts(store, capacity, now, calls)[..n]
    decreases n
  {
    if n > 0 {
      var first := calls[..n];
      assert first[1..] == calls[1..][..n - 1];
      FirstCalls(StoreNext(store, capacity, now, calls), capacity, calls[0].at, calls[1..], n - 1);
      assert StoreNext(store, capacity, now, first) == StoreNext(store, capacity, now, calls);
    }
  }

  lemma {:induction false} TimesWithin(calls: seq<UserCall>, from: nat, user: string)
    requires CallsOrdered(calls, from) && calls != []
    ensures forall t :: t in TimesOf(calls, user) ==> calls[0].at <= t <= calls[|calls| - 1].at
    decreases |calls|
  {
    if |calls| > 1 {
      TimesWithin(calls[1..], calls[0].at, user);
      assert calls[1..][|calls| - 2] == calls[|calls| - 1];
    }
    CallsEnd(calls, from);
  }

  lemma {:induction false} CallsEnd(calls: seq<UserCall>, from: nat)
    requires CallsOrdered(calls, from) && calls != []
    ensures calls[0].at <= calls[|calls| - 1].at
    decreases |calls|
  {
    if |calls| > 1 { CallsEnd(calls[1..], calls[0].at); }
  }

  /** A whole sequence of calls that spans at most `delta` ms. */
  lemma BoundOverAll(store: Store, capacity: nat, now: nat, calls: seq<UserCall>, user: string, delta: nat)
    requires capacity > 0 && StoreSound(store, capacity, now) && CallsOrdered(calls, now)
    requires DropsLegal(store, capacity, now, calls)
    requires calls != [] && calls[|calls| - 1].at - calls[0].at <= delta
    ensures GrantsTo(user, calls, SharedVerdicts(store, capacity, now, calls)) <= capacity + delta * capacity / 60000
  {
    var b, times := Lookup(store, user), TimesOf(calls, user);
    UsersAreIndependent(store, b, capacity, now, calls, user);
    TimesWithin(calls, now, user);
    if times != [] {
      assert times[0] in times && times[|times| - 1] in times;
    }
    RateBoundOverEveryWindow(b, capacity, now, times, delta);
  }

  lemma SliceOfTheRest<T>(s: seq<T>, i: nat, j: nat)
    requires 0 < i <= j <= |s|
    ensures s[1..][i - 1..j - 1] == s[i..j]
  {}

  lemma SharedRest(store: Store, capacity: nat, now: nat, calls: seq<UserCall>)
    requires capacity > 0 && StoreSound(store, capacity, now) && CallsOrdered(calls, now) && calls != []
    ensures SharedVerdicts(store, capacity, now, calls)[1..]
         == SharedVerdicts(StoreNext(store, capacity, now, calls), capacity, calls[0].at, calls[1..])
  {}

  /** Any stretch of a call sequence is one itself, on the store as it then is. */
  lemma {:induction false} Stretch(store: Store, capacity: nat, now: nat, calls: seq<UserCall>, i: nat, j: nat)
    returns (from: Store, since: nat, window: seq<UserCall>)
    requires capacity > 0 && StoreSound(store, capacity, now) && CallsOrdered(calls, now)
    requires DropsLegal(store, capacity, now, calls) && i <= j <= |calls|
    ensures window == calls[i..j] && StoreSound(from, capacity, since) && CallsOrdered(window, since)
    ensures DropsLegal(from, capacity, since, window)
    ensures SharedVerdicts(from, capacity, since, window) == SharedVerdicts(store, capacity, now, calls)[i..j]
    decreases i
  {
    if i == 0 {
      from, since, window := store, now, calls[..j];
      FirstCalls(store, capacity, now, calls, j);
    } else {
      from, since, window :=
        Stretch(StoreNext(store, capacity, now, calls), capacity, calls[0].at, calls[1..], i - 1, j - 1);
      SharedRest(store, capacity, now, calls);
      SliceOfTheRest(calls, i, j);
      SliceOfTheRest(SharedVerdicts(store, capacity, now, calls), i, j);
    }
  }

  /** In any run of calls by any users on the one store, Redis dropping keys as
      it may: every window of `delta` ms, wherever it lies, grants a user at most
      capacity + floor(delta * capacity / 60000) calls. */
  lemma RateBoundOnTheSharedStore(
      store: Store, capacity: nat, now: nat, calls: seq<UserCall>, i: nat, j: nat, user: string, delta: nat)
    requires capacity > 0 && StoreSound(store, capacity, now) && CallsOrdered(calls, now)
    requires DropsLegal(store, capacity, now, calls)
    requires i < j <= |calls| && calls[j - 1].at - calls[i].at <= delta
    ensures GrantsTo(user, calls[i..j], SharedVerdicts(store, capacity, now, calls)[i..j])
         <= capacity + delta * capacity / 60000
  {
    var from, since, window := Stretch(store, capacity, now, calls, i, j);
    BoundOverAll(from, capacity, since, window, user, delta);
  }

  // ---- Retry-After ----

  /** The header value the gateway derives from the script's answer. */
  function RetryAfterSeconds(retryAfterMs: nat): nat {
    var s := CeilDiv(retryAfterMs, 1000);
    if s < 1 then 1 else s
  }

  /** After a refusal at `t`, the next call of this user is refused strictly
      before t + retryAfterMs and granted from then on; refused calls in
      between (dropped by RefusedCallsChangeNothing) do not move the moment. */
  lemma RetryAfterIsExact(b: Option<Bucket>, capacity: nat, t: nat, later: nat)
    requires capacity > 0 && Sound(b, capacity, t) && t <= later
    requires !Take(b, capacity, t).0.allowed
    ensures var (v, b') := Take(b, capacity, t);
            Take(Some(b'), capacity, later).0.allowed <==> later >= t + v.retryAfterMs
  {
    var (v, b') := Take(b, capacity, t);
    RefillWithinCapacity(b, capacity, t);
    var need := UNITS - b'.units;
    var gained := (later - t) * capacity;
    assert need > 0 && v.retryAfterMs == CeilDiv(need, capacity);
    CeilDivBounds(need, capacity);
    Products(later - t, capacity);
    if later >= t + v.retryAfterMs {
      MulMonotone(v.retryAfterMs, later - t, capacity);
    } else {
      MulMonotone(later - t, v.retryAfterMs - 1, capacity);
    }
  }

  /** The same, across any refused calls in between: until the announced
      moment every call is refused, and the first call from then on is granted. */
  lemma {:induction false} RetryAfterSurvivesRetries(b: Option<Bucket>, capacity: nat, t: nat, times: seq<nat>)
    requires capacity > 0 && Sound(b, capacity, t) && !Take(b, capacity, t).0.allowed
    requires Ordered(times, t) && times != []
    requires forall i :: 0 <= i < |times| - 1 ==> times[i] < t + Take(b, capacity, t).0.retryAfterMs
    ensures var (v, b') := Take(b, capacity, t);
            var vs := Verdicts(Some(b'), capacity, t, times);
            && (forall i :: 0 <= i < |times| - 1 ==> !vs[i].allowed)
            && (vs[|times| - 1].allowed <==> times[|times| - 1] >= t + v.retryAfterMs)
    decreases |times|
  {
    var (v, b') := Take(b, capacity, t);
    RetryAfterIsExact(b, capacity, t, times[0]);
    if |times| > 1 {
      var (w, b'') := Take(Some(b'), capacity, times[0]);
      SameWaitAfterRetry(b, capacity, t, times[0]);
      RetryAfterSurvivesRetries(Some(b'), capacity, times[0], times[1..]);
      var vs := Verdicts(Some(b'), capacity, t, times);
      assert vs == [w] + Verdicts(Some(b''), capacity, times[0], times[1..]);
    }
  }

  lemma SameWaitAfterRetry(b: Option<Bucket>, capacity: nat, t: nat, later: nat)
    requires capacity > 0 && Sound(b, capacity, t) && t <= later && !Take(b, capacity, t).0.allowed
    requires !Take(Some(Take(b, capacity, t).1), capacity, later).0.allowed
    ensures var (v, b') := Take(b, capacity, t);
            var (w, _) := Take(Some(b'), capacity, later);
            later + w.retryAfterMs == t + v.retryAfterMs
  {
    var (v, b') := Take(b, capacity, t);
    var (w, b'') := Take(Some(b'), capacity, later);
    Products(later - t, capacity);
    RefillWithinCapacity(b, capacity, t);
    var need, gained := UNITS - b'.units, (later - t) * capacity;
    assert b''.units == b'.units + gained;
    CeilDivShift(need, capacity, later - t);
  }

  lemma CeilDivShift(a: nat, b: nat, k: nat)
    requires b > 0 && k * b < a
    ensures CeilDiv(a - k * b, b) == CeilDiv(a, b) - k
  {
    var q, p := CeilDiv(a, b), CeilDiv(a - k * b, b);
    CeilDivBounds(a, b);
    CeilDivBounds(a - k * b, b);
    assert (q - k) * b == q * b - k * b && (q - k - 1) * b == (q - 1) * b - k * b;
    if p < q - k {
      MulMonotone(p, q - k - 1, b);
    } else if p > q - k {
      MulMonotone(q - k, p - 1, b);
    }
  }

  lemma WaitIsShort(need: nat, capacity: nat)
    requires 0 < need && capacity > 0
    ensures 1 <= CeilDiv(need, capacity) <= need
  {
    CeilDivBounds(need, capacity);
    var w := CeilDiv(need, capacity);
    Products(w - 1, capacity - 1);
    assert (w - 1) * capacity == (w - 1) * (capacity - 1) + w - 1;
  }

  /** In whole seconds: never early, late by under a second, between 1 and 60.
      The floor of one second never binds, because a refusal waits at least 1 ms. */
  lemma RetryAfterSecondsIsTight(b: Option<Bucket>, capacity: nat, t: nat)
    requires capacity > 0 && Sound(b, capacity, t) && !Take(b, capacity, t).0.allowed
    ensures var v := Take(b, capacity, t).0;
            var s := RetryAfterSeconds(v.retryAfterMs);
            && v.retryAfterMs >= 1 && s == CeilDiv(v.retryAfterMs, 1000)
            && v.retryAfterMs <= s * 1000 < v.retryAfterMs + 1000
            && 1 <= s <= 60
  {
    var v := Take(b, capacity, t).0;
    RefillWithinCapacity(b, capacity, t);
    WaitIsShort(UNITS - Refilled(b, capacity, t), capacity);
    CeilDivBounds(v.retryAfterMs, 1000);
  }

  /** So a client that waits for that many seconds is served. */
  lemma SecondsSuffice(b: Option<Bucket>, capacity: nat, t: nat, later: nat)
    requires capacity > 0 && Sound(b, capacity, t) && !Take(b, capacity, t).0.allowed
    requires later >= t + 1000 * RetryAfterSeconds(Take(b, capacity, t).0.retryAfterMs)
    ensures Take(Some(Take(b, capacity, t).1), capacity, later).0.allowed
    ensures Take(b, capacity, t).1.units < UNITS && Take(b, capacity, t).1.stamp == t
  {
    RetryAfterSecondsIsTight(b, capacity, t);
    RetryAfterIsExact(b, capacity, t, later);
  }

  // ---- The script as it runs, on the store it updates in place ----

  /** A stored hash with the moment from which Redis may drop it. */
  datatype Keyed = Keyed(tokens: nat, stampMs: nat, expiresAt: nat)

  class RedisStore {
    var hashes: map<string, Keyed>
    ghost var grants: multiset<string>   // every token ever granted, by key

    /** The store as the bucket functions above see it. */
    ghost function Contents(): Store
      reads this
    {
      map u | u in hashes :: Bucket(hashes[u].tokens, hashes[u].stampMs)
    }

    ghost predicate Valid(capacity: nat, now: nat)
      reads this
    {
      && StoreSound(Contents(), capacity, now)
      && forall u :: u in hashes ==> hashes[u].expiresAt == hashes[u].stampMs + KEY_TTL_MS
    }

    constructor ()
      ensures hashes == map[] && grants == multiset{}
    {
      hashes, grants := map[], multiset{};
    }

    /** TAKE_TOKEN: the verdict is the bucket function's on what was stored,
        and only this key changes. */
    method TakeToken(key: string, capacity: nat, nowMs: nat) returns (allowed: bool, retryAfterMs: nat)
      requires capacity > 0 && Valid(capacity, nowMs)
      modifies this
      ensures Valid(capacity, nowMs)
      ensures Verdict(allowed, retryAfterMs) == Take(Lookup(old(Contents()), key), capacity, nowMs).0
      ensures Contents() == old(Contents())[key := Take(Lookup(old(Contents()), key), capacity, nowMs).1]
      ensures grants == if allowed then old(grants) + multiset{key} else old(grants)
      ensures key in hashes && hashes[key].expiresAt == nowMs + 60000
    {
      ghost var before := Contents();
      assert key in before ==> Sound(Some(before[key]), capacity, nowMs);
      var tokens, stampMs := Full(capacity), nowMs;
      if key in hashes {
        tokens, stampMs := hashes[key].tokens, hashes[key].stampMs;
      }
      RefillWithinCapacity(Lookup(before, key), capacity, nowMs);
      Products(nowMs - stampMs, capacity);
      tokens := Min(Full(capacity), tokens + (nowMs - stampMs) * capacity);
      allowed, retryAfterMs := false, 0;
      if tokens >= UNITS {
        tokens := tokens - UNITS;
        allowed, grants := true, grants + multiset{key};
      } else {
        retryAfterMs := CeilDiv(UNITS - tokens, capacity);
      }
      hashes := hashes[key := Keyed(tokens, nowMs, nowMs + KEY_TTL_MS)];
      assert Contents() == before[key := Take(Lookup(before, key), capacity, nowMs).1];
      forall u | u in Contents() ensures Sound(Some(Contents()[u]), capacity, nowMs) {
        assert u != key ==> Sound(Some(before[u]), capacity, nowMs);
      }
    }

    /** Succeeds exactly on a granted token; a refusal carries a wait after
        which, with no grant in between, the next call is granted. */
    method TakeRateLimitToken(user: string, perMinute: nat, nowMs: nat) returns (r: Result<(), RateLimited>)
      requires perMinute > 0 && Valid(perMinute, nowMs)
      modifies this
      ensures Valid(perMinute, nowMs)
      ensures r.Ok? <==> Take(Lookup(old(Contents()), "rate:" + user), perMinute, nowMs).0.allowed
      ensures Contents() == old(Contents())["rate:" + user :=
                Take(Lookup(old(Contents()), "rate:" + user), perMinute, nowMs).1]
      ensures grants == if r.Ok? then old(grants) + multiset{"rate:" + user} else old(grants)
      ensures r.Err? ==> var left := Contents()["rate:" + user]; left.units < UNITS && left.stamp == nowMs
      ensures r.Err? ==> 1 <= r.error.retryAfterSeconds <= 60
      ensures r.Err? ==> forall later :: later >= nowMs + 1000 * r.error.retryAfterSeconds ==>
                Take(Some(Contents()["rate:" + user]), perMinute, later).0.allowed
    {
      ghost var b := Lookup(Contents(), "rate:" + user);
      assert b.Some? ==> Sound(Some(Contents()["rate:" + user]), perMinute, nowMs);
      var allowed, retryAfterMs := TakeToken("rate:" + user, perMinute, nowMs);
      if !allowed {
        RetryAfterSecondsIsTight(b, perMinute, nowMs);
        SecondsSuffice(b, perMinute, nowMs, nowMs + 1000 * RetryAfterSeconds(retryAfterMs));
        forall later | later >= nowMs + 1000 * RetryAfterSeconds(retryAfterMs)
          ensures Take(Some(Take(b, perMinute, nowMs).1), perMinute, later).0.allowed
        {
          SecondsSuffice(b, perMinute, nowMs, later);
        }
        return Err(RateLimited(RetryAfterSeconds(retryAfterMs)));
      }
      return Ok(());
    }
  }
}
