/** A token bucket per key, over real time. */
module Buckets {
  import opened Core

  datatype Bucket = Bucket(tokens: real, last: real)

  /** `credit` says how many tokens the bucket has been refilled with since time zero. */
  datatype Limit = Limit(credit: real -> real, capacity: real)

  datatype Call = Call(key: string, at: real)

  type Entries = map<string, Bucket>

  function Credit(rate: real): real -> real {
    t => t * rate
  }

  function Lookup(entries: Entries, key: string): Option<Bucket> {
    if key in entries then Some(entries[key]) else None
  }

  /** The tokens that a key has at a time, before it takes one. */
  function Level(l: Limit, b: Option<Bucket>, now: real): real {
    if b.None? then l.capacity
    else if now <= b.value.last then b.value.tokens
    else
      var tokens := b.value.tokens + (l.credit(now) - l.credit(b.value.last));
      if tokens > l.capacity then l.capacity else tokens
  }

  predicate Grants(l: Limit, b: Option<Bucket>, now: real) {
    Level(l, b, now) >= 1.0
  }

  function After(l: Limit, b: Option<Bucket>, now: real): Bucket {
    Bucket(if Grants(l, b, now) then Level(l, b, now) - 1.0 else Level(l, b, now), now)
  }

  lemma CreditOfTime(rate: real, from: real, to: real)
    ensures Credit(rate)(to) - Credit(rate)(from) == (to - from) * rate
  {
  }

  class Buckets {
    const rate: real
    const capacity: real
    var entries: Entries
    ghost var history: seq<Call>    // every call so far

    ghost function Limits(): Limit {
      Limit(Credit(rate), capacity)
    }

    ghost predicate Valid()
      reads this
    {
      entries == Served(Limits(), history)
    }

    constructor (rate: real, capacity: int)
      ensures this.rate == rate && this.capacity == capacity as real && entries == map[] && history == [] && Valid()
    {
      this.rate, this.capacity, entries, history := rate, capacity as real, map[], [];
    }

    method Refill(entry: Bucket, now: real) returns (r: Bucket)
      ensures r == Bucket(Level(Limit(Credit(rate), capacity), Some(entry), now), now)
    {
      r := entry;
      var elapsed := now - entry.last;
      if elapsed > 0.0 {
        CreditOfTime(rate, entry.last, now);
        r := r.(tokens := r.tokens + elapsed * rate);
        if r.tokens > capacity { r := r.(tokens := capacity); }
      }
      r := r.(last := now);
    }

    /** Takes a token of the key, if it has one now. No other key changes. With a clock that does not go
        back, the answer is yes exactly when no window that ends now has too many grants. */
    method Allow(key: string, now: real) returns (ok: bool)
      requires Valid()
      modifies this`entries, this`history
      ensures Valid() && history == old(history) + [Call(key, now)]
      ensures ok <==> Grants(Limits(), Lookup(old(entries), key), now)
      ensures entries == old(entries)[key := After(Limits(), Lookup(old(entries), key), now)]
      ensures rate >= 0.0 && capacity >= 0.0 && Ordered(history) ==>
        (ok <==> forall k: nat :: k <= |old(history)| ==> FitsWindow(Limits(), rate, old(history), Call(key, now), k))
    {
      ghost var c := Call(key, now);
      if rate >= 0.0 && capacity >= 0.0 && Ordered(history + [c]) {
        CreditIsOfRate(rate, capacity);
        GrantedExactly(Limits(), rate, history, c);
      }
      ServedThen(Limits(), history, c);
      history := history + [c];
      ok := Take(key, now);
    }

    method Take(key: string, now: real) returns (ok: bool)
      modifies this`entries
      ensures ok <==> Grants(Limits(), Lookup(old(entries), key), now)
      ensures entries == old(entries)[key := After(Limits(), Lookup(old(entries), key), now)]
    {
      var entry := if key in entries then entries[key] else Bucket(capacity, now);
      entry := Refill(entry, now);
      if entry.tokens < 1.0 {
        entries := entries[key := entry];
        return false;
      }
      entries := entries[key := entry.(tokens := entry.tokens - 1.0)];
      return true;
    }
  }

  // ----- every run -----

  /** The entries after a series of calls. */
  function Served(l: Limit, calls: seq<Call>): Entries {
    if |calls| == 0 then map[]
    else
      var before, c := Served(l, calls[..|calls| - 1]), calls[|calls| - 1];
      before[c.key := After(l, Lookup(before, c.key), c.at)]
  }

  lemma ServedThen(l: Limit, calls: seq<Call>, c: Call)
    ensures Served(l, calls + [c]) == Served(l, calls)[c.key := After(l, Lookup(Served(l, calls), c.key), c.at)]
  {
    assert (calls + [c])[..|calls|] == calls;
  }

  /** How many of the last calls, for one key, are granted. */
  function Granted(l: Limit, before: seq<Call>, window: seq<Call>, key: string): nat {
    if |window| == 0 then 0
    else
      var init, c := window[..|window| - 1], window[|window| - 1];
      Granted(l, before, init, key) +
      if c.key == key && Grants(l, Lookup(Served(l, before + init), key), c.at) then 1 else 0
  }

  predicate Ordered(calls: seq<Call>) {
    forall i, k :: 0 <= i < k < |calls| ==> calls[i].at <= calls[k].at
  }

  /** Time never takes tokens away. */
  ghost predicate Refills(l: Limit) {
    l.capacity >= 0.0 && forall a, b :: a <= b ==> l.credit(a) <= l.credit(b)
  }

  /** A key never has more tokens than the capacity, nor fewer than none, and was last used in the past. */
  predicate EntrySound(l: Limit, b: Bucket, now: real) {
    0.0 <= b.tokens <= l.capacity && b.last <= now
  }

  lemma {:induction false} ServedIsSound(l: Limit, calls: seq<Call>, key: string)
    requires Refills(l) && Ordered(calls) && key in Served(l, calls)
    ensures |calls| > 0 && EntrySound(l, Served(l, calls)[key], calls[|calls| - 1].at)
  {
    if |calls| > 0 {
      var init, c := calls[..|calls| - 1], calls[|calls| - 1];
      if key in Served(l, init) {
        ServedIsSound(l, init, key);
        assert init[|init| - 1] == calls[|init| - 1];
      }
    }
  }

  /** The tokens that a key has after some calls, at a time. */
  function LevelAfter(l: Limit, calls: seq<Call>, key: string, now: real): real {
    Level(l, Lookup(Served(l, calls), key), now)
  }

  lemma LevelBounds(l: Limit, calls: seq<Call>, key: string, now: real)
    requires Refills(l) && Ordered(calls) && (|calls| > 0 ==> calls[|calls| - 1].at <= now)
    ensures 0.0 <= LevelAfter(l, calls, key, now) <= l.capacity
  {
    if key in Served(l, calls) { ServedIsSound(l, calls, key); }
  }

  /** Waiting adds at most the credit of the time that passes. */
  lemma WaitingAdds(l: Limit, calls: seq<Call>, key: string, now: real)
    requires Refills(l) && Ordered(calls) && |calls| > 0 && calls[|calls| - 1].at <= now
    ensures LevelAfter(l, calls, key, now) <=
      LevelAfter(l, calls, key, calls[|calls| - 1].at) + (l.credit(now) - l.credit(calls[|calls| - 1].at))
  {
    if key in Served(l, calls) { ServedIsSound(l, calls, key); }
  }

  /** What a call takes, and what is left, is what was there. */
  lemma GrantedStep(l: Limit, before: seq<Call>, init: seq<Call>, c: Call, key: string)
    ensures Granted(l, before, init + [c], key) as real + LevelAfter(l, before + (init + [c]), key, c.at) ==
      Granted(l, before, init, key) as real + LevelAfter(l, before + init, key, c.at)
  {
    assert (init + [c])[..|init|] == init;
    assert before + (init + [c]) == before + init + [c] && (before + init + [c])[..|before + init|] == before + init;
  }

  /** Tokens granted and tokens left come from the first level and the credit of the time that passed. */
  lemma {:induction false} TokensAreConserved(l: Limit, before: seq<Call>, window: seq<Call>, key: string)
    requires Refills(l) && Ordered(before + window) && |window| > 0
    ensures var first, last := window[0].at, window[|window| - 1].at;
      Granted(l, before, window, key) as real + LevelAfter(l, before + window, key, last)
        <= l.capacity + (l.credit(last) - l.credit(first))
  {
    var n := |window| - 1;
    var init, c := window[..n], window[n];
    var all := before + window;
    assert window == init + [c] && all[..|before| + n] == before + init;
    GrantedStep(l, before, init, c, key);
    if n == 0 {
      if |before| > 0 { assert all[|before| - 1] == before[|before| - 1] && all[|before|] == c; }
      assert before + init == before;
      LevelBounds(l, before, key, c.at);
    } else {
      TokensAreConserved(l, before, init, key);
      WindowWaits(l, before, init, c, key);
    }
  }

  lemma WindowWaits(l: Limit, before: seq<Call>, init: seq<Call>, c: Call, key: string)
    requires Refills(l) && Ordered(before + (init + [c])) && |init| > 0
    ensures var last := init[|init| - 1].at;
      LevelAfter(l, before + init, key, c.at) <= LevelAfter(l, before + init, key, last) + (l.credit(c.at) - l.credit(last))
  {
    var all, shorter := before + (init + [c]), before + init;
    assert forall i :: 0 <= i < |shorter| ==> shorter[i] == all[i];
    assert all[|shorter|] == c && shorter[|shorter| - 1] == init[|init| - 1];
    WaitingAdds(l, shorter, key, c.at);
  }

  lemma WindowCredit(l: Limit, before: seq<Call>, window: seq<Call>, key: string, refilled: real)
    requires Refills(l) && Ordered(before + window) && |window| > 0
    requires l.credit(window[|window| - 1].at) - l.credit(window[0].at) == refilled
    ensures Granted(l, before, window, key) as real <= l.capacity + refilled
  {
    TokensAreConserved(l, before, window, key);
    assert (before + window)[|before + window| - 1] == window[|window| - 1];
    LevelBounds(l, before + window, key, window[|window| - 1].at);
  }

  lemma RateRefills(rate: real, capacity: real)
    requires rate >= 0.0 && capacity >= 0.0
    ensures Refills(Limit(Credit(rate), capacity))
  {
    forall a: real, b: real | a <= b ensures Credit(rate)(a) <= Credit(rate)(b) {
      assert (b - a) * rate >= 0.0;
    }
  }

  lemma WindowOfRate(rate: real, capacity: real, before: seq<Call>, window: seq<Call>, key: string, refilled: real)
    requires rate >= 0.0 && capacity >= 0.0 && Ordered(before + window) && |window| > 0
    requires refilled == (window[|window| - 1].at - window[0].at) * rate
    ensures Granted(Limit(Credit(rate), capacity), before, window, key) as real <= capacity + refilled
  {
    RateRefills(rate, capacity);
    CreditOfTime(rate, window[0].at, window[|window| - 1].at);
    WindowCredit(Limit(Credit(rate), capacity), before, window, key, refilled);
  }

  /** In any window of any run with a clock that does not go back, at most the capacity and the rate
      times the window's length are granted to a key. */
  lemma WindowBound(rate: real, capacity: real, before: seq<Call>, window: seq<Call>, key: string)
    requires rate >= 0.0 && capacity >= 0.0 && Ordered(before + window) && |window| > 0
    ensures Granted(Limit(Credit(rate), capacity), before, window, key) as real <=
      capacity + (window[|window| - 1].at - window[0].at) * rate
  {
    WindowOfRate(rate, capacity, before, window, key, (window[|window| - 1].at - window[0].at) * rate);
  }

  // ----- nothing is refused that the bound allows -----

  /** One more grant, at the time of call c, would go beyond what the window from call k on allows. */
  predicate Exceeds(l: Limit, calls: seq<Call>, c: Call, k: nat)
    requires k <= |calls|
  {
    Granted(l, calls[..k], calls[k..], c.key) as real + 1.0 > l.capacity + (l.credit(c.at) - l.credit((calls + [c])[k].at))
  }

  /** The tokens of a key are the capacity, or what the capacity and the credit since one of its calls
      leave after the grants since then. */
  lemma {:induction false} LevelHasOrigin(l: Limit, calls: seq<Call>, key: string, now: real) returns (k: nat)
    requires Refills(l) && Ordered(calls) && (|calls| > 0 ==> calls[|calls| - 1].at <= now)
    ensures k <= |calls|
    ensures LevelAfter(l, calls, key, now) == l.capacity ||
      (k < |calls| && LevelAfter(l, calls, key, now) ==
        l.capacity + (l.credit(now) - l.credit(calls[k].at)) - Granted(l, calls[..k], calls[k..], key) as real)
  {
    k := 0;
    if |calls| > 0 && LevelAfter(l, calls, key, now) != l.capacity {
      var n := |calls| - 1;
      var init, c := calls[..n], calls[n];
      assert calls == init + [c];
      if n > 0 { assert init[n - 1] == calls[n - 1]; }
      k := LevelHasOrigin(l, init, key, c.at);
      LastCallCounts(l, init, c, key, now);
      if LevelAfter(l, init, key, c.at) == l.capacity {
        k := n;
        WindowOfOne(l, init, c, key);
      } else {
        WindowGrows(l, init, c, key, k);
      }
    }
  }

  /** Until the bucket is full again, waiting adds exactly the credit, and a call takes what it is granted. */
  lemma LastCallCounts(l: Limit, init: seq<Call>, c: Call, key: string, now: real)
    requires Refills(l) && Ordered(init + [c]) && c.at <= now
    requires LevelAfter(l, init + [c], key, now) != l.capacity
    ensures LevelAfter(l, init + [c], key, now) ==
      LevelAfter(l, init, key, c.at) - Granted(l, init, [c], key) as real + (l.credit(now) - l.credit(c.at))
  {
    assert (init + [c])[..|init|] == init && [c][..0] == [] && init + [] == init;
    if key in Served(l, init) {
      assert Ordered(init) by { assert forall i :: 0 <= i < |init| ==> (init + [c])[i] == init[i]; }
      ServedIsSound(l, init, key);
      assert (init + [c])[|init| - 1] == init[|init| - 1];
    }
  }

  lemma WindowOfOne(l: Limit, init: seq<Call>, c: Call, key: string)
    ensures Granted(l, (init + [c])[..|init|], (init + [c])[|init|..], key) == Granted(l, init, [c], key)
  {
    assert (init + [c])[..|init|] == init && (init + [c])[|init|..] == [c];
  }

  lemma WindowGrows(l: Limit, init: seq<Call>, c: Call, key: string, k: nat)
    requires k <= |init|
    ensures Granted(l, (init + [c])[..k], (init + [c])[k..], key) ==
      Granted(l, init[..k], init[k..], key) + Granted(l, init, [c], key)
  {
    assert (init + [c])[..k] == init[..k] && (init + [c])[k..] == init[k..] + [c];
    assert (init[k..] + [c])[..|init| - k] == init[k..] && init[..k] + init[k..] == init;
    assert [c][..0] == [] && init + [] == init;
  }

  /** A call is refused only when one more grant would exceed the bound of some window that ends with it. */
  lemma RefusedExceeds(l: Limit, calls: seq<Call>, c: Call) returns (k: nat)
    requires Refills(l) && Ordered(calls + [c]) && !Grants(l, Lookup(Served(l, calls), c.key), c.at)
    ensures k <= |calls| && Exceeds(l, calls, c, k)
  {
    assert forall i :: 0 <= i < |calls| ==> (calls + [c])[i] == calls[i];
    if |calls| > 0 { assert (calls + [c])[|calls|] == c; }
    k := LevelHasOrigin(l, calls, c.key, c.at);
    if LevelAfter(l, calls, c.key, c.at) == l.capacity {
      k := |calls|;
      assert calls[k..] == [] && (calls + [c])[k] == c;
    }
  }

  /** A call that is granted stays within the bound of every window that ends with it. */
  lemma GrantedStaysWithin(l: Limit, calls: seq<Call>, c: Call, k: nat)
    requires Refills(l) && Ordered(calls + [c]) && Grants(l, Lookup(Served(l, calls), c.key), c.at) && k <= |calls|
    ensures !Exceeds(l, calls, c, k)
  {
    var window := calls[k..] + [c];
    assert calls[..k] + window == calls + [c] && window[0] == (calls + [c])[k];
    WindowCredit(l, calls[..k], window, c.key, l.credit(c.at) - l.credit(window[0].at));
    GrantCounts(l, calls, c, k);
  }

  /** A granted call adds one to every window that ends with it. */
  lemma GrantCounts(l: Limit, calls: seq<Call>, c: Call, k: nat)
    requires Grants(l, Lookup(Served(l, calls), c.key), c.at) && k <= |calls|
    ensures Granted(l, calls[..k], calls[k..] + [c], c.key) == Granted(l, calls[..k], calls[k..], c.key) + 1
  {
    assert (calls[k..] + [c])[..|calls| - k] == calls[k..] && calls[..k] + calls[k..] == calls;
  }

  /** What is refilled between two times. */
  function Gain(rate: real, from: real, to: real): real {
    (to - from) * rate
  }

  /** A limit whose credit grows with time at this rate. */
  ghost predicate OfRate(l: Limit, rate: real) {
    l.capacity >= 0.0 && rate >= 0.0 && forall a, b {:trigger Gain(rate, a, b)} :: l.credit(b) - l.credit(a) == Gain(rate, a, b)
  }

  lemma CreditIsOfRate(rate: real, capacity: real)
    requires rate >= 0.0 && capacity >= 0.0
    ensures OfRate(Limit(Credit(rate), capacity), rate)
  {
    forall a: real, b: real ensures Credit(rate)(b) - Credit(rate)(a) == Gain(rate, a, b) { CreditOfTime(rate, a, b); }
  }

  lemma RateIsRefill(l: Limit, rate: real)
    requires OfRate(l, rate)
    ensures Refills(l)
  {
    forall a: real, b: real | a <= b ensures l.credit(a) <= l.credit(b) { assert Gain(rate, a, b) >= 0.0; }
  }

  /** With the call, the window from call k on has no more grants than the capacity and what is refilled
      over the window's length. */
  predicate FitsWindow(l: Limit, rate: real, calls: seq<Call>, c: Call, k: nat)
    requires k <= |calls|
  {
    Granted(l, calls[..k], calls[k..], c.key) as real + 1.0 <= l.capacity + Gain(rate, (calls + [c])[k].at, c.at)
  }

  /** Over every run with a clock that does not go back, a call is granted exactly when, with it, no window
      that ends with it has more grants of the key than the capacity and the rate times its length. */
  lemma GrantedExactly(l: Limit, rate: real, calls: seq<Call>, c: Call)
    requires OfRate(l, rate) && Ordered(calls + [c])
    ensures Grants(l, Lookup(Served(l, calls), c.key), c.at) <==>
      forall k: nat :: k <= |calls| ==> FitsWindow(l, rate, calls, c, k)
  {
    RateIsRefill(l, rate);
    if Grants(l, Lookup(Served(l, calls), c.key), c.at) {
      forall k: nat | k <= |calls| ensures FitsWindow(l, rate, calls, c, k) { GrantedStaysWithin(l, calls, c, k); }
    } else {
      var k := RefusedExceeds(l, calls, c);
      assert !FitsWindow(l, rate, calls, c, k);
    }
  }

  /** A key's first call is granted, when the capacity is at least one. */
  lemma FirstIsGranted(l: Limit, calls: seq<Call>, c: Call)
    requires l.capacity >= 1.0 && forall i :: 0 <= i < |calls| ==> calls[i].key != c.key
    ensures Grants(l, Lookup(Served(l, calls), c.key), c.at)
  {
    NeverCalled(l, calls, c.key);
  }

  lemma {:induction false} NeverCalled(l: Limit, calls: seq<Call>, key: string)
    requires forall i :: 0 <= i < |calls| ==> calls[i].key != key
    ensures key !in Served(l, calls)
  {
    if |calls| > 0 { NeverCalled(l, calls[..|calls| - 1], key); }
  }

  /** A call is granted when the time in which one token is refilled has passed since the key's last call. */
  lemma RestedIsGranted(l: Limit, rate: real, calls: seq<Call>, c: Call)
    requires OfRate(l, rate) && l.capacity >= 1.0 && Ordered(calls + [c])
    requires forall i :: 0 <= i < |calls| && calls[i].key == c.key ==> Gain(rate, calls[i].at, c.at) >= 1.0
    ensures Grants(l, Lookup(Served(l, calls), c.key), c.at)
  {
    RateIsRefill(l, rate);
    if c.key in Served(l, calls) {
      var i := LastUse(l, calls, c.key);
      RestedHasOne(l, calls, c);
    }
  }

  lemma RestedHasOne(l: Limit, calls: seq<Call>, c: Call)
    requires Refills(l) && l.capacity >= 1.0 && Ordered(calls + [c]) && c.key in Served(l, calls)
    requires l.credit(c.at) - l.credit(Served(l, calls)[c.key].last) >= 1.0
    ensures Grants(l, Lookup(Served(l, calls), c.key), c.at)
  {
    assert forall k :: 0 <= k < |calls| ==> (calls + [c])[k] == calls[k];
    ServedIsSound(l, calls, c.key);
  }

  /** An entry says when its key was last used. */
  lemma {:induction false} LastUse(l: Limit, calls: seq<Call>, key: string) returns (i: nat)
    requires key in Served(l, calls)
    ensures i < |calls| && calls[i].key == key && calls[i].at == Served(l, calls)[key].last
  {
    var n := |calls| - 1;
    i := n;
    if calls[n].key != key { i := LastUse(l, calls[..n], key); }
  }
}
