// The timestamps of a run's ticks: which of them can be told apart.
module Stamps {
  import opened Sets
  import opened Measurement
  import opened Simulator

  function Times(n: nat, k: nat): nat
  {
    n * k
  }

  lemma TimesStep(n: nat, k: nat)
    requires n > 0
    ensures Times(n, k) == Times(n - 1, k) + k
    ensures Times(0, k) == 0
  {
  }

  /** The time `m` ticks take. */
  function Elapsed(w: World, m: nat): int
  {
    m * w.interval
  }

  function SecondOf(w: World, m: nat): Instant
  {
    WholeSecond(NowAt(w, m))
  }

  /** The timestamp every sample of tick `m` carries. */
  function StampAt(w: World, m: nat): string
  {
    w.clock.format(NowAt(w, m))
  }

  /** The years RFC 3339 can spell cover the run. */
  ghost predicate HorizonInCalendar(w: World, n: nat)
  {
    InCalendar(w.start) && InCalendar(w.start + Elapsed(w, n))
  }

  lemma NowAdvances(w: World, m: nat, n: nat)
    requires w.interval > 0
    ensures NowAt(w, m) == w.start + Elapsed(w, m)
    ensures m < n ==> NowAt(w, m) + w.interval <= NowAt(w, n)
  {
    NowIsLinear(w, m);
    NowIsLinear(w, n);
    if m < n {
      assert (n - m) * w.interval >= w.interval by {
        assert (n - m - 1) * w.interval >= 0;
      }
      assert n * w.interval - m * w.interval == (n - m) * w.interval;
    }
  }

  lemma TickInCalendar(w: World, n: nat, m: nat)
    requires w.interval > 0 && HorizonInCalendar(w, n) && m <= n
    ensures InCalendar(NowAt(w, m)) && NowAt(w, m) <= w.start + Elapsed(w, n)
  {
    NowAdvances(w, m, n);
    NowAdvances(w, n, n);
    NowAdvances(w, 0, m);
  }

  lemma SecondsAdvance(w: World, m: nat, n: nat)
    requires w.interval >= NANOS && m < n
    ensures SecondOf(w, m) < SecondOf(w, n)
  {
    NowAdvances(w, m, n);
  }

  // ---- how many seconds a run touches ----

  function Ticks(n: nat): (s: set<nat>)
    ensures forall m :: m in s <==> 0 < m <= n
  {
    if n == 0 then {} else Ticks(n - 1) + {n}
  }

  lemma {:induction false} TicksSize(n: nat)
    ensures |Ticks(n)| == n
  {
    if n > 0 {
      TicksSize(n - 1);
    }
  }

  /** The seconds in which ticks 1 to `n` fall. */
  function Seconds(w: World, n: nat): set<Instant>
  {
    Image(Ticks(n), (m: nat) => SecondOf(w, m))
  }

  lemma SecondListed(w: World, n: nat, m: nat)
    requires 0 < m <= n
    ensures SecondOf(w, m) in Seconds(w, n)
  {
    var second := (m: nat) => SecondOf(w, m);
    assert second(m) in Image(Ticks(n), second);
  }

  lemma TickOfSecond(w: World, n: nat, t: Instant) returns (m: nat)
    requires t in Seconds(w, n)
    ensures 0 < m <= n && SecondOf(w, m) == t
  {
    var second := (m: nat) => SecondOf(w, m);
    m :| m in Ticks(n) && second(m) == t;
  }

  ghost predicate SecondsDiffer(w: World, n: nat)
  {
    forall m: nat, k: nat :: 0 < m < k <= n ==> SecondOf(w, m) != SecondOf(w, k)
  }

  /** One second per tick exactly when no two ticks share one. */
  lemma SecondsCount(w: World, n: nat)
    ensures |Seconds(w, n)| <= n
    ensures |Seconds(w, n)| == n <==> SecondsDiffer(w, n)
  {
    var second := (m: nat) => SecondOf(w, m);
    TicksSize(n);
    ImageSize(Ticks(n), second);
    if SecondsDiffer(w, n) {
      forall m, k | m in Ticks(n) && k in Ticks(n) && second(m) == second(k) ensures m == k {
        assert SecondOf(w, m) == SecondOf(w, k);
      }
    }
    if InjectiveOn(Ticks(n), second) {
      forall m: nat, k: nat | 0 < m < k <= n ensures SecondOf(w, m) != SecondOf(w, k) {
        assert second(m) != second(k);
      }
    }
  }

  lemma SecondsApart(w: World, n: nat)
    requires w.interval >= NANOS
    ensures SecondsDiffer(w, n)
  {
    forall m: nat, k: nat | 0 < m < k <= n ensures SecondOf(w, m) != SecondOf(w, k) {
      SecondsAdvance(w, m, k);
    }
  }

  // ---- timestamps and keys ----

  ghost predicate StampsDiffer(w: World, n: nat)
  {
    forall m: nat, k: nat :: 0 < m < k <= n ==> StampAt(w, m) != StampAt(w, k)
  }

  lemma StampsAreSeconds(w: World, n: nat)
    requires LawfulClock(w.clock) && w.interval > 0 && HorizonInCalendar(w, n)
    ensures StampsDiffer(w, n) <==> SecondsDiffer(w, n)
  {
    forall m: nat, k: nat | 0 < m < k <= n ensures StampAt(w, m) == StampAt(w, k) <==> SecondOf(w, m) == SecondOf(w, k) {
      TickInCalendar(w, n, m);
      TickInCalendar(w, n, k);
      FormatExactly(w.clock, NowAt(w, m), NowAt(w, k));
    }
  }

  lemma SampleStamp(w: World, m: nat, i: nat)
    requires GoodWorld(w) && i < |w.fleet| && m > 0
    ensures EmittedAt(w, m, i).transformerId == w.fleet[i].id
    ensures EmittedAt(w, m, i).timestamp == w.clock.format(NowAt(w, m))
    ensures EmittedAt(w, m, i).schemaVersion == SCHEMA_VERSION
  {
    TickEquations(w, m, i);
  }

  /** Every timestamp the simulator writes is canonical. */
  lemma StampIsCanonical(w: World, n: nat, m: nat, i: nat)
    requires GoodWorld(w) && LawfulClock(w.clock) && HorizonInCalendar(w, n) && i < |w.fleet| && 0 < m <= n
    ensures Canonical(w.clock, EmittedAt(w, m, i).timestamp)
  {
    hide Canonical;
    SampleStamp(w, m, i);
    TickInCalendar(w, n, m);
    FormattedIsCanonical(w.clock, NowAt(w, m));
  }

  /** No two samples of a unit share a dedup key. */
  ghost predicate KeysDiffer(w: World, n: nat, i: nat)
    requires GoodWorld(w) && i < |w.fleet|
  {
    forall m: nat, k: nat :: 0 < m < k <= n ==> DedupKey(EmittedAt(w, m, i)) != DedupKey(EmittedAt(w, k, i))
  }

  lemma KeyTail(id: string, x: string, y: string)
    ensures id + "@" + x == id + "@" + y <==> x == y
  {
    assert (id + "@" + x)[|id| + 1..] == x && (id + "@" + y)[|id| + 1..] == y;
  }

  lemma KeysAreStamps(w: World, n: nat, i: nat)
    requires GoodWorld(w) && i < |w.fleet|
    ensures KeysDiffer(w, n, i) <==> StampsDiffer(w, n)
  {
    hide EmittedAt;
    forall m: nat, k: nat | 0 < m < k <= n
      ensures DedupKey(EmittedAt(w, m, i)) == DedupKey(EmittedAt(w, k, i)) <==> StampAt(w, m) == StampAt(w, k)
    {
      SampleStamp(w, m, i);
      SampleStamp(w, k, i);
      KeyTail(w.fleet[i].id, StampAt(w, m), StampAt(w, k));
    }
  }

  // ---- how far apart the ticks must be ----

  /** If no two ticks share a second, each takes one at least. */
  lemma {:induction false} SecondsPile(w: World, n: nat, k: nat)
    requires w.interval > 0 && SecondsDiffer(w, n) && 1 <= k <= n
    ensures SecondOf(w, k) >= SecondOf(w, 1) + (k - 1) * NANOS
  {
    if k > 1 {
      SecondsPile(w, n, k - 1);
      NowAdvances(w, k - 1, k);
      assert SecondOf(w, k - 1) != SecondOf(w, k);
    }
  }

  /** Long enough for ticks less than a second apart to meet in one second. */
  predicate LongEnough(w: World, n: nat)
  {
    n >= 1 && (w.interval >= NANOS || Times(n - 1, NANOS - w.interval) >= NANOS)
  }

  lemma ShortTicksMeet(w: World, n: nat)
    requires 0 < w.interval < NANOS && LongEnough(w, n)
    ensures !SecondsDiffer(w, n)
  {
    NowAdvances(w, n, n);
    NowAdvances(w, 1, 1);
    Shortfall(w, n);
    if SecondsDiffer(w, n) {
      SecondsPile(w, n, n);
      assert false;
    }
  }

  lemma Shortfall(w: World, n: nat)
    requires 0 < w.interval < NANOS && LongEnough(w, n)
    ensures Elapsed(w, n) - Elapsed(w, 1) <= (n - 1) * NANOS - NANOS
  {
    assert n * w.interval - w.interval == (n - 1) * w.interval;
    assert (n - 1) * NANOS - (n - 1) * w.interval == (n - 1) * (NANOS - w.interval);
  }

  /**
   * The timestamps of a long enough run, and with them the dedup keys of each
   * unit, tell its ticks apart if and only if the interval is a second or more.
   */
  lemma StampsDifferExactly(w: World, n: nat, i: nat)
    requires GoodWorld(w) && LawfulClock(w.clock) && HorizonInCalendar(w, n) && LongEnough(w, n) && i < |w.fleet|
    ensures StampsDiffer(w, n) <==> w.interval >= NANOS
    ensures KeysDiffer(w, n, i) <==> w.interval >= NANOS
  {
    hide StampsDiffer, KeysDiffer, SecondsDiffer, LongEnough;
    StampsAreSeconds(w, n);
    KeysAreStamps(w, n, i);
    if w.interval >= NANOS {
      SecondsApart(w, n);
    } else {
      ShortTicksMeet(w, n);
    }
  }
}
