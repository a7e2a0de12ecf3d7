/** internal/kube/policycheck.go: the hourly budget of each AutoRemediationPolicy. */
module PolicyBudgets {
  import opened Prelude

  datatype Budget = Budget(hits: map<string, seq<int>>)

  function HitsOf(b: Budget, key: string): seq<int> {
    if key in b.hits then b.hits[key] else []
  }

  /** Used as a function: it drops what is older than an hour as it answers. */
  function AfterUsed(b: Budget, key: string, now: int): (Budget, nat) {
    var kept := After(HitsOf(b, key), now - HOUR);
    (Budget(b.hits[key := kept]), |kept|)
  }

  function AfterHit(b: Budget, key: string, now: int): Budget {
    Budget(b.hits[key := HitsOf(b, key) + [now]])
  }

  class PolicyBudget {
    var hits: map<string, seq<int>>

    function Model(): Budget
      reads this
    {
      Budget(hits)
    }

    constructor ()
      ensures Model() == Budget(map[])
    {
      hits := map[];
    }

    method Used(key: string, now: int) returns (n: nat)
      modifies this
      ensures (Model(), n) == AfterUsed(old(Model()), key, now)
    {
      var all := if key in hits then hits[key] else [];
      var kept: seq<int> := [];
      for i := 0 to |all|
        invariant kept == After(all[..i], now - HOUR)
      {
        assert all[..i + 1][..i] == all[..i];
        if now - all[i] < HOUR {
          kept := kept + [all[i]];
        }
      }
      assert all[..|all|] == all;
      hits := hits[key := kept];
      n := |kept|;
    }

    method Record(key: string, now: int)
      modifies this
      ensures Model() == AfterHit(old(Model()), key, now)
    {
      var all := if key in hits then hits[key] else [];
      hits := hits[key := all + [now]];
    }
  }

  // ---- The tracker against everything ever recorded ----

  datatype Hit = Hit(key: string, at: int)

  function TimesOf(log: seq<Hit>, key: string): seq<int> {
    if log == [] then []
    else
      var rest := TimesOf(log[..|log| - 1], key);
      if log[|log| - 1].key == key then rest + [log[|log| - 1].at] else rest
  }

  lemma {:induction false} TimesPush(log: seq<Hit>, h: Hit, key: string)
    ensures TimesOf(log + [h], key) == TimesOf(log, key) + if h.key == key then [h.at] else []
  {
  }

  /** For every policy, what the tracker holds of the hour before the latest reading
      is what was recorded in it. Readings are made before the lock is taken, so
      one may be overtaken on its way to it. */
  ghost predicate Sound(b: Budget, log: seq<Hit>, latest: int) {
    forall key :: KeySound(HitsOf(b, key), TimesOf(log, key), latest)
  }

  ghost predicate KeySound(hits: seq<int>, times: seq<int>, latest: int) {
    After(hits, latest - HOUR) == After(times, latest - HOUR)
  }

  lemma {:induction false} KeyLater(hits: seq<int>, times: seq<int>, latest: int, later: int)
    requires KeySound(hits, times, latest) && latest <= later
    ensures KeySound(hits, times, later)
  {
    AfterAfter(hits, latest - HOUR, later - HOUR);
    AfterAfter(times, latest - HOUR, later - HOUR);
  }

  lemma {:induction false} Later(b: Budget, log: seq<Hit>, latest: int, later: int)
    requires Sound(b, log, latest) && latest <= later
    ensures Sound(b, log, later)
  {
    forall key ensures KeySound(HitsOf(b, key), TimesOf(log, key), later) {
      KeyLater(HitsOf(b, key), TimesOf(log, key), latest, later);
    }
  }

  function Latest(before: int, now: int): int {
    if before <= now then now else before
  }

  /** Used keeps track whatever reading it is given, and answers with no fewer than
      the actions of the hour before the latest one: exactly those when its own
      reading is the latest. */
  lemma {:induction false} UsedSound(b: Budget, log: seq<Hit>, before: int, key: string, now: int)
    requires Sound(b, log, before)
    ensures Sound(AfterUsed(b, key, now).0, log, Latest(before, now))
    ensures AfterUsed(b, key, now).1 >= |After(TimesOf(log, key), Latest(before, now) - HOUR)|
    ensures before <= now ==> AfterUsed(b, key, now).1 == |After(TimesOf(log, key), now - HOUR)|
  {
    var b', cutoff := AfterUsed(b, key, now).0, Latest(before, now) - HOUR;
    Later(b, log, before, Latest(before, now));
    AfterAfter(HitsOf(b, key), now - HOUR, cutoff);
    AfterShorter(After(HitsOf(b, key), now - HOUR), cutoff);
    assert KeySound(HitsOf(b, key), TimesOf(log, key), Latest(before, now));
    forall other ensures KeySound(HitsOf(b', other), TimesOf(log, other), Latest(before, now)) {
      assert KeySound(HitsOf(b, other), TimesOf(log, other), Latest(before, now));
      assert other != key ==> HitsOf(b', other) == HitsOf(b, other);
    }
  }

  lemma {:induction false} HitSound(b: Budget, log: seq<Hit>, latest: int, key: string, now: int)
    requires Sound(b, log, latest)
    ensures Sound(AfterHit(b, key, now), log + [Hit(key, now)], latest)
  {
    var b' := AfterHit(b, key, now);
    forall other ensures KeySound(HitsOf(b', other), TimesOf(log + [Hit(key, now)], other), latest) {
      assert KeySound(HitsOf(b, other), TimesOf(log, other), latest);
      TimesPush(log, Hit(key, now), other);
      if other == key {
        AfterPush(HitsOf(b, key), now, latest - HOUR);
        AfterPush(TimesOf(log, key), now, latest - HOUR);
      } else {
        assert HitsOf(b', other) == HitsOf(b, other);
        assert TimesOf(log + [Hit(key, now)], other) == TimesOf(log, other);
      }
    }
  }

  /** A reading overtaken by a later one counts fewer than it would have alone, by
      exactly the actions between the two cutoffs: the answers agree if and only if
      there is none. */
  lemma {:induction false} OvertakenCountsFewer(b: Budget, key: string, now: int, later: int)
    requires now <= later
    ensures var gap := CountIn(HitsOf(b, key), now - HOUR + 1, later - HOUR + 1);
            && AfterUsed(AfterUsed(b, key, later).0, key, now).1 + gap == AfterUsed(b, key, now).1
            && (AfterUsed(AfterUsed(b, key, later).0, key, now).1 == AfterUsed(b, key, now).1 <==> gap == 0)
  {
    AfterEarlier(HitsOf(b, key), now - HOUR, later - HOUR);
  }

  lemma {:induction false} AfterEarlier(ts: seq<int>, c: int, d: int)
    requires c <= d
    ensures |After(After(ts, d), c)| + CountIn(ts, c + 1, d + 1) == |After(ts, c)|
  {
    if ts != [] {
      var front, last := ts[..|ts| - 1], ts[|ts| - 1];
      AfterEarlier(front, c, d);
      if last > d {
        AfterPush(After(front, d), last, c);
      }
    }
  }

  // ---- What a caller can tell apart ----

  /** Readings with which some trackers were pruned and others were not: for each
      policy the latest. */
  type Cuts = map<string, int>

  function AddCut(cuts: Cuts, key: string, now: int): Cuts {
    if key in cuts && now <= cuts[key] then cuts else cuts[key := now]
  }

  /** Two lists no reading from the cut on can tell apart. */
  predicate SameFor(h: seq<int>, g: seq<int>, cuts: Cuts, key: string) {
    if key in cuts then After(h, cuts[key] - HOUR) == After(g, cuts[key] - HOUR) else h == g
  }

  /** Two trackers that only a reading earlier than the policy's cut can tell apart. */
  ghost predicate Same(b: Budget, c: Budget, cuts: Cuts) {
    forall key :: SameFor(HitsOf(b, key), HitsOf(c, key), cuts, key)
  }

  lemma {:induction false} UsedHits(b: Budget, key: string, now: int, other: string)
    ensures HitsOf(AfterUsed(b, key, now).0, other)
            == if other == key then After(HitsOf(b, key), now - HOUR) else HitsOf(b, other)
  {
  }

  lemma {:induction false} PrunedAfter(h: seq<int>, g: seq<int>, cut: int, d: int, later: int)
    requires After(h, cut) == After(g, cut) && cut <= later && d <= later
    ensures After(After(h, d), later) == After(g, later)
  {
    AfterAfter(h, cut, later);
    AfterAfter(g, cut, later);
    AfterAfter(h, d, later);
  }

  lemma {:induction false} PrunedSame(h: seq<int>, g: seq<int>, cuts: Cuts, key: string, now: int)
    requires SameFor(h, g, cuts, key)
    ensures SameFor(After(h, now - HOUR), g, AddCut(cuts, key, now), key)
  {
    if key !in cuts {
      AfterAfter(h, now - HOUR, now - HOUR);
    } else if now <= cuts[key] {
      PrunedAfter(h, g, cuts[key] - HOUR, now - HOUR, cuts[key] - HOUR);
    } else {
      PrunedAfter(h, g, cuts[key] - HOUR, now - HOUR, now - HOUR);
    }
  }

  /** Counting in one of them changes nothing a later reading can see. */
  lemma {:induction false} SameUsed(b: Budget, c: Budget, cuts: Cuts, key: string, now: int)
    requires Same(b, c, cuts)
    ensures Same(AfterUsed(b, key, now).0, c, AddCut(cuts, key, now))
  {
    var b' := AfterUsed(b, key, now).0;
    forall other ensures SameFor(HitsOf(b', other), HitsOf(c, other), AddCut(cuts, key, now), other) {
      assert SameFor(HitsOf(b, other), HitsOf(c, other), cuts, other);
      UsedHits(b, key, now, other);
      if other == key { PrunedSame(HitsOf(b, key), HitsOf(c, key), cuts, key, now); }
    }
  }

  lemma {:induction false} BothPruned(h: seq<int>, g: seq<int>, cuts: Cuts, key: string, now: int)
    requires SameFor(h, g, cuts, key) && (key in cuts ==> cuts[key] <= now)
    ensures After(h, now - HOUR) == After(g, now - HOUR)
  {
    if key in cuts {
      AfterAfter(h, cuts[key] - HOUR, now - HOUR);
      AfterAfter(g, cuts[key] - HOUR, now - HOUR);
    }
  }

  /** Counting in both gives the same answer, and leaves them alike. */
  lemma {:induction false} SameCount(b: Budget, c: Budget, cuts: Cuts, key: string, now: int)
    requires Same(b, c, cuts) && (key in cuts ==> cuts[key] <= now)
    ensures AfterUsed(b, key, now).1 == AfterUsed(c, key, now).1
    ensures Same(AfterUsed(b, key, now).0, AfterUsed(c, key, now).0, cuts)
  {
    assert SameFor(HitsOf(b, key), HitsOf(c, key), cuts, key);
    BothPruned(HitsOf(b, key), HitsOf(c, key), cuts, key, now);
    forall other
      ensures SameFor(HitsOf(AfterUsed(b, key, now).0, other), HitsOf(AfterUsed(c, key, now).0, other), cuts, other)
    {
      assert SameFor(HitsOf(b, other), HitsOf(c, other), cuts, other);
      UsedHits(b, key, now, other);
      UsedHits(c, key, now, other);
    }
  }

  lemma {:induction false} BothHit(h: seq<int>, g: seq<int>, cuts: Cuts, key: string, now: int)
    requires SameFor(h, g, cuts, key)
    ensures SameFor(h + [now], g + [now], cuts, key)
  {
    if key in cuts {
      AfterPush(h, now, cuts[key] - HOUR);
      AfterPush(g, now, cuts[key] - HOUR);
    }
  }

  lemma {:induction false} SameHit(b: Budget, c: Budget, cuts: Cuts, key: string, now: int)
    requires Same(b, c, cuts)
    ensures Same(AfterHit(b, key, now), AfterHit(c, key, now), cuts)
  {
    var b', c' := AfterHit(b, key, now), AfterHit(c, key, now);
    forall other ensures SameFor(HitsOf(b', other), HitsOf(c', other), cuts, other) {
      assert SameFor(HitsOf(b, other), HitsOf(c, other), cuts, other);
      if other == key {
        BothHit(HitsOf(b, key), HitsOf(c, key), cuts, key, now);
      } else {
        assert HitsOf(b', other) == HitsOf(b, other) && HitsOf(c', other) == HitsOf(c, other);
      }
    }
  }
}
