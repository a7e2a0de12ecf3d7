/** internal/ratelimit/ratelimit.go: an event is processed once per window, however
    often the sweep of old keys runs in between. */
module Deduplicators {

  /** When each key may be processed again. */
  type Seen = map<string, int>

  function AfterCheck(seen: Seen, key: string, ttl: int, now: int): (Seen, bool) {
    if key in seen && now < seen[key] then (seen, false) else (seen[key := now + ttl], true)
  }

  function AfterSweep(seen: Seen, now: int): Seen {
    map key | key in seen && now < seen[key] :: seen[key]
  }

  class Deduplicator {
    const ttl: int
    var seen: Seen

    constructor (ttl: int)
      ensures this.ttl == ttl && seen == map[]
    {
      this.ttl, seen := ttl, map[];
    }

    method CheckFor(key: string, ttl: int, now: int) returns (first: bool)
      modifies this`seen
      ensures (seen, first) == AfterCheck(old(seen), key, ttl, now)
    {
      if key in seen && now < seen[key] { return false; }
      seen := seen[key := now + ttl];
      first := true;
    }

    method Check(key: string, now: int) returns (first: bool)
      modifies this`seen
      ensures (seen, first) == AfterCheck(old(seen), key, ttl, now)
    {
      first := CheckFor(key, ttl, now);
    }

    method Reset(key: string)
      modifies this`seen
      ensures seen == old(seen) - {key}
    {
      seen := seen - {key};
    }

    /** One sweep of the cleanup loop. */
    method Sweep(now: int)
      modifies this`seen
      ensures seen == AfterSweep(old(seen), now)
    {
      var left := seen.Keys;
      while left != {}
        invariant left <= old(seen).Keys
        invariant forall k :: k in seen <==> k in old(seen) && (k in left || now < old(seen)[k])
        invariant forall k :: k in seen ==> seen[k] == old(seen)[k]
        decreases left
      {
        var k :| k in left;
        if now >= seen[k] {
          seen := seen - {k};
        }
        left := left - {k};
      }
    }
  }

  // ---- Any interleaving of checks and sweeps ----

  datatype Call = Check(key: string, ttl: int, at: int) | Sweep(at: int)

  predicate Monotone(calls: seq<Call>) {
    forall i, j :: 0 <= i < j < |calls| ==> calls[i].at <= calls[j].at
  }

  /** The state, and the calls that passed, in order. */
  function Run(calls: seq<Call>): (Seen, seq<Call>) {
    if calls == [] then (map[], [])
    else
      var (seen, passed) := Run(calls[..|calls| - 1]);
      var c := calls[|calls| - 1];
      match c
      case Check(key, ttl, at) =>
        var (seen', ok) := AfterCheck(seen, key, ttl, at);
        (seen', if ok then passed + [c] else passed)
      case Sweep(at) => (AfterSweep(seen, at), passed)
  }

  /** A passed check of key keeps the next one out until its window is over. */
  ghost predicate Spaced(passed: seq<Call>) {
    forall i, j :: 0 <= i < j < |passed| && passed[i].Check? && passed[j].Check? && passed[i].key == passed[j].key
      && (forall k :: i < k < j && passed[k].Check? ==> passed[k].key != passed[i].key)
      ==> passed[j].at >= passed[i].at + passed[i].ttl
  }

  /** What is remembered of a key: its last pass, unless its window is over. */
  ghost predicate Remembers(seen: Seen, passed: seq<Call>, now: int) {
    forall i :: 0 <= i < |passed| && passed[i].Check?
      && (forall k :: i < k < |passed| && passed[k].Check? ==> passed[k].key != passed[i].key)
      ==> if passed[i].key in seen then seen[passed[i].key] == passed[i].at + passed[i].ttl
        else passed[i].at + passed[i].ttl <= now
  }

  function EndOf(calls: seq<Call>): int {
    if calls == [] then 0 else calls[|calls| - 1].at
  }

  lemma {:induction false} StepSpaced(seen: Seen, passed: seq<Call>, before: int, c: Call)
    requires Spaced(passed) && Remembers(seen, passed, before) && (passed != [] ==> before <= c.at)
    ensures c.Check? ==>
              var (seen', ok) := AfterCheck(seen, c.key, c.ttl, c.at);
              var passed' := if ok then passed + [c] else passed;
              Spaced(passed') && Remembers(seen', passed', c.at)
    ensures c.Sweep? ==> Remembers(AfterSweep(seen, c.at), passed, c.at)
  {
    if c.Check? && AfterCheck(seen, c.key, c.ttl, c.at).1 {
      var passed' := passed + [c];
      forall i | 0 <= i < |passed| && passed[i].Check?
          && (forall k :: i < k < |passed'| && passed'[k].Check? ==> passed'[k].key != passed[i].key)
        ensures forall k :: i < k < |passed| && passed[k].Check? ==> passed[k].key != passed[i].key
        ensures passed[i].key != c.key
      {
        assert passed'[|passed|] == c;
        assert forall k :: i < k < |passed| ==> passed'[k] == passed[k];
      }
      forall i, j | 0 <= i < j < |passed'| && passed'[i].Check? && passed'[j].Check? && passed'[i].key == passed'[j].key
          && (forall k :: i < k < j && passed'[k].Check? ==> passed'[k].key != passed'[i].key)
        ensures passed'[j].at >= passed'[i].at + passed'[i].ttl
      {
        assert forall k :: i < k < |passed| ==> passed'[k] == passed[k];
      }
    }
  }

  /** For each key, a check passes no sooner than the window of the pass before it is
      over, in every interleaving with other keys and with the sweep, which forgets
      only what no longer matters. */
  lemma {:induction false} OncePerWindow(calls: seq<Call>)
    requires Monotone(calls)
    ensures Spaced(Run(calls).1)
  {
    RunSpaced(calls);
  }

  lemma {:induction false} RunSpaced(calls: seq<Call>)
    requires Monotone(calls)
    ensures Spaced(Run(calls).1) && Remembers(Run(calls).0, Run(calls).1, EndOf(calls))
    ensures calls == [] ==> Run(calls).1 == []
  {
    if calls != [] {
      var front := calls[..|calls| - 1];
      RunSpaced(front);
      StepSpaced(Run(front).0, Run(front).1, EndOf(front), calls[|calls| - 1]);
    }
  }

  /** The pass at i is the last of its key. */
  ghost predicate LastPass(passed: seq<Call>, i: nat, key: string) {
    && i < |passed| && passed[i].Check? && passed[i].key == key
    && forall k :: i < k < |passed| && passed[k].Check? ==> passed[k].key != key
  }

  /** Only keys that have passed are remembered. */
  ghost predicate Backed(seen: Seen, passed: seq<Call>) {
    forall key :: key in seen ==> exists i :: LastPass(passed, i, key)
  }

  lemma {:induction false} StepBacked(seen: Seen, passed: seq<Call>, c: Call)
    requires Backed(seen, passed) && c.Check?
    ensures var (seen', ok) := AfterCheck(seen, c.key, c.ttl, c.at);
            Backed(seen', if ok then passed + [c] else passed)
  {
    var (seen', ok) := AfterCheck(seen, c.key, c.ttl, c.at);
    if ok {
      forall key | key in seen' ensures exists i :: LastPass(passed + [c], i, key) {
        if key == c.key {
          assert LastPass(passed + [c], |passed|, key);
        } else {
          var i :| LastPass(passed, i, key);
          assert LastPass(passed + [c], i, key);
        }
      }
    }
  }

  lemma {:induction false} RunBacked(calls: seq<Call>)
    ensures Backed(Run(calls).0, Run(calls).1)
  {
    if calls != [] {
      var front, c := calls[..|calls| - 1], calls[|calls| - 1];
      RunBacked(front);
      if c.Check? {
        StepBacked(Run(front).0, Run(front).1, c);
      }
    }
  }

  /** And a key is never kept out for longer: after any run, a check passes if and only
      if the window of the last pass of that key, if there was one, is over. */
  lemma {:induction false} PassesExactly(calls: seq<Call>, key: string, ttl: int, at: int)
    requires Monotone(calls) && (calls != [] ==> EndOf(calls) <= at)
    ensures var (seen, passed) := Run(calls);
            AfterCheck(seen, key, ttl, at).1
            <==> forall i: nat :: LastPass(passed, i, key) ==> passed[i].at + passed[i].ttl <= at
  {
    RunSpaced(calls);
    RunBacked(calls);
    var (seen, passed) := Run(calls);
    forall i: nat | LastPass(passed, i, key)
      ensures if key in seen then seen[key] == passed[i].at + passed[i].ttl else passed[i].at + passed[i].ttl <= at
    {
      assert passed[i].key == key;
    }
    if key in seen {
      var i: nat :| LastPass(passed, i, key);
    }
  }
}
