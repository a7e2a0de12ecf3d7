/** internal/events/replicate.go: one controller's log copied to the others, and a
    new controller's empty log filled from a peer's. */
module Replicate {
  import opened Prelude
  import opened Events
  import F = Forwarders

  /** Every event goes into the controller's own log; a leader also passes it on. */
  class Tee {
    const local: Recorder
    const copy: F.Forwarder?

    ghost predicate Valid()
      reads this, local, copy
    {
      local.Valid() && (copy != null ==> copy.Valid())
    }

    constructor (local: Recorder, copy: F.Forwarder?)
      requires local.Valid() && (copy != null ==> copy.Valid())
      ensures Valid() && this.local == local && this.copy == copy
    {
      this.local, this.copy := local, copy;
    }

    /** The copy carries the event as it came, without the local log's id. */
    method Record(e: Event, leading: bool, now: int)
      requires Valid()
      modifies local, local.events, local.file, copy
      ensures Valid() && local.nextID == old(local.nextID) + 1
      ensures local.Contents() == LastN(old(local.Contents()) + [Kept(e, old(local.nextID), now)], local.maxLen)
      ensures copy != null && leading ==>
                copy.Model() == F.AfterRecord(old(copy.Model()), copy.max, copy.Stamped(e, now))
      ensures copy != null && !leading ==> copy.Model() == old(copy.Model())
    {
      ghost var w;
      w := local.Record(e, now);
      if copy != null && leading {
        copy.Record(e, now);
      }
    }
  }

  // ---- Backfill ----

  /** A peer's answer: its whole log, newest first, or None when it could not be had. */
  type Answer = Option<seq<Event>>

  /** The events of a log as they are recorded anew, from id on. */
  function Renumbered(es: seq<Event>, id: int, now: int): (r: seq<Event>)
    ensures |r| == |es|
  {
    seq(|es|, i requires 0 <= i < |es| => Kept(es[i].(id := 0), id + i, now))
  }

  /** Equal but for their ids. */
  predicate SameUpToIds(a: seq<Event>, b: seq<Event>) {
    |a| == |b| && forall i :: 0 <= i < |a| ==> a[i].(id := b[i].id) == b[i]
  }

  lemma {:induction false} RenumberedNext(kept: seq<Event>, es: seq<Event>, k: nat, id: int, now: int)
    requires k < |es|
    ensures kept + Renumbered(es[..k + 1], id, now)
            == (kept + Renumbered(es[..k], id, now)) + [Kept(es[k].(id := 0), id + k, now)]
  {
  }

  /** The ring holds the tail of those events. */
  ghost predicate Keeps(r: Recorder, all: seq<Event>)
    reads r, r.events
  {
    r.Valid() && r.Contents() == LastN(all, r.maxLen)
  }

  /** One event of a peer's log, recorded under an id of this one. */
  method CopyOne(into: Recorder, e: Event, now: int, ghost before: seq<Event>)
    requires Keeps(into, before)
    modifies into`used, into`nextID, into.events, into.file
    ensures into.nextID == old(into.nextID) + 1
    ensures Keeps(into, before + [Kept(e.(id := 0), old(into.nextID), now)])
  {
    LastNPush(before, Kept(e.(id := 0), into.nextID, now), into.maxLen);
    ghost var w;
    w := into.Record(e.(id := 0), now);
  }

  /** Copies a list that is newest first, oldest first. */
  method CopyLog(into: Recorder, answer: seq<Event>, now: int)
    requires into.Valid()
    modifies into`used, into`nextID, into.events, into.file
    ensures into.Valid() && into.nextID == old(into.nextID) + |answer|
    ensures into.Contents() == LastN(old(into.Contents()) + Renumbered(Reversed(answer), old(into.nextID), now),
            into.maxLen)
  {
    var i := |answer|;
    ghost var oldest, start, kept, k := Reversed(answer), into.nextID, into.Contents(), 0;
    ghost var all := kept;
    while i > 0
      invariant 0 <= i <= |answer| && k == |answer| - i && into.nextID == start + k
      invariant all == kept + Renumbered(oldest[..k], start, now)
      invariant Keeps(into, all)
    {
      i := i - 1;
      RenumberedNext(kept, oldest, k, start, now);
      ghost var next := all + [Kept(answer[i].(id := 0), into.nextID, now)];
      CopyOne(into, answer[i], now, all);
      all := next;
      k := k + 1;
    }
    assert oldest[..|answer|] == oldest;
  }

  /** The log of the first peer that answers with one that is not empty. */
  function FirstLog(answers: seq<Answer>): (log: seq<Event>)
    ensures log == [] <==> forall a :: a in answers ==> a.None? || a.value == []
    ensures log != [] ==> Some(log) in answers
  {
    if answers == [] then []
    else if answers[0].Some? && answers[0].value != [] then answers[0].value
    else FirstLog(answers[1..])
  }

  /** Fills an empty log from the first peer that has one, and nothing but an empty
      log. It reports the number copied, or a failure when no peer had a log and
      one could not be asked. */
  method Backfill(into: Recorder, peers: Option<seq<Answer>>, now: int) returns (n: Result<nat, ()>)
    requires into.Valid()
    modifies into`used, into`nextID, into.events, into.file
    ensures into.Valid()
    ensures var log := if old(into.used) > 0 || peers.None? then [] else FirstLog(peers.value);
            && n == (if old(into.used) > 0 then Ok(0)
                     else if peers.None? then Err(())
                     else if log == [] && None in peers.value then Err(())
                     else Ok(|log|))
            && into.nextID == old(into.nextID) + |log|
            && into.Contents() == if log == [] then old(into.Contents())
                                  else LastN(Renumbered(Reversed(log), old(into.nextID), now), into.maxLen)
  {
    if into.used > 0 { return Ok(0); }
    if peers.None? { return Err(()); }
    var failed := false;
    assert into.Contents() == [];
    for i := 0 to |peers.value|
      invariant into.Valid() && into.Contents() == [] && into.nextID == old(into.nextID)
      invariant FirstLog(peers.value) == FirstLog(peers.value[i..])
      invariant failed <==> None in peers.value[..i]
    {
      assert peers.value[..i + 1] == peers.value[..i] + [peers.value[i]];
      assert peers.value[i..][1..] == peers.value[i + 1..];
      if peers.value[i].None? {
        failed := true;
      } else if peers.value[i].value != [] {
        CopyLog(into, peers.value[i].value, now);
        ghost var copied := Renumbered(Reversed(peers.value[i].value), old(into.nextID), now);
        assert [] + copied == copied;
        return Ok(|peers.value[i].value|);
      }
    }
    assert peers.value[..|peers.value|] == peers.value;
    n := if failed then Err(()) else Ok(0);
  }

  /** A peer that answers with its whole log, newest first, is reproduced in its own
      order, up to ids and as far as the new ring holds; the ids rise. */
  lemma {:induction false} BackfillReproduces(log: seq<Event>, id: int, now: int, maxLen: nat)
    requires forall i :: 0 <= i < |log| ==> log[i].at != 0
    ensures var copied := LastN(Renumbered(Reversed(Reversed(log)), id, now), maxLen);
            SameUpToIds(copied, LastN(log, maxLen)) && IdsRise(copied)
  {
    assert Reversed(Reversed(log)) == log;
    var copied := Renumbered(log, id, now);
    assert SameUpToIds(copied, log) && IdsRise(copied);
    TailSame(copied, log, maxLen);
  }

  lemma {:induction false} TailSame(a: seq<Event>, b: seq<Event>, n: nat)
    requires SameUpToIds(a, b) && IdsRise(a)
    ensures SameUpToIds(LastN(a, n), LastN(b, n)) && IdsRise(LastN(a, n))
  {
  }
}
