/** The capture throttle: a bounded table of the last accepted claims, purged only when full,
    against the history of all accepted claims. */
module Throttle {
  import opened Common

  type Id = nat

  type Seconds = nat

  const THROTTLE_CAPACITY: nat := 4096

  datatype Claim = Claim(id: Id, at: Seconds)

  /** The ids with an accepted claim younger than the interval. */
  ghost function Young(accepted: seq<Claim>, interval: Seconds, now: Seconds): set<Id> {
    set i | 0 <= i < |accepted| && now < accepted[i].at + interval :: accepted[i].id
  }

  /** The rule: an id waits out its own interval, and no more ids than fit are young at once. */
  ghost predicate Due(accepted: seq<Claim>, interval: Seconds, id: Id, now: Seconds) {
    id !in Young(accepted, interval, now) && |Young(accepted, interval, now) - {id}| < 4096
  }

  /** The table holds, for each id it knows, its last accepted claim, and knows every young id. */
  ghost predicate Tracks(table: map<Id, Seconds>, accepted: seq<Claim>, interval: Seconds, clock: Seconds) {
    && (forall i :: 0 <= i < |accepted| ==> accepted[i].at <= clock)
    && (forall id :: id in table ==> Claim(id, table[id]) in accepted)
    && (forall i :: 0 <= i < |accepted| ==>
          if accepted[i].id in table then accepted[i].at <= table[accepted[i].id] else accepted[i].at + interval <= clock)
  }

  function Retained(table: map<Id, Seconds>, interval: Seconds, now: Seconds): map<Id, Seconds> {
    map id | id in table && now - table[id] < interval :: table[id]
  }

  lemma YoungInTable(table: map<Id, Seconds>, accepted: seq<Claim>, interval: Seconds, clock: Seconds, now: Seconds)
    requires Tracks(table, accepted, interval, clock) && clock <= now
    ensures Young(accepted, interval, now) == Retained(table, interval, now).Keys
  {
    forall id | id in Retained(table, interval, now) ensures id in Young(accepted, interval, now) {
      var i :| 0 <= i < |accepted| && accepted[i] == Claim(id, table[id]);
    }
  }

  lemma RetainTracks(table: map<Id, Seconds>, accepted: seq<Claim>, interval: Seconds, clock: Seconds, now: Seconds)
    requires Tracks(table, accepted, interval, clock) && clock <= now
    ensures Tracks(Retained(table, interval, now), accepted, interval, now) && Tracks(table, accepted, interval, now)
  {
  }

  lemma ClaimTracks(table: map<Id, Seconds>, accepted: seq<Claim>, interval: Seconds, id: Id, now: Seconds)
    requires Tracks(table, accepted, interval, now)
    ensures Tracks(table[id := now], accepted + [Claim(id, now)], interval, now)
  {
    var all := accepted + [Claim(id, now)];
    assert all[|accepted|] == Claim(id, now);
    forall k | k in table ensures Claim(k, table[k]) in all {
      assert Claim(k, table[k]) in accepted;
    }
  }

  lemma KeysWithin(a: set<Id>, b: set<Id>)
    requires a <= b
    ensures |a| <= |b|
  {
    assert b == a + (b - a);
    assert |b| == |a| + |b - a|;
  }

  /** What the table shows decides the rule, though it may still hold old claims. */
  lemma Verdict(table: map<Id, Seconds>, accepted: seq<Claim>, interval: Seconds, clock: Seconds, id: Id, now: Seconds)
    requires Tracks(table, accepted, interval, clock) && clock <= now
    ensures |Retained(table, interval, now)| <= |table|
    ensures Due(accepted, interval, id, now) <==>
              && !(id in table && now - table[id] < interval)
              && (|table| < THROTTLE_CAPACITY || |Retained(table, interval, now)| < THROTTLE_CAPACITY)
  {
    YoungInTable(table, accepted, interval, clock, now);
    hide Tracks, Young;
    var young := Young(accepted, interval, now);
    KeysWithin(young, table.Keys);
    if id !in young {
      assert young - {id} == young;
    }
  }

  class CaptureThrottle {
    var last: map<Id, Seconds>
    const interval: Seconds
    ghost var accepted: seq<Claim>
    ghost var clock: Seconds

    ghost predicate Valid()
      reads this
    {
      Tracks(last, accepted, interval, clock) && |last| <= THROTTLE_CAPACITY
    }

    constructor (interval: Seconds)
      ensures Valid() && accepted == [] && clock == 0 && this.interval == interval
    {
      last := map[];
      accepted := [];
      clock := 0;
      this.interval := interval;
    }

    /** Accepts a claim exactly when it is due, and never holds more than its capacity. */
    method ClaimSlot(id: Id, now: Seconds) returns (ok: bool)
      requires Valid() && clock <= now
      modifies this
      ensures Valid() && clock == now && |last| <= 4096
      ensures ok <==> Due(old(accepted), interval, id, now)
      ensures accepted == if ok then old(accepted) + [Claim(id, now)] else old(accepted)
    {
      Verdict(last, accepted, interval, clock, id, now);
      RetainTracks(last, accepted, interval, clock, now);
      hide Tracks, Due, Retained;
      clock := now;
      if id in last && now - last[id] < interval {
        return false;
      }
      if |last| >= THROTTLE_CAPACITY {
        last := Retained(last, interval, now);
      }
      if |last| >= THROTTLE_CAPACITY {
        return false;
      }
      ClaimTracks(last, accepted, interval, id, now);
      InsertGrows(last, id, now);
      last := last[id := now];
      accepted := accepted + [Claim(id, now)];
      return true;
    }
  }

  /** The claims of a run: times do not fall, and each is accepted exactly when it was due. */
  ghost predicate Run(claims: seq<Claim>, accepted: seq<seq<Claim>>, interval: Seconds) {
    && |accepted| == |claims| + 1 && accepted[0] == []
    && (forall i, j :: 0 <= i < j < |claims| ==> claims[i].at <= claims[j].at)
    && forall i :: 0 <= i < |claims| ==>
         accepted[i + 1] == if Due(accepted[i], interval, claims[i].id, claims[i].at) then accepted[i] + [claims[i]] else accepted[i]
  }

  /** Accepted claims of one id lie at least an interval apart, and all of them before `now`. */
  ghost predicate Spaced(accepted: seq<Claim>, interval: Seconds, now: Seconds) {
    && (forall i :: 0 <= i < |accepted| ==> accepted[i].at <= now)
    && forall i, j :: 0 <= i < j < |accepted| && accepted[i].id == accepted[j].id ==> accepted[i].at + interval <= accepted[j].at
  }

  lemma YoungGrows(accepted: seq<Claim>, interval: Seconds, c: Claim)
    ensures Young(accepted + [c], interval, c.at) <= Young(accepted, interval, c.at) + {c.id}
  {
    var all := accepted + [c];
    forall i | 0 <= i < |all| && c.at < all[i].at + interval
      ensures all[i].id in Young(accepted, interval, c.at) + {c.id}
    {
      assert i < |accepted| ==> all[i] == accepted[i];
    }
  }

  lemma SpacedStep(accepted: seq<Claim>, interval: Seconds, before: Seconds, c: Claim)
    requires Spaced(accepted, interval, before) && before <= c.at && Due(accepted, interval, c.id, c.at)
    ensures Spaced(accepted + [c], interval, c.at)
    ensures |Young(accepted + [c], interval, c.at)| <= THROTTLE_CAPACITY
  {
    forall i | 0 <= i < |accepted| && accepted[i].id == c.id ensures accepted[i].at + interval <= c.at {
      assert accepted[i].id !in Young(accepted, interval, c.at);
    }
    YoungGrows(accepted, interval, c);
    hide Young;
    var young := Young(accepted, interval, c.at);
    assert young - {c.id} == young;
    KeysWithin(Young(accepted + [c], interval, c.at), young + {c.id});
  }

  /** Over every run the accepted claims of an id are spaced, and at each acceptance no more
      ids than the capacity are young. */
  lemma {:induction false} RunIsThrottled(claims: seq<Claim>, accepted: seq<seq<Claim>>, interval: Seconds, k: nat)
    requires Run(claims, accepted, interval) && 0 < k <= |claims|
    ensures Spaced(accepted[k], interval, claims[k - 1].at)
    ensures accepted[k] != accepted[k - 1] ==> |Young(accepted[k], interval, claims[k - 1].at)| <= THROTTLE_CAPACITY
  {
    var before := if k > 1 then claims[k - 2].at else 0;
    if k > 1 {
      RunIsThrottled(claims, accepted, interval, k - 1);
    }
    hide Due, Young;
    if Due(accepted[k - 1], interval, claims[k - 1].id, claims[k - 1].at) {
      SpacedStep(accepted[k - 1], interval, before, claims[k - 1]);
    }
  }
}
