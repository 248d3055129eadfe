/**
 The host runtime applies `verify_match` calls one after another, each to the
 state the previous one left. This module models a run of such calls and
 proves what the registry and the event log look like afterwards: a trade id
 reads as verified exactly when it did before or some accepted call named it,
 the log grows by one `MatchVerified` per accepted call, and the registry and
 the log never disagree.
 */
module VerifierSequence {
  import opened Verifier

  /** One submitted `verify_match` call: its origin and its eleven fields. */
  datatype Call = Call(
    origin: Origin,
    bid_uuid: u32,
    bid_market_uuid: Bytes,
    bid_asset_uuid: Bytes,
    bid_max_energy: u32,
    bid_time_slot: Bytes,
    offer_uuid: u32,
    offer_market_uuid: Bytes,
    offer_asset_uuid: Bytes,
    offer_energy_type: Bytes,
    offer_max_energy: u32,
    offer_time_slot: Bytes)

  /** Dispatches one call against state `s`. */
  function Apply(s: State, c: Call): Dispatched
  {
    VerifyMatch(s, c.origin, c.bid_uuid, c.bid_market_uuid, c.bid_asset_uuid, c.bid_max_energy,
                c.bid_time_slot, c.offer_uuid, c.offer_market_uuid, c.offer_asset_uuid,
                c.offer_energy_type, c.offer_max_energy, c.offer_time_slot)
  }

  /** A call the verifier accepts, whatever the state: signed, and its three ids agree. */
  predicate Accepted(c: Call)
  {
    && c.origin.Signed?
    && c.bid_uuid == c.offer_uuid
    && c.bid_market_uuid == c.offer_market_uuid
    && c.bid_asset_uuid == c.offer_asset_uuid
  }

  /** Some accepted call among `calls` names trade `id`. */
  ghost predicate VerifiedBy(calls: seq<Call>, id: u32)
  {
    exists i :: 0 <= i < |calls| && Accepted(calls[i]) && calls[i].bid_uuid == id
  }

  /** The events the accepted calls among `calls` deposit, in order. */
  function Emitted(calls: seq<Call>): seq<Event>
  {
    if |calls| == 0 then []
    else
      (if Accepted(calls[0]) then [MatchVerified(calls[0].bid_uuid, calls[0].offer_uuid)] else [])
      + Emitted(calls[1..])
  }

  /**
   The state after the calls in order. The log only grows, and no trade that
   read as verified stops reading so.
   */
  function Run(s: State, calls: seq<Call>): (r: State)
    ensures s.events <= r.events
    ensures NeverUnset(s.validTrades, r.validTrades)
    decreases |calls|
  {
    if |calls| == 0 then s
    else Run(Apply(s, calls[0]).post, calls[1..])
  }

  /**
   Every deposited `MatchVerified` has equal ids and its trade reads as
   verified; every verified trade has such an event; no entry holds `false`.
   */
  ghost predicate Audited(s: State)
  {
    && (forall k :: k in s.validTrades ==> s.validTrades[k])
    && (forall k :: Verified(s, k) ==> MatchVerified(k, k) in s.events)
    && (forall i :: 0 <= i < |s.events| && s.events[i].MatchVerified? ==>
          s.events[i].bid_uuid == s.events[i].offer_uuid && Verified(s, s.events[i].bid_uuid))
    && (forall i :: 0 <= i < |s.events| ==> !s.events[i].TradeIdStored?)
  }

  /** A call succeeds exactly when it is accepted; the state does not matter. */
  lemma ApplyResult(s: State, c: Call)
    ensures Apply(s, c).result == Ok <==> Accepted(c)
    ensures Accepted(c) ==> Verified(Apply(s, c).post, c.bid_uuid)
    ensures !Accepted(c) ==> Apply(s, c).post == s
  {
  }

  /** One step keeps the registry and the log in agreement. */
  lemma ApplyPreservesAudit(s: State, c: Call)
    requires Audited(s)
    ensures Audited(Apply(s, c).post)
  {
  }

  /** A trade reads as verified after a run exactly when it did before or an accepted call named it. */
  lemma {:induction false} RunRegistry(s: State, calls: seq<Call>, id: u32)
    ensures Verified(Run(s, calls), id) <==> Verified(s, id) || VerifiedBy(calls, id)
    decreases |calls|
  {
    if |calls| > 0 {
      var c := calls[0];
      var rest := calls[1..];
      var s1 := Apply(s, c).post;
      RunRegistry(s1, rest, id);
      ApplyResult(s, c);
      assert Verified(s1, id) <==> Verified(s, id) || (Accepted(c) && c.bid_uuid == id);
      if VerifiedBy(rest, id) {
        var i :| 0 <= i < |rest| && Accepted(rest[i]) && rest[i].bid_uuid == id;
        assert calls[i + 1] == rest[i];
      }
      if VerifiedBy(calls, id) {
        var i :| 0 <= i < |calls| && Accepted(calls[i]) && calls[i].bid_uuid == id;
        if i > 0 {
          assert rest[i - 1] == calls[i];
        }
      }
    }
  }

  /** The log after a run is the log before it followed by one event per accepted call. */
  lemma {:induction false} RunEvents(s: State, calls: seq<Call>)
    ensures Run(s, calls).events == s.events + Emitted(calls)
    decreases |calls|
  {
    if |calls| == 0 {
      assert s.events + [] == s.events;
    } else {
      var c := calls[0];
      var s1 := Apply(s, c).post;
      RunEvents(s1, calls[1..]);
      ApplyResult(s, c);
      var head := if Accepted(c) then [MatchVerified(c.bid_uuid, c.offer_uuid)] else [];
      assert s1.events == s.events + head;
      assert s.events + head + Emitted(calls[1..]) == s.events + (head + Emitted(calls[1..]));
    }
  }

  /** Each accepted call deposits exactly one event, so the log grows by their number. */
  lemma {:induction false} EmittedCountsAccepted(calls: seq<Call>)
    ensures |Emitted(calls)| == |set i | 0 <= i < |calls| && Accepted(calls[i])|
    ensures forall e :: e in Emitted(calls) ==> e.MatchVerified? && e.bid_uuid == e.offer_uuid
    decreases |calls|
  {
    if |calls| > 0 {
      var rest := calls[1..];
      EmittedCountsAccepted(rest);
      var tail := set i | 0 <= i < |rest| && Accepted(rest[i]);
      var shifted := set i | 1 <= i < |calls| && Accepted(calls[i]);
      var all := set i | 0 <= i < |calls| && Accepted(calls[i]);
      forall x | x in shifted
        ensures x in set i | i in tail :: i + 1
      {
        assert rest[x - 1] == calls[x];
        assert x - 1 in tail;
      }
      forall x | x in set i | i in tail :: i + 1
        ensures x in shifted
      {
        assert rest[x - 1] == calls[x];
      }
      assert shifted == set i | i in tail :: i + 1;
      ShiftedCard(tail);
      if Accepted(calls[0]) {
        assert all == {0} + shifted;
      } else {
        assert all == shifted;
      }
    }
  }

  /** Adding one to every element of a set of indices keeps its size. */
  lemma {:induction false} ShiftedCard(xs: set<int>)
    ensures |set i | i in xs :: i + 1| == |xs|
    decreases |xs|
  {
    var image := set i | i in xs :: i + 1;
    if xs == {} {
      assert image == {};
    } else {
      // A non-empty set has an element; stated explicitly so that the `:|` below has a witness.
      assert exists x :: x in xs by {
        if forall x :: x !in xs {
          assert false;
        }
      }
      var x :| x in xs;
      var rest := xs - {x};
      ShiftedCard(rest);
      var restImage := set i | i in rest :: i + 1;
      forall y | y in image
        ensures y in restImage + {x + 1}
      {
        if y != x + 1 {
          assert y - 1 in rest;
        }
      }
      assert image == restImage + {x + 1};
    }
  }

  /** A run keeps the registry and the log in agreement. */
  lemma {:induction false} RunPreservesAudit(s: State, calls: seq<Call>)
    requires Audited(s)
    ensures Audited(Run(s, calls))
    decreases |calls|
  {
    if |calls| > 0 {
      ApplyPreservesAudit(s, calls[0]);
      RunPreservesAudit(Apply(s, calls[0]).post, calls[1..]);
    }
  }

  /** Every reachable state keeps the registry and the log in agreement. */
  lemma FromGenesisAudited(calls: seq<Call>)
    ensures Audited(Run(Genesis, calls))
  {
    RunPreservesAudit(Genesis, calls);
  }

  /**
   The registry a run leaves does not depend on the order of its calls: any
   reordering of the same calls reads the same for every trade id.
   */
  lemma OrderIndependent(s: State, calls: seq<Call>, calls': seq<Call>, id: u32)
    requires multiset(calls) == multiset(calls')
    ensures Verified(Run(s, calls), id) == Verified(Run(s, calls'), id)
  {
    RunRegistry(s, calls, id);
    RunRegistry(s, calls', id);
    if VerifiedBy(calls, id) {
      var i :| 0 <= i < |calls| && Accepted(calls[i]) && calls[i].bid_uuid == id;
      assert calls[i] in multiset(calls');
      var j :| 0 <= j < |calls'| && calls'[j] == calls[i];
    }
    if VerifiedBy(calls', id) {
      var j :| 0 <= j < |calls'| && Accepted(calls'[j]) && calls'[j].bid_uuid == id;
      assert calls'[j] in multiset(calls);
      var i :| 0 <= i < |calls| && calls[i] == calls'[j];
    }
  }

  /** Calls for other trade ids never change how trade `id` reads. */
  lemma {:induction false} OtherIdsIndependent(s: State, calls: seq<Call>, id: u32)
    requires forall i :: 0 <= i < |calls| ==> calls[i].bid_uuid != id
    ensures Verified(Run(s, calls), id) == Verified(s, id)
  {
    RunRegistry(s, calls, id);
  }
}
