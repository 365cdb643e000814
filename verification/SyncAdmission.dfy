/** Admission on the synchronous path: a fresh order number per attempt, the gate's decision, and on a replay
    the first attempt's time read back from the first attempt's number. Times are Unix milliseconds. */
module SyncAdmission {
  import opened Text
  import opened OrderNumbers
  import opened RedisSlot

  /** The business request that goes on to MySQL. */
  datatype Request = Request(orderNo: string, replayed: bool, reservedAt: int)

  datatype Admission = Go(request: Request) | Stop(decision: Decision) | Invalid

  function ReserveSync(s: Slot, user: nat, item: nat, now: int, random: Random): (r: (Slot, Admission)) {
    if user == 0 || item == 0 || NewOrderNo(now, random).None? then (s, Invalid)
    else
      var candidate := NewOrderNo(now, random).value;
      var (s', d) := Reserve(s, user, now, candidate);
      match d
      case Reserved(o) => (s', Go(Request(o, false, now)))
      case AlreadyReserved(o) =>
        var first := ReservedAtFromOrderNo(o);
        (s', Go(Request(o, true, if first.Some? then first.value else now)))
      case _ => (s', Stop(d))
  }

  /** A repeated attempt during the sale rebuilds the first business request: the same order number, and the
      same reservation time exactly unless the first clock was at or before 1970, when the time of the
      repetition goes out instead. It changes nothing in Redis. */
  lemma ReplayRebuildsRequest(s: Slot, user: nat, item: nat, now: int, random: Random, later: int, other: Random)
    requires FitsInt64(now) && later != ZERO_TIME && ReserveSync(s, user, item, now, random).1.Go?
    requires !ReserveSync(s, user, item, now, random).1.request.replayed
    ensures var (s', first) := ReserveSync(s, user, item, now, random);
            && NewOrderNo(now, random) == Some(first.request.orderNo) && first.request.reservedAt == now
            && ReserveSync(s', user, item, later, other) ==
                 (s', if OnSale(s'.state, later) then Go(Request(first.request.orderNo, true, if 0 < now then now else later)) else Stop(Unavailable))
  {
    var o := NewOrderNo(now, random).value;
    OrderNoRoundTrip(now, random);
    FirstNumberComesBack(s, user, now, o, item, later, NewOrderNo(later, other).value);
    hide NewOrderNo;
    hide ReservedAtFromOrderNo;
  }

  /** A newcomer goes on to MySQL exactly when the hash sells and a unit is left, with a new number and this time; what
      the gate is not even asked is a request without user, item or time. */
  lemma NewcomerGoesOn(s: Slot, user: nat, item: nat, now: int, random: Random)
    requires user !in s.buyers
    ensures var (s', r) := ReserveSync(s, user, item, now, random); var valid := user != 0 && item != 0 && now != ZERO_TIME;
            && (r.Invalid? <==> !valid)
            && (r.Go? <==> valid && Selling(s.state, now) && 0 < s.state.stock.value)
            && (r.Go? ==> r.request == Request(NewOrderNo(now, random).value, false, now) && user in s'.buyers && s'.buyers[user] == r.request.orderNo)
            && (r == Stop(SoldOut) <==> valid && Selling(s.state, now) && s.state.stock.value <= 0)
            && (!r.Go? ==> s' == s)
  {
    if now != ZERO_TIME {
      ReserveExactly(s, user, now, NewOrderNo(now, random).value);
    }
    hide Reserve;
    hide NewOrderNo;
    hide ReservedAtFromOrderNo;
  }
}
