/** The lifetime traffic ledger (`get_zivpn_traffic`, and the same algorithm for Xray and V2Ray):
    two meta fields turn a raw counter that resets into a cumulative one. */
module Ledger {

  datatype Field = Missing | Value(n: nat)
  {
    /** `float(_meta_get(..) or "0")`. */
    function OrZero(): nat {
      if Value? then n else 0
    }
  }

  /** `used_total_zivpn` and `last_api_zivpn`. */
  datatype Ledger = Ledger(total: Field, last: Field)

  const EMPTY := Ledger(Missing, Missing)

  /** What one reading adds: the growth, or the whole reading after a drop. */
  function Growth(last: nat, raw: nat): nat {
    if raw >= last then raw - last else raw
  }

  /** `stored == 0 and raw > 0 and not _meta_get(..)`. */
  predicate FirstMeasure(l: Ledger, raw: nat) {
    l.total.OrZero() + Growth(l.last.OrZero(), raw) == 0 && raw > 0 && l.total.Missing?
  }

  function Poll(l: Ledger, raw: nat): Ledger {
    var growth := Growth(l.last.OrZero(), raw);
    var total := if growth > 0 then Value(l.total.OrZero() + growth) else l.total;
    Ledger(if FirstMeasure(l, raw) then Value(raw) else total, Value(raw))
  }

  /** What the call returns. */
  function Reading(l: Ledger, raw: nat): nat {
    var stored := Poll(l, raw).total.OrZero();
    if stored > 0 then if stored > raw then stored else raw else raw
  }

  /** `get_zivpn_traffic` on the two fields: what it leaves in them, and what it returns. */
  method ReadTraffic(l: Ledger, raw: nat) returns (now: Ledger, used: nat)
    ensures now == Poll(l, raw) && used == Reading(l, raw)
  {
    now := l;
    var stored := l.total.OrZero();
    var last := l.last.OrZero();
    if raw >= last {
      var delta := raw - last;
      if delta > 0 {
        stored := stored + delta;
        now := now.(total := Value(stored));
      }
    } else if raw > 0 {
      stored := stored + raw;
      now := now.(total := Value(stored));
    }
    now := now.(last := Value(raw));
    if stored == 0 && raw > 0 && now.total.Missing? {
      stored := raw;
      now := now.(total := Value(stored));
    }
    used := if stored > 0 then if stored > raw then stored else raw else raw;
  }

  /** Polling twice on one reading is polling once: a pass may read the counter again. */
  lemma PollIsIdempotent(l: Ledger, raw: nat)
    ensures Poll(Poll(l, raw), raw) == Poll(l, raw)
    ensures Reading(Poll(l, raw), raw) == Reading(l, raw)
  {
  }

  // ---- reachable ledgers ----

  function PollAll(l: Ledger, raws: seq<nat>): Ledger {
    if raws == [] then l else Poll(PollAll(l, raws[..|raws| - 1]), raws[|raws| - 1])
  }

  /** The sum of the increases observed from one reading to the next. */
  function Observed(raws: seq<nat>): nat {
    if raws == [] then 0
    else Observed(raws[..|raws| - 1])
         + Growth(if |raws| == 1 then 0 else raws[|raws| - 2], raws[|raws| - 1])
  }

  /** From a fresh account, whatever the readings: the total is the sum of the observed
      increases, and it is at least the last reading. */
  lemma {:induction false} TotalIsObserved(raws: seq<nat>)
    ensures var l := PollAll(EMPTY, raws);
            && l.total.OrZero() == Observed(raws)
            && l.last.OrZero() == (if raws == [] then 0 else raws[|raws| - 1])
            && l.last.OrZero() <= l.total.OrZero()
  {
    var n := |raws|;
    if n > 0 {
      TotalIsObserved(raws[..n - 1]);
      if n > 1 { assert raws[..n - 1][n - 2] == raws[n - 2]; }
    }
  }

  /** So the first-measure branch is dead, and the value returned, nominally the larger of the
      total and the reading, is the total itself. */
  lemma NextReadingIsTheTotal(raws: seq<nat>, raw: nat)
    ensures !FirstMeasure(PollAll(EMPTY, raws), raw)
    ensures Reading(PollAll(EMPTY, raws), raw) == Observed(raws + [raw])
  {
    TotalIsObserved(raws);
    TotalIsObserved(raws + [raw]);
    assert (raws + [raw])[..|raws|] == raws;
  }

  /** What the Xray and V2Ray versions return: the total without the maximum. */
  function ShortReading(l: Ledger, raw: nat): nat {
    var stored := Poll(l, raw).total.OrZero();
    if stored > 0 then stored else raw
  }

  /** The two returns differ only on a total below the reading, so never on a reachable ledger. */
  lemma BothReturnsAgree(raws: seq<nat>, raw: nat)
    ensures ShortReading(PollAll(EMPTY, raws), raw) == Reading(PollAll(EMPTY, raws), raw)
  {
    TotalIsObserved(raws);
  }

  // ---- against the traffic that really flowed ----

  datatype Event = Carry(bytes: nat) | Reset | Measure

  /** The counter beside the bytes it should stand for. `unseen` counts the bytes carried since
      the last poll, `wiped` says that a reset came in between. */
  datatype Meter = Meter(raw: nat, carried: nat, unseen: nat, wiped: bool, ledger: Ledger)

  const FRESH := Meter(0, 0, 0, false, EMPTY)

  function Happen(m: Meter, e: Event): Meter {
    match e
    case Carry(n) => m.(raw := m.raw + n, carried := m.carried + n, unseen := m.unseen + n)
    case Reset => m.(raw := 0, wiped := true)
    case Measure => m.(unseen := 0, wiped := false, ledger := Poll(m.ledger, m.raw))
  }

  function Run(m: Meter, events: seq<Event>): Meter {
    if events == [] then m else Happen(Run(m, events[..|events| - 1]), events[|events| - 1])
  }

  /** A poll misses nothing: no reset since the last one, or all the bytes since then came after
      the reset and the counter has not yet caught up with its old value. */
  predicate CleanPoll(m: Meter) {
    m.wiped ==> m.unseen == m.raw && (m.raw < m.ledger.last.OrZero() || m.ledger.last.OrZero() == 0)
  }

  predicate AllPollsClean(m: Meter, events: seq<Event>) {
    if events == [] then true
    else
      var n := |events| - 1;
      AllPollsClean(m, events[..n]) && (events[n].Measure? ==> CleanPoll(Run(m, events[..n])))
  }

  /** The accounting behind every reachable meter. */
  predicate Accounted(m: Meter) {
    && m.ledger.last.OrZero() <= m.ledger.total.OrZero()
    && m.ledger.total.OrZero() + m.unseen <= m.carried
    && (!m.wiped ==> m.raw == m.ledger.last.OrZero() + m.unseen)
    && (m.wiped ==> m.raw <= m.unseen)
  }

  /** Equality with the true total is lost by the first unclean poll and never regained. */
  lemma {:induction false} RunIsAccounted(events: seq<Event>)
    ensures var m := Run(FRESH, events);
            && Accounted(m)
            && (m.ledger.total.OrZero() + m.unseen == m.carried <==> AllPollsClean(FRESH, events))
  {
    if events != [] {
      RunIsAccounted(events[..|events| - 1]);
    }
  }

  /** The ledger never exceeds the traffic that flowed, and right after a poll it equals it
      exactly when every poll so far was clean. */
  lemma LedgerIsExactIff(events: seq<Event>)
    ensures Run(FRESH, events).ledger.total.OrZero() <= Run(FRESH, events).carried
    ensures var m := Run(FRESH, events + [Measure]);
            m.ledger.total.OrZero() == m.carried <==> AllPollsClean(FRESH, events + [Measure])
  {
    RunIsAccounted(events);
    RunIsAccounted(events + [Measure]);
    assert (events + [Measure])[..|events|] == events;
  }

  /** Every reset has a poll right before it and right after it. */
  predicate ResetsFlanked(events: seq<Event>) {
    forall i :: 0 <= i < |events| && events[i].Reset? ==>
      0 < i < |events| - 1 && events[i - 1].Measure? && events[i + 1].Measure?
  }

  /** The operator's rule: poll just before and just after each reset, and nothing is missed. */
  lemma {:induction false} FlankedResetsLoseNothing(events: seq<Event>)
    requires forall i :: 0 <= i < |events| && events[i].Reset? ==> 0 < i && events[i - 1].Measure?
    requires forall i :: 0 <= i < |events| - 1 && events[i].Reset? ==> events[i + 1].Measure?
    ensures AllPollsClean(FRESH, events)
    ensures var m := Run(FRESH, events);
            (events == [] || !events[|events| - 1].Reset? ==> !m.wiped)
            && (events != [] && events[|events| - 1].Measure? ==> m.unseen == 0)
            && (m.wiped ==> m.unseen == 0 && m.raw == 0)
  {
    if events != [] {
      var n := |events| - 1;
      FlankedResetsLoseNothing(events[..n]);
      if n > 0 { assert events[..n][n - 1] == events[n - 1]; }
    }
  }

  lemma FlankedLedgerIsExact(events: seq<Event>)
    requires ResetsFlanked(events + [Measure])
    ensures var m := Run(FRESH, events + [Measure]); m.ledger.total.OrZero() == m.carried
  {
    FlankedResetsLoseNothing(events + [Measure]);
    LedgerIsExactIff(events);
  }

  /** The total never goes down, whatever happens. */
  lemma {:induction false} TotalIsMonotone(m: Meter, events: seq<Event>)
    ensures m.ledger.total.OrZero() <= Run(m, events).ledger.total.OrZero()
  {
    if events != [] {
      TotalIsMonotone(m, events[..|events| - 1]);
    }
  }

  // ---- readings that are not the counter ----

  /** `_get_zivpn_raw` answers 0 when the state file cannot be read. Reading 0 and then the
      counter charges the counter again from zero: it is harmless exactly when the counter had
      not been read above zero yet. */
  lemma FailedReadingIsHarmlessIff(l: Ledger, raw: nat)
    requires l.last.OrZero() <= raw && l.last.OrZero() <= l.total.OrZero()
    ensures Poll(Poll(l, 0), raw).total.OrZero() == Poll(l, raw).total.OrZero() + l.last.OrZero()
    ensures Poll(Poll(l, 0), raw).total.OrZero() == Poll(l, raw).total.OrZero() <==> l.last.OrZero() == 0
  {
  }

  /** A state file restored from an older copy reads lower without any traffic. The ledger takes
      it for a reset and charges the old bytes again, unless the copy holds none of them. */
  lemma RestoredCounterIsHarmlessIff(l: Ledger, older: nat)
    requires older < l.last.OrZero()
    ensures Poll(l, older).total.OrZero() == l.total.OrZero() + older
    ensures Poll(l, older).total.OrZero() == l.total.OrZero() <==> older == 0
  {
  }
}
