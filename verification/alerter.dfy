/**
 The record-by-record fold of `SatelliteAlerter.main` as a pure state
 machine. One call of `Step` is one pass of the read loop for a line whose
 timestamp is valid; `Run` is the whole loop followed by the flush at end
 of input.
 */
module Alerter {
  import opened JavaNumbers
  import opened Telemetry

  /** The pair of byte counters kept per satellite (indices RED_LOW_COUNTER and RED_HI_COUNTER). */
  datatype Counters = Counters(low: Byte, high: Byte)

  /** Key of the alert map: the pair (satellite id, severity). */
  datatype AlertKey = AlertKey(satelliteId: int, severity: Severity)

  /** Value of the alert map: the triggering line's component field and timestamp. */
  datatype Payload = Payload(component: string, timestamp: int)

  /** One JSON object of the output array. */
  datatype AlertEntry = AlertEntry(satelliteId: int, severity: string, component: string, timestamp: int)

  /**
   The loop's variables: the window bounds, the counter map, the alert map,
   the output array (which the source never clears) and the arrays printed
   so far. The order of objects within an array is not modelled, so both
   are multisets.
   */
  datatype State = State(
    start: Instant,
    end: Instant,
    counts: map<int, Counters>,
    alerts: map<AlertKey, Payload>,
    outputArray: multiset<AlertEntry>,
    printed: seq<multiset<AlertEntry>>)

  /** The state before the first line (line 81 and the empty maps of 74-78). */
  const Init: State := State(Max, Min, map[], map[], multiset{}, [])

  /** Line 125: the window bounds are still in the order of the MAX/MIN
      sentinels they start from; an opened window never is. */
  function AwaitingFirstRecord(s: State): (b: bool)
    ensures s.start == Max && s.end == Min ==> b
    ensures s.start.At? && s.end.At? && s.start.nanos <= s.end.nanos ==> !b
  {
    IsAfter(s.start, s.end)
  }

  /** The invariant every state reached from `Init` satisfies: nothing is
      counted before the window opens, an open window is five minutes long,
      and nothing has been printed. */
  predicate Consistent(s: State)
  {
    && (AwaitingFirstRecord(s) ==> s.start == Max && s.end == Min && s.counts == map[] && s.alerts == map[])
    && (!AwaitingFirstRecord(s) ==> s.start.At? && s.end == At(s.start.nanos + IntervalWindow))
    && s.printed == []
    && s.outputArray == multiset{}
  }

  /** The JSON object printed for one alert (lines 131-135 and 225-229):
      the satellite of the key, the severity's label, the payload's fields. */
  function AlertObject(k: AlertKey, p: Payload): (e: AlertEntry)
    ensures e.satelliteId == k.satelliteId && e.component == p.component && e.timestamp == p.timestamp
    ensures e.severity == "RED LOW" <==> k.severity == RedLow
    ensures e.severity == "RED HIGH" <==> k.severity == RedHigh
  {
    AlertEntry(k.satelliteId, SeverityLabel(k.severity), p.component, p.timestamp)
  }

  /** Distinct alerts print distinct objects: the object names its key. */
  lemma AlertObjectInjective(k1: AlertKey, p1: Payload, k2: AlertKey, p2: Payload)
    ensures AlertObject(k1, p1) == AlertObject(k2, p2) ==> k1 == k2 && p1 == p2
  {
  }

  /** The JSON objects for an alert map. */
  function Entries(alerts: map<AlertKey, Payload>): (es: set<AlertEntry>)
    ensures forall k :: k in alerts ==> AlertObject(k, alerts[k]) in es
    ensures forall e :: e in es ==> exists k :: k in alerts && e == AlertObject(k, alerts[k])
    ensures |es| == 0 <==> |alerts| == 0
  {
    set k | k in alerts :: AlertObject(k, alerts[k])
  }

  /** One object per alert: the map and its objects have the same size. */
  lemma {:induction false} EntriesCardinality(alerts: map<AlertKey, Payload>)
    ensures |Entries(alerts)| == |alerts|
    decreases |alerts|
  {
    if |alerts| != 0 {
      var k :| k in alerts;
      var rest := alerts - {k};
      EntriesCardinality(rest);
      var e := AlertObject(k, alerts[k]);
      forall e' | e' in Entries(rest)
        ensures e' != e
      {
        var k' :| k' in rest && e' == AlertObject(k', rest[k']);
        AlertObjectInjective(k', rest[k'], k, alerts[k]);
      }
      forall e' | e' in Entries(alerts)
        ensures e' in Entries(rest) + {e}
      {
        var k' :| k' in alerts && e' == AlertObject(k', alerts[k']);
        if k' != k {
          assert k' in rest && rest[k'] == alerts[k'];
        }
      }
      forall e' | e' in Entries(rest)
        ensures e' in Entries(alerts)
      {
        var k' :| k' in rest && e' == AlertObject(k', rest[k']);
        assert k' in alerts && rest[k'] == alerts[k'];
      }
      assert Entries(alerts) == Entries(rest) + {e};
    } else {
      assert Entries(alerts) == {};
    }
  }

  /**
   `r` has printed exactly one array more than `s`: the output array of `s`,
   all of it kept, with one object added for each alert of `s`, and nothing
   else.
   */
  ghost predicate PrintedAlertsOnce(s: State, r: State)
  {
    && |r.printed| == |s.printed| + 1
    && r.printed[..|s.printed|] == s.printed
    && s.outputArray <= r.printed[|s.printed|]
    && (forall k :: k in s.alerts ==>
          r.printed[|s.printed|][AlertObject(k, s.alerts[k])] == s.outputArray[AlertObject(k, s.alerts[k])] + 1)
    && (forall e :: e in r.printed[|s.printed|] ==>
          e in s.outputArray || exists k :: k in s.alerts && e == AlertObject(k, s.alerts[k]))
    && |r.printed[|s.printed|]| == |s.outputArray| + |s.alerts|
  }

  /** A sub-multiset of the same size is the whole multiset. */
  lemma SubMultisetOfSameSize<T>(a: multiset<T>, b: multiset<T>)
    requires a <= b && |a| == |b|
    ensures a == b
  {
    var surplus := b - a;
    assert a + surplus == b;
  }

  /** `PrintedAlertsOnce` pins the printed array down completely: it is the
      earlier output array with the alerts' objects added. */
  lemma PrintedAlertsOnceDeterminesArray(s: State, r: State)
    requires PrintedAlertsOnce(s, r)
    ensures r.printed[|s.printed|] == s.outputArray + multiset(Entries(s.alerts))
  {
    var printed := r.printed[|s.printed|];
    var objects := multiset(Entries(s.alerts));
    var extra := printed - s.outputArray;
    assert printed == s.outputArray + extra;
    forall e | e in Entries(s.alerts)
      ensures objects[e] <= extra[e]
    {
      var k :| k in s.alerts && e == AlertObject(k, s.alerts[k]);
      assert printed[e] == s.outputArray[e] + 1;
    }
    assert objects <= extra;
    EntriesCardinality(s.alerts);
    assert |objects| == |extra|;
    SubMultisetOfSameSize(objects, extra);
  }

  /** Add the alert map's objects to the output array and print it
      (lines 130-138 and 224-232). The output array keeps what it printed. */
  function Emit(s: State): (r: State)
    ensures PrintedAlertsOnce(s, r)
    ensures r.outputArray == r.printed[|s.printed|]
    ensures r.start == s.start && r.end == s.end && r.counts == s.counts && r.alerts == s.alerts
  {
    EntriesCardinality(s.alerts);
    var out := s.outputArray + multiset(Entries(s.alerts));
    s.(outputArray := out, printed := s.printed + [out])
  }

  /**
   Lines 125-143: when the bounds are still the sentinels, open the window
   [t, t + 5 min) and, if alerts are pending, print them and clear both maps.
   */
  function OpenWindow(s: State, t: int): (w: State)
    ensures AwaitingFirstRecord(s) ==> w.start == At(t) && w.end == At(t + IntervalWindow)
    ensures !AwaitingFirstRecord(w)
    ensures !AwaitingFirstRecord(s) ==> w == s
    ensures s.alerts == map[] ==> w.printed == s.printed && w.outputArray == s.outputArray
    ensures s.alerts == map[] && s.counts == map[] ==> w.counts == map[] && w.alerts == map[]
  {
    if AwaitingFirstRecord(s) then
      var started := s.(start := At(t), end := At(t + IntervalWindow));
      if |started.alerts| != 0 then
        Emit(started).(counts := map[], alerts := map[])
      else
        started
    else
      s
  }

  /** Line 145: the instant lies in [start, end). Before the window opens
      (start is still MAX) no instant does. */
  function InWindow(s: State, t: int): (b: bool)
    ensures s.start.At? && s.end.At? && s.start.nanos < s.end.nanos ==> (b <==> s.start.nanos <= t < s.end.nanos)
    ensures s.start == Max ==> !b
  {
    At(t) == s.start || (IsAfter(At(t), s.start) && IsBefore(At(t), s.end))
  }

  /** The record is counted: it is in the window and its numeric fields
      parsed (lines 145-157). */
  function Admits(s: State, r: Record): (b: bool)
    ensures r.reading.None? ==> !b
    ensures s.start == Max ==> !b
    ensures r.reading.Some? ==> (b <==> InWindow(s, r.timestamp))
  {
    InWindow(s, r.timestamp) && r.reading.Some?
  }

  /** The counter map after one reading, with the two flags the source
      calls checkVoltage and checkThermo: an EXISTING counter was incremented. */
  datatype CountUpdate = CountUpdate(counts: map<int, Counters>, lowIncremented: bool, highIncremented: bool)

  /**
   Lines 163-188: a low breach increments the satellite's low counter, a
   high breach its high counter, independently. A satellite without an
   entry gets a fresh pair with the breached counter at one, and that first
   breach does not set the flag.
   */
  function CountBreaches(counts: map<int, Counters>, n: Reading): (u: CountUpdate)
    ensures forall id :: id != n.satelliteId ==>
      (id in u.counts <==> id in counts) && (id in counts ==> u.counts[id] == counts[id])
    ensures n.satelliteId in u.counts <==> n.satelliteId in counts || IsLowBreach(n) || IsHighBreach(n)
    ensures !IsLowBreach(n) && !IsHighBreach(n) ==> u.counts == counts
    ensures n.satelliteId in counts ==>
      u.counts[n.satelliteId] == Counters(
        if IsLowBreach(n) then ByteIncrement(counts[n.satelliteId].low) else counts[n.satelliteId].low,
        if IsHighBreach(n) then ByteIncrement(counts[n.satelliteId].high) else counts[n.satelliteId].high)
    ensures n.satelliteId !in counts && (IsLowBreach(n) || IsHighBreach(n)) ==>
      u.counts[n.satelliteId] == Counters(if IsLowBreach(n) then 1 else 0, if IsHighBreach(n) then 1 else 0)
    ensures u.lowIncremented <==> IsLowBreach(n) && n.satelliteId in counts
    ensures u.highIncremented <==> IsHighBreach(n) && (n.satelliteId in counts || IsLowBreach(n))
  {
    var id := n.satelliteId;
    var afterLow :=
      if IsLowBreach(n) then
        if id in counts then
          CountUpdate(counts[id := counts[id].(low := ByteIncrement(counts[id].low))], true, false)
        else
          CountUpdate(counts[id := Counters(FirstHit, BeforeFirstHit)], false, false)
      else
        CountUpdate(counts, false, false);
    if IsHighBreach(n) then
      var c := afterLow.counts;
      if id in c then
        afterLow.(counts := c[id := c[id].(high := ByteIncrement(c[id].high))], highIncremented := true)
      else
        afterLow.(counts := c[id := Counters(BeforeFirstHit, FirstHit)])
    else
      afterLow
  }

  /**
   Lines 190-216: register a RED LOW alert for the satellite when its low
   counter was incremented to exactly the threshold and no RED LOW alert is
   registered yet; RED HIGH likewise. An existing alert is never replaced.
   */
  function RegisterAlerts(alerts: map<AlertKey, Payload>, u: CountUpdate, id: int, p: Payload): (a: map<AlertKey, Payload>)
    ensures forall k :: k in alerts ==> k in a && a[k] == alerts[k]
    ensures forall k :: k in a && k !in alerts ==> k.satelliteId == id && a[k] == p
    ensures AlertKey(id, RedLow) in a && AlertKey(id, RedLow) !in alerts <==>
      AlertKey(id, RedLow) !in alerts && u.lowIncremented && id in u.counts && u.counts[id].low == AlertTriggerThreshold
    ensures AlertKey(id, RedHigh) in a && AlertKey(id, RedHigh) !in alerts <==>
      AlertKey(id, RedHigh) !in alerts && u.highIncremented && id in u.counts && u.counts[id].high == AlertTriggerThreshold
  {
    var lowKey := AlertKey(id, RedLow);
    var highKey := AlertKey(id, RedHigh);
    var lowCount: Byte := if id in u.counts then u.counts[id].low else ByteMin;
    var highCount: Byte := if id in u.counts then u.counts[id].high else ByteMin;
    var addLow := id in u.counts && lowCount == AlertTriggerThreshold && u.lowIncremented && lowKey !in alerts;
    var addHigh := id in u.counts && highCount == AlertTriggerThreshold && u.highIncremented && highKey !in alerts;
    var a1 := if lowCount == AlertTriggerThreshold && addLow then alerts[lowKey := p] else alerts;
    if highCount == AlertTriggerThreshold && addHigh then a1[highKey := p] else a1
  }

  /** Lines 145-218: count an admitted record and register any alert it triggers. */
  function Tally(w: State, r: Record): (s: State)
    ensures s.start == w.start && s.end == w.end
    ensures s.printed == w.printed && s.outputArray == w.outputArray
    ensures !Admits(w, r) ==> s == w
  {
    if !Admits(w, r) then w
    else
      var n := r.reading.value;
      var u := CountBreaches(w.counts, n);
      w.(counts := u.counts, alerts := RegisterAlerts(w.alerts, u, n.satelliteId, Payload(r.component, r.timestamp)))
  }

  /**
   One pass of the read loop for a record whose timestamp is valid.
   From a consistent state: the window is opened by the first record and
   never moves, out-of-window and unparseable records change nothing,
   only the record's satellite is touched, counters move independently,
   an alert appears exactly when a counter is incremented to three, and no
   alert is ever replaced or removed.
   */
  function Step(s: State, r: Record): (s': State)
    ensures Consistent(s) ==> Consistent(s')
    ensures AwaitingFirstRecord(s) ==> s'.start == At(r.timestamp) && s'.end == At(r.timestamp + IntervalWindow)
    ensures !AwaitingFirstRecord(s) ==> s'.start == s.start && s'.end == s.end
    ensures Consistent(s) && !Admits(s', r) ==> s'.counts == s.counts && s'.alerts == s.alerts
    ensures Consistent(s) ==> forall k :: k in s.alerts ==> k in s'.alerts && s'.alerts[k] == s.alerts[k]
    ensures Consistent(s) && r.reading.Some? ==>
      forall id :: id != r.reading.value.satelliteId ==>
        (id in s'.counts <==> id in s.counts) && (id in s.counts ==> s'.counts[id] == s.counts[id])
    ensures Consistent(s) && r.reading.Some? ==>
      forall k :: k in s'.alerts && k !in s.alerts ==>
        k.satelliteId == r.reading.value.satelliteId && s'.alerts[k] == Payload(r.component, r.timestamp)
    ensures Consistent(s) && Admits(s', r) ==>
      var n := r.reading.value;
      var id := n.satelliteId;
      && (id in s'.counts <==> id in s.counts || IsLowBreach(n) || IsHighBreach(n))
      && (id in s.counts ==> s'.counts[id] == Counters(
            if IsLowBreach(n) then ByteIncrement(s.counts[id].low) else s.counts[id].low,
            if IsHighBreach(n) then ByteIncrement(s.counts[id].high) else s.counts[id].high))
      && (id !in s.counts && (IsLowBreach(n) || IsHighBreach(n)) ==>
            s'.counts[id] == Counters(if IsLowBreach(n) then 1 else 0, if IsHighBreach(n) then 1 else 0))
      && (AlertKey(id, RedLow) in s'.alerts && AlertKey(id, RedLow) !in s.alerts <==>
            AlertKey(id, RedLow) !in s.alerts && IsLowBreach(n) && id in s.counts
            && ByteIncrement(s.counts[id].low) == AlertTriggerThreshold)
      && (AlertKey(id, RedHigh) in s'.alerts && AlertKey(id, RedHigh) !in s.alerts <==>
            AlertKey(id, RedHigh) !in s.alerts && IsHighBreach(n) && id in s.counts
            && ByteIncrement(s.counts[id].high) == AlertTriggerThreshold)
  {
    Tally(OpenWindow(s, r.timestamp), r)
  }

  /** The loop over a sequence of records, as a left fold. */
  function Process(rs: seq<Record>): (s: State)
    ensures Consistent(s)
    ensures |rs| == 0 <==> AwaitingFirstRecord(s)
    ensures |rs| > 0 ==> s.start == At(rs[0].timestamp) && s.end == At(rs[0].timestamp + IntervalWindow)
  {
    if |rs| == 0 then Init else Step(Process(rs[..|rs| - 1]), rs[|rs| - 1])
  }

  /** Lines 222-233: after the last line, print the alerts if there are any. */
  function FinalFlush(s: State): (f: State)
    ensures s.alerts == map[] ==> f == s
    ensures s.alerts != map[] ==> PrintedAlertsOnce(s, f)
    ensures f.start == s.start && f.end == s.end && f.counts == s.counts && f.alerts == s.alerts
  {
    if |s.alerts| != 0 then Emit(s) else s
  }

  /**
   The arrays printed by a run: none when no alert was raised, otherwise
   exactly one, at end of input, holding one object per alert key.
   */
  function Run(rs: seq<Record>): (printed: seq<multiset<AlertEntry>>)
    ensures |printed| <= 1
    ensures |printed| == 1 <==> Process(rs).alerts != map[]
    ensures |printed| == 1 ==> printed[0] == multiset(Entries(Process(rs).alerts))
  {
    FinalFlush(Process(rs)).printed
  }

  /** The read loop written as a loop over the records. */
  method RunAlerter(rs: seq<Record>) returns (printed: seq<multiset<AlertEntry>>)
    ensures |printed| <= 1
    ensures printed == Run(rs)
  {
    var s := Init;
    var i := 0;
    while i < |rs|
      invariant 0 <= i <= |rs|
      invariant s == Process(rs[..i])
    {
      assert rs[..i + 1][..i] == rs[..i];
      s := Step(s, rs[i]);
      i := i + 1;
    }
    assert rs[..|rs|] == rs;
    printed := FinalFlush(s).printed;
  }
}
