/**
 An independent description of what the alerter computes, stated over the
 whole input sequence rather than record by record: the window is fixed by
 the first record; a satellite's counter holds the number of its admitted
 breaches (as a wrapping byte); an alert for (satellite, severity) exists
 exactly when that satellite has had at least three such breaches, and it
 carries the third one. The theorems connect this description with the
 fold of `Alerter.Process` and with the output of `Alerter.Run`.
 */
module Reference {
  import opened JavaNumbers
  import opened Telemetry
  import opened Alerter

  /** The record lies in the window [t0, t0 + 5 min) and its numeric fields parsed. */
  predicate Admitted(r: Record, t0: int)
  {
    r.reading.Some? && t0 <= r.timestamp < t0 + IntervalWindow
  }

  /** The record is an admitted breach of `sev` by satellite `id`. */
  predicate CountsToward(r: Record, t0: int, id: int, sev: Severity)
  {
    Admitted(r, t0) && r.reading.value.satelliteId == id && IsBreach(r.reading.value, sev)
  }

  /** How many records of `rs` are admitted breaches of `sev` by `id`. */
  function BreachCount(rs: seq<Record>, t0: int, id: int, sev: Severity): (c: nat)
    ensures c <= |rs|
  {
    if |rs| == 0 then 0
    else BreachCount(rs[..|rs| - 1], t0, id, sev) + (if CountsToward(rs[|rs| - 1], t0, id, sev) then 1 else 0)
  }

  /** Breach counts only grow as more of the input is read. */
  lemma {:induction false} BreachCountMonotone(rs: seq<Record>, i: nat, t0: int, id: int, sev: Severity)
    requires i <= |rs|
    ensures BreachCount(rs[..i], t0, id, sev) <= BreachCount(rs, t0, id, sev)
    decreases |rs|
  {
    if i < |rs| {
      var pre := rs[..|rs| - 1];
      assert pre[..i] == rs[..i];
      BreachCountMonotone(pre, i, t0, id, sev);
    } else {
      assert rs[..i] == rs;
    }
  }

  /** The payload of the record at which the breach count of (`id`, `sev`)
      first reached the trigger threshold, if it ever did. */
  function ThirdBreach(rs: seq<Record>, t0: int, id: int, sev: Severity): (p: Option<Payload>)
    ensures p.Some? <==> BreachCount(rs, t0, id, sev) >= AlertTriggerThreshold
  {
    if |rs| == 0 then None
    else
      var earlier := ThirdBreach(rs[..|rs| - 1], t0, id, sev);
      var last := rs[|rs| - 1];
      if earlier.Some? then earlier
      else if CountsToward(last, t0, id, sev) && BreachCount(rs, t0, id, sev) == AlertTriggerThreshold then
        Some(Payload(last.component, last.timestamp))
      else None
  }

  /** The alert the whole input should raise for a key: the window starts at the first record. */
  function ReferenceAlert(rs: seq<Record>, k: AlertKey): (p: Option<Payload>)
    ensures |rs| == 0 ==> p == None
  {
    if |rs| == 0 then None else ThirdBreach(rs, rs[0].timestamp, k.satelliteId, k.severity)
  }

  /** The counters and alerts of `s` are those the reference assigns to `rs`
      for the window starting at `t0`. */
  ghost predicate MatchesReference(s: State, rs: seq<Record>, t0: int)
  {
    && (forall id :: id in s.counts <==> BreachCount(rs, t0, id, RedLow) + BreachCount(rs, t0, id, RedHigh) > 0)
    && (forall id :: id in s.counts ==>
          s.counts[id] == Counters(ByteOfCount(BreachCount(rs, t0, id, RedLow)), ByteOfCount(BreachCount(rs, t0, id, RedHigh))))
    && (forall k :: k in s.alerts <==> ThirdBreach(rs, t0, k.satelliteId, k.severity).Some?)
    && (forall k :: k in s.alerts ==> ThirdBreach(rs, t0, k.satelliteId, k.severity) == Some(s.alerts[k]))
  }

  lemma BreachCountSnoc(pre: seq<Record>, r: Record, t0: int, id: int, sev: Severity)
    ensures BreachCount(pre + [r], t0, id, sev) == BreachCount(pre, t0, id, sev) + (if CountsToward(r, t0, id, sev) then 1 else 0)
    ensures ThirdBreach(pre + [r], t0, id, sev) ==
      if ThirdBreach(pre, t0, id, sev).Some? then ThirdBreach(pre, t0, id, sev)
      else if CountsToward(r, t0, id, sev) && BreachCount(pre, t0, id, sev) + 1 == AlertTriggerThreshold then
        Some(Payload(r.component, r.timestamp))
      else None
  {
    assert (pre + [r])[..|pre|] == pre;
  }

  /** One step keeps one satellite's counters in agreement with the reference. */
  lemma StepCountsMatch(s: State, pre: seq<Record>, r: Record, t0: int, id: int)
    requires Consistent(s)
    requires Step(s, r).start == At(t0) && Step(s, r).end == At(t0 + IntervalWindow)
    requires id in s.counts <==> BreachCount(pre, t0, id, RedLow) + BreachCount(pre, t0, id, RedHigh) > 0
    requires id in s.counts ==>
      s.counts[id] == Counters(ByteOfCount(BreachCount(pre, t0, id, RedLow)), ByteOfCount(BreachCount(pre, t0, id, RedHigh)))
    ensures id in Step(s, r).counts <==> BreachCount(pre + [r], t0, id, RedLow) + BreachCount(pre + [r], t0, id, RedHigh) > 0
    ensures id in Step(s, r).counts ==>
      Step(s, r).counts[id] == Counters(ByteOfCount(BreachCount(pre + [r], t0, id, RedLow)), ByteOfCount(BreachCount(pre + [r], t0, id, RedHigh)))
  {
    var s' := Step(s, r);
    assert Admits(s', r) <==> Admitted(r, t0);
    BreachCountSnoc(pre, r, t0, id, RedLow);
    BreachCountSnoc(pre, r, t0, id, RedHigh);
    ByteIncrementOfCount(BreachCount(pre, t0, id, RedLow));
    ByteIncrementOfCount(BreachCount(pre, t0, id, RedHigh));
  }

  /** One step keeps one alert key in agreement with the reference. */
  lemma StepAlertMatches(s: State, pre: seq<Record>, r: Record, t0: int, k: AlertKey)
    requires Consistent(s)
    requires Step(s, r).start == At(t0) && Step(s, r).end == At(t0 + IntervalWindow)
    requires k.satelliteId in s.counts <==>
      BreachCount(pre, t0, k.satelliteId, RedLow) + BreachCount(pre, t0, k.satelliteId, RedHigh) > 0
    requires k.satelliteId in s.counts ==>
      s.counts[k.satelliteId] == Counters(
        ByteOfCount(BreachCount(pre, t0, k.satelliteId, RedLow)), ByteOfCount(BreachCount(pre, t0, k.satelliteId, RedHigh)))
    requires k in s.alerts <==> ThirdBreach(pre, t0, k.satelliteId, k.severity).Some?
    requires k in s.alerts ==> ThirdBreach(pre, t0, k.satelliteId, k.severity) == Some(s.alerts[k])
    ensures k in Step(s, r).alerts <==> ThirdBreach(pre + [r], t0, k.satelliteId, k.severity).Some?
    ensures k in Step(s, r).alerts ==> ThirdBreach(pre + [r], t0, k.satelliteId, k.severity) == Some(Step(s, r).alerts[k])
  {
    var s' := Step(s, r);
    var id := k.satelliteId;
    assert Admits(s', r) <==> Admitted(r, t0);
    BreachCountSnoc(pre, r, t0, id, k.severity);
    if Admitted(r, t0) && r.reading.value.satelliteId == id && k !in s.alerts {
      var low := BreachCount(pre, t0, id, RedLow);
      var high := BreachCount(pre, t0, id, RedHigh);
      ByteIncrementOfCount(low);
      ByteIncrementOfCount(high);
      match k.severity
      case RedLow =>
        assert k == AlertKey(id, RedLow);
      case RedHigh =>
        assert k == AlertKey(id, RedHigh);
    }
  }

  /** One step of the fold keeps the state in agreement with the reference. */
  lemma StepMatchesReference(s: State, pre: seq<Record>, r: Record, t0: int)
    requires Consistent(s)
    requires MatchesReference(s, pre, t0)
    requires Step(s, r).start == At(t0) && Step(s, r).end == At(t0 + IntervalWindow)
    ensures MatchesReference(Step(s, r), pre + [r], t0)
  {
    forall id
      ensures id in Step(s, r).counts <==> BreachCount(pre + [r], t0, id, RedLow) + BreachCount(pre + [r], t0, id, RedHigh) > 0
      ensures id in Step(s, r).counts ==>
        Step(s, r).counts[id] == Counters(ByteOfCount(BreachCount(pre + [r], t0, id, RedLow)), ByteOfCount(BreachCount(pre + [r], t0, id, RedHigh)))
    {
      StepCountsMatch(s, pre, r, t0, id);
    }
    forall k
      ensures k in Step(s, r).alerts <==> ThirdBreach(pre + [r], t0, k.satelliteId, k.severity).Some?
      ensures k in Step(s, r).alerts ==> ThirdBreach(pre + [r], t0, k.satelliteId, k.severity) == Some(Step(s, r).alerts[k])
    {
      StepAlertMatches(s, pre, r, t0, k);
    }
  }

  /**
   The fold agrees with the reference: after any non-empty input, the
   counters are the wrapped admitted-breach counts of the window opened by
   the first record, and the alerts are exactly the third breaches.
   */
  lemma {:induction false} ProcessMatchesReference(rs: seq<Record>)
    requires |rs| > 0
    ensures MatchesReference(Process(rs), rs, rs[0].timestamp)
  {
    var pre := rs[..|rs| - 1];
    var r := rs[|rs| - 1];
    assert pre + [r] == rs;
    if |pre| == 0 {
      StepMatchesReference(Init, pre, r, rs[0].timestamp);
    } else {
      ProcessMatchesReference(pre);
      assert pre[0] == rs[0];
      StepMatchesReference(Process(pre), pre, r, rs[0].timestamp);
    }
  }

  /** The third admitted breach is the one the alert carries: if record `i`
      brings the breach count to exactly three, the alert is its payload. */
  lemma {:induction false} ThirdBreachIsThirdReading(rs: seq<Record>, t0: int, id: int, sev: Severity, i: nat)
    requires i < |rs|
    requires CountsToward(rs[i], t0, id, sev)
    requires BreachCount(rs[..i + 1], t0, id, sev) == AlertTriggerThreshold
    ensures ThirdBreach(rs, t0, id, sev) == Some(Payload(rs[i].component, rs[i].timestamp))
  {
    var pre := rs[..|rs| - 1];
    if i == |rs| - 1 {
      assert rs[..i + 1] == rs;
    } else {
      assert pre[..i + 1] == rs[..i + 1];
      ThirdBreachIsThirdReading(pre, t0, id, sev, i);
    }
  }

  /** Whether the JSON object `e` is one the reference says the input raises. */
  ghost predicate Reported(rs: seq<Record>, e: AlertEntry)
  {
    || (e.severity == SeverityLabel(RedLow)
        && ReferenceAlert(rs, AlertKey(e.satelliteId, RedLow)) == Some(Payload(e.component, e.timestamp)))
    || (e.severity == SeverityLabel(RedHigh)
        && ReferenceAlert(rs, AlertKey(e.satelliteId, RedHigh)) == Some(Payload(e.component, e.timestamp)))
  }

  /**
   End to end: a run prints nothing when no key reached three breaches in
   the window, and otherwise prints a single array holding one object per
   key that did, carrying the third breach's component and timestamp.
   */
  lemma RunReportsReferenceAlerts(rs: seq<Record>)
    ensures Run(rs) == [] <==> forall k :: ReferenceAlert(rs, k).None?
    ensures |Run(rs)| == 1 ==> forall e :: e in Run(rs)[0] <==> Reported(rs, e)
    ensures |Run(rs)| == 1 ==> forall e :: Run(rs)[0][e] <= 1
  {
    var s := Process(rs);
    if |rs| == 0 {
      assert s == Init;
    } else {
      ProcessMatchesReference(rs);
      if Run(rs) == [] {
        assert s.alerts == map[];
      } else {
        var k :| k in s.alerts;
        assert ReferenceAlert(rs, k).Some?;
        var es := Entries(s.alerts);
        forall e | e in es
          ensures Reported(rs, e)
        {
          var k' :| k' in s.alerts && e == AlertObject(k', s.alerts[k']);
          assert ReferenceAlert(rs, k') == Some(s.alerts[k']);
          assert k' == AlertKey(e.satelliteId, k'.severity);
        }
        forall e | Reported(rs, e)
          ensures e in es
        {
          var sev := if e.severity == SeverityLabel(RedLow) && ReferenceAlert(rs, AlertKey(e.satelliteId, RedLow)) == Some(Payload(e.component, e.timestamp))
            then RedLow else RedHigh;
          var k' := AlertKey(e.satelliteId, sev);
          assert k' in s.alerts;
          assert e == AlertObject(k', s.alerts[k']);
        }
      }
    }
  }
}
