/**
 Worked inputs. Satellite 7 reports a battery voltage below its red low
 limit once a minute; satellite 3 reports a thermostat reading above its
 red high limit. Limits are 10 (low) and 100 (high) throughout.
 */
module Scenarios {
  import opened JavaNumbers
  import opened Telemetry
  import opened Alerter
  import opened Reference
  import opened FoldProperties

  const Minute: int := SecondsPerMinute * NanosPerSecond

  /** A line with low limit 10 and high limit 100. */
  function Line(t: int, id: int, raw: Double, component: string): Record
  {
    Record(t, Some(Reading(id, 100, 10, raw)), component)
  }

  const Low0: Record := Line(0, 7, Finite(5.0), "BATT")
  const Low1: Record := Line(Minute, 7, Finite(5.0), "BATT")
  const Low2: Record := Line(2 * Minute, 7, Finite(5.0), "BATT")
  const Low3: Record := Line(3 * Minute, 7, Finite(5.0), "BATT")

  lemma ProcessSnoc(rs: seq<Record>, r: Record)
    ensures Process(rs + [r]) == Step(Process(rs), r)
  {
    assert (rs + [r])[..|rs|] == rs;
  }

  lemma FirstLowBreach()
    ensures Process([Low0]).counts == map[7 := Counters(1, 0)]
    ensures Process([Low0]).alerts == map[]
  {
    ProcessSnoc([], Low0);
  }

  lemma SecondLowBreach()
    ensures Process([Low0, Low1]).counts == map[7 := Counters(2, 0)]
    ensures Process([Low0, Low1]).alerts == map[]
  {
    FirstLowBreach();
    ProcessSnoc([Low0], Low1);
    assert [Low0] + [Low1] == [Low0, Low1];
  }

  /** Three low readings at 00:00, 00:01 and 00:02 raise one RED LOW alert
      carrying the third reading. */
  lemma ThirdLowBreachAlerts()
    ensures Process([Low0, Low1, Low2]).counts == map[7 := Counters(3, 0)]
    ensures Process([Low0, Low1, Low2]).alerts == map[AlertKey(7, RedLow) := Payload("BATT", 2 * Minute)]
  {
    SecondLowBreach();
    ProcessSnoc([Low0, Low1], Low2);
    assert [Low0, Low1] + [Low2] == [Low0, Low1, Low2];
  }

  /** A fourth low reading at 00:03 raises nothing new. */
  lemma FourthLowBreachIsSilent()
    ensures Process([Low0, Low1, Low2, Low3]).alerts == map[AlertKey(7, RedLow) := Payload("BATT", 2 * Minute)]
  {
    ThirdLowBreachAlerts();
    ProcessSnoc([Low0, Low1, Low2], Low3);
    assert [Low0, Low1, Low2] + [Low3] == [Low0, Low1, Low2, Low3];
  }

  /** A run whose fold ends with a single alert prints that alert alone. */
  lemma RunWithOneAlert(rs: seq<Record>, k: AlertKey, p: Payload)
    requires Process(rs).alerts == map[k := p]
    ensures Run(rs) == [multiset{AlertEntry(k.satelliteId, SeverityLabel(k.severity), p.component, p.timestamp)}]
  {
    var e := AlertEntry(k.satelliteId, SeverityLabel(k.severity), p.component, p.timestamp);
    assert Entries(map[k := p]) == {e};
    assert multiset({e}) == multiset{e};
    assert k in Process(rs).alerts;
    assert |Run(rs)| == 1;
  }

  /** The run over the four readings prints one array with the single alert. */
  lemma FourLowBreachesPrintOneAlert()
    ensures Run([Low0, Low1, Low2, Low3]) == [multiset{AlertEntry(7, "RED LOW", "BATT", 2 * Minute)}]
  {
    FourthLowBreachIsSilent();
    RunWithOneAlert([Low0, Low1, Low2, Low3], AlertKey(7, RedLow), Payload("BATT", 2 * Minute));
  }

  const High6: Record := Line(6 * Minute, 3, Finite(150.0), "TSTAT")
  const High7: Record := Line(7 * Minute, 3, Finite(150.0), "TSTAT")
  const High8: Record := Line(8 * Minute, 3, Finite(150.0), "TSTAT")

  /** The window never rolls over: three high readings by satellite 3 from
      00:06 on, after the window [00:00, 00:05) opened by satellite 7's
      first reading, are ignored, so nothing is printed. */
  lemma LaterWindowIsNeverOpened()
    ensures Run([Low0, High6, High7, High8]) == []
  {
    FirstLowBreach();
    IgnoredRecordChangesNothing([Low0], High6);
    assert [Low0] + [High6] == [Low0, High6];
    IgnoredRecordChangesNothing([Low0, High6], High7);
    assert [Low0, High6] + [High7] == [Low0, High6, High7];
    IgnoredRecordChangesNothing([Low0, High6, High7], High8);
    assert [Low0, High6, High7] + [High8] == [Low0, High6, High7, High8];
  }

  /** A reading below the low limit AND above the high limit (inverted
      limits) increments both counters; a NaN reading increments neither. */
  lemma DoubleBreachAndNaN()
    ensures
      var both := Record(0, Some(Reading(5, 10, 100, Finite(50.0))), "X");
      var nan := Record(1, Some(Reading(6, 100, 10, NaN)), "Y");
      && Process([both]).counts == map[5 := Counters(1, 1)]
      && Process([both, nan]).counts == map[5 := Counters(1, 1)]
  {
    var both := Record(0, Some(Reading(5, 10, 100, Finite(50.0))), "X");
    var nan := Record(1, Some(Reading(6, 100, 10, NaN)), "Y");
    assert [both, nan][..1] == [both];
    assert Process([both]) == Step(Init, both);
  }
}
