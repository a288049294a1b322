/**
 Properties of the whole fold that follow from the per-record contract of
 `Alerter.Step`: alerts are never replaced or removed while the input is
 read, and a record outside the window or with unparseable numbers leaves
 the counters and alerts as they were.
 */
module FoldProperties {
  import opened Telemetry
  import opened Alerter
  import opened Reference

  /** Every alert registered after the first `i` records is still there,
      with the same payload, after all of them. */
  lemma {:induction false} ProcessAlertsOnlyGrow(rs: seq<Record>, i: nat)
    requires i <= |rs|
    ensures forall k :: k in Process(rs[..i]).alerts ==>
      k in Process(rs).alerts && Process(rs).alerts[k] == Process(rs[..i]).alerts[k]
  {
    if i < |rs| {
      var pre := rs[..|rs| - 1];
      assert pre[..i] == rs[..i];
      ProcessAlertsOnlyGrow(pre, i);
    } else {
      assert rs[..i] == rs;
    }
  }

  /** Appending a record that is not admitted to the window opened by the
      first record changes neither counters nor alerts. */
  lemma IgnoredRecordChangesNothing(rs: seq<Record>, r: Record)
    requires |rs| > 0
    requires !Admitted(r, rs[0].timestamp)
    ensures Process(rs + [r]).counts == Process(rs).counts
    ensures Process(rs + [r]).alerts == Process(rs).alerts
  {
    assert (rs + [r])[..|rs|] == rs;
    assert (rs + [r])[0] == rs[0];
  }

  /** Once a key is alerted, no later record, however many breaches follow
      (the byte counter comes back to three after 256 more), replaces it. */
  lemma AlertIsNeverReplaced(rs: seq<Record>, more: seq<Record>, k: AlertKey)
    requires k in Process(rs).alerts
    ensures k in Process(rs + more).alerts
    ensures Process(rs + more).alerts[k] == Process(rs).alerts[k]
  {
    assert (rs + more)[..|rs|] == rs;
    ProcessAlertsOnlyGrow(rs + more, |rs|);
  }
}
