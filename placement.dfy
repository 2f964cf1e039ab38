/**
 * Placement selector of the cluster service (`get_best_cluster`): one pass over
 * the hosts' utilisation records with a two-tier rule, after which a selection
 * that did not come from the under-threshold tier is discarded and the admin
 * is notified.  The CPU and memory thresholds are parameters.
 */
module Placement {
  import opened Wrappers

  /** One entry of the input dict, in the dict's iteration order: host id, CPU %, memory %. */
  datatype HostLoad = HostLoad(hostId: string, cpu: real, memory: real)

  /** The single entry `{hostId: {"best_cpu": .., "best_memory": ..}}` of a non-empty result. */
  datatype Best = Best(hostId: string, bestCpu: real, bestMemory: real)

  /**
   * The loop's state: `best` is None while best_cpu and best_memory are
   * still infinite, otherwise the host they were copied from.
   */
  datatype Scan = Scan(best: Option<HostLoad>, sendNotification: bool)

  predicate UnderThresholds(h: HostLoad, cpuThreshold: real, ramThreshold: real) {
    h.cpu < cpuThreshold && h.memory < ramThreshold
  }

  /** `h` sorts strictly before `b`: lower CPU, or equal CPU and lower memory. */
  predicate LexLess(h: HostLoad, b: HostLoad) {
    h.cpu < b.cpu || (h.cpu == b.cpu && h.memory < b.memory)
  }

  /** `x < bound` where a missing bound is +infinity. */
  predicate Below(x: real, bound: Option<real>) {
    bound.None? || x < bound.value
  }

  /** One iteration of the selection loop. */
  function Step(st: Scan, h: HostLoad, cpuThreshold: real, ramThreshold: real): Scan {
    var bestCpu := if st.best.Some? then Some(st.best.value.cpu) else None;
    var bestMemory := if st.best.Some? then Some(st.best.value.memory) else None;
    if UnderThresholds(h, cpuThreshold, ramThreshold) then
      if Below(h.cpu, bestCpu) || (bestCpu == Some(h.cpu) && Below(h.memory, bestMemory))
      then Scan(Some(h), false)
      else st
    else if Below(h.cpu, bestCpu) && Below(h.memory, bestMemory) then
      Scan(Some(h), true)
    else
      st
  }

  /** The loop's state after the hosts `hs`, taken in order. */
  function Run(hs: seq<HostLoad>, cpuThreshold: real, ramThreshold: real): Scan {
    if hs == [] then Scan(None, true)
    else Step(Run(hs[..|hs| - 1], cpuThreshold, ramThreshold), hs[|hs| - 1], cpuThreshold, ramThreshold)
  }

  /** What the function returns: the final reset turns a notifying state into `{}`. */
  function Outcome(st: Scan): Option<Best> {
    if st.sendNotification || st.best.None? then None
    else Some(Best(st.best.value.hostId, st.best.value.cpu, st.best.value.memory))
  }

  /**
   * `get_best_cluster(data)`.  `notifiedAdmin` is true exactly when
   * `send_notification_to_admin` is called (once).
   */
  method GetBestCluster(data: seq<HostLoad>, cpuThreshold: real, ramThreshold: real)
    returns (bestData: Option<Best>, notifiedAdmin: bool)
    ensures bestData == Outcome(Run(data, cpuThreshold, ramThreshold))
    ensures notifiedAdmin <==> bestData.None?
    ensures bestData.Some? ==> bestData.value.bestCpu < cpuThreshold && bestData.value.bestMemory < ramThreshold
  {
    var bestCpu: Option<real> := None;
    var bestMemory: Option<real> := None;
    var best: Option<HostLoad> := None;
    var sendNotification := true;
    bestData := None;
    for i := 0 to |data|
      invariant Scan(best, sendNotification) == Run(data[..i], cpuThreshold, ramThreshold)
      invariant bestCpu == (if best.Some? then Some(best.value.cpu) else None)
      invariant bestMemory == (if best.Some? then Some(best.value.memory) else None)
      invariant bestData == (if best.Some? then Some(Best(best.value.hostId, best.value.cpu, best.value.memory)) else None)
    {
      assert data[..i + 1][..i] == data[..i];
      var h := data[i];
      if h.cpu < cpuThreshold && h.memory < ramThreshold {
        if Below(h.cpu, bestCpu) || (bestCpu == Some(h.cpu) && Below(h.memory, bestMemory)) {
          bestCpu, bestMemory := Some(h.cpu), Some(h.memory);
          best := Some(h);
          bestData := Some(Best(h.hostId, h.cpu, h.memory));
          sendNotification := false;
        }
      } else if Below(h.cpu, bestCpu) && Below(h.memory, bestMemory) {
        bestCpu, bestMemory := Some(h.cpu), Some(h.memory);
        best := Some(h);
        bestData := Some(Best(h.hostId, h.cpu, h.memory));
        sendNotification := true;
      }
    }
    assert data[..|data|] == data;
    NotificationTracksTier(data, cpuThreshold, ramThreshold);
    notifiedAdmin := sendNotification;
    if sendNotification {
      bestData := None;
    }
  }

  /** The selected host, when there is one, is one of the input records. */
  lemma {:induction false} RunPicksAnInputHost(hs: seq<HostLoad>, cpuThreshold: real, ramThreshold: real)
    ensures Run(hs, cpuThreshold, ramThreshold).best.Some? ==> Run(hs, cpuThreshold, ramThreshold).best.value in hs
  {
    if hs != [] {
      RunPicksAnInputHost(hs[..|hs| - 1], cpuThreshold, ramThreshold);
    }
  }

  /**
   * `send_notification` is false exactly when the current best came from the
   * under-threshold branch, i.e. exactly when it is under both thresholds.
   */
  lemma {:induction false} NotificationTracksTier(hs: seq<HostLoad>, cpuThreshold: real, ramThreshold: real)
    ensures var st := Run(hs, cpuThreshold, ramThreshold);
      !st.sendNotification <==> st.best.Some? && UnderThresholds(st.best.value, cpuThreshold, ramThreshold)
  {
    if hs != [] {
      NotificationTracksTier(hs[..|hs| - 1], cpuThreshold, ramThreshold);
    }
  }

  /**
   * A non-empty result is a single entry that copies one input host's CPU and
   * memory, and that host is under both thresholds.
   */
  lemma ResultIsAnUnderThresholdHost(data: seq<HostLoad>, cpuThreshold: real, ramThreshold: real)
    ensures var r := Outcome(Run(data, cpuThreshold, ramThreshold));
      r.Some? ==>
        HostLoad(r.value.hostId, r.value.bestCpu, r.value.bestMemory) in data &&
        r.value.bestCpu < cpuThreshold && r.value.bestMemory < ramThreshold
  {
    RunPicksAnInputHost(data, cpuThreshold, ramThreshold);
    NotificationTracksTier(data, cpuThreshold, ramThreshold);
  }

  /** From an under-threshold best, the over-threshold branch can never fire. */
  lemma StepKeepsUnderThresholdBest(st: Scan, h: HostLoad, cpuThreshold: real, ramThreshold: real)
    requires st.best.Some? && UnderThresholds(st.best.value, cpuThreshold, ramThreshold)
    ensures var st' := Step(st, h, cpuThreshold, ramThreshold);
      st' == st || (st'.best == Some(h) && !st'.sendNotification && UnderThresholds(h, cpuThreshold, ramThreshold))
  {
  }

  /** Once an under-threshold host has been chosen, every later best is under both thresholds too. */
  lemma {:induction false} UnderThresholdBestIsKept(hs: seq<HostLoad>, more: seq<HostLoad>, cpuThreshold: real, ramThreshold: real)
    requires Run(hs, cpuThreshold, ramThreshold).best.Some?
    requires UnderThresholds(Run(hs, cpuThreshold, ramThreshold).best.value, cpuThreshold, ramThreshold)
    ensures Run(hs + more, cpuThreshold, ramThreshold).best.Some?
    ensures UnderThresholds(Run(hs + more, cpuThreshold, ramThreshold).best.value, cpuThreshold, ramThreshold)
    decreases |more|
  {
    if more != [] {
      var init := more[..|more| - 1];
      UnderThresholdBestIsKept(hs, init, cpuThreshold, ramThreshold);
      assert (hs + more)[..|hs + more| - 1] == hs + init;
      assert Run(hs + more, cpuThreshold, ramThreshold)
        == Step(Run(hs + init, cpuThreshold, ramThreshold), more[|more| - 1], cpuThreshold, ramThreshold);
    } else {
      assert hs + more == hs;
    }
  }

  /** `data[k]` is the first lexicographic minimum of `data` by (CPU, memory). */
  ghost predicate FirstLexMin(data: seq<HostLoad>, k: nat) {
    k < |data| &&
    (forall j :: 0 <= j < k ==> LexLess(data[k], data[j])) &&
    (forall j :: k < j < |data| ==> !LexLess(data[j], data[k]))
  }

  /**
   * When every host is under both thresholds, the winner has the minimum CPU,
   * ties go to the lower memory, and an exact tie keeps the earlier host.
   */
  lemma {:induction false} AllUnderThresholdsPicksFirstLexMin(data: seq<HostLoad>, cpuThreshold: real, ramThreshold: real)
    returns (k: nat)
    requires data != []
    requires forall j :: 0 <= j < |data| ==> UnderThresholds(data[j], cpuThreshold, ramThreshold)
    ensures FirstLexMin(data, k)
    ensures Outcome(Run(data, cpuThreshold, ramThreshold)) == Some(Best(data[k].hostId, data[k].cpu, data[k].memory))
  {
    var n := |data|;
    var init := data[..n - 1];
    var last := data[n - 1];
    if n == 1 {
      k := 0;
    } else {
      var k0 := AllUnderThresholdsPicksFirstLexMin(init, cpuThreshold, ramThreshold);
      NotificationTracksTier(init, cpuThreshold, ramThreshold);
      assert Run(init, cpuThreshold, ramThreshold).best == Some(init[k0]);
      if LexLess(last, init[k0]) {
        k := n - 1;
        forall j | 0 <= j < k ensures LexLess(data[k], data[j]) {
          assert data[j] == init[j];
          if j != k0 {
            assert j < k0 ==> LexLess(init[k0], init[j]);
            assert j > k0 ==> !LexLess(init[j], init[k0]);
          }
        }
      } else {
        k := k0;
      }
    }
  }

  /** Empty input, or every host at or over a threshold: `{}` and the admin is notified. */
  lemma NothingUnderThresholdsSelectsNothing(data: seq<HostLoad>, cpuThreshold: real, ramThreshold: real)
    requires forall j :: 0 <= j < |data| ==> !UnderThresholds(data[j], cpuThreshold, ramThreshold)
    ensures Outcome(Run(data, cpuThreshold, ramThreshold)) == None
    ensures Run(data, cpuThreshold, ramThreshold).sendNotification
  {
    RunPicksAnInputHost(data, cpuThreshold, ramThreshold);
    NotificationTracksTier(data, cpuThreshold, ramThreshold);
  }

  /**
   * The result depends on the iteration order: an over-threshold host seen
   * first lowers best_cpu below a later under-threshold host, which is then
   * skipped; in the other order that host wins.
   */
  lemma SelectionDependsOnOrder()
    ensures var over := HostLoad("a", 10.0, 90.0);
      var under := HostLoad("b", 50.0, 70.0);
      Outcome(Run([over, under], 75.0, 80.0)) == None &&
      Outcome(Run([under, over], 75.0, 80.0)) == Some(Best("b", 50.0, 70.0))
  {
    var over := HostLoad("a", 10.0, 90.0);
    var under := HostLoad("b", 50.0, 70.0);
    assert [over, under][..1] == [over];
    assert [under, over][..1] == [under];
    assert [over][..0] == [];
    assert [under][..0] == [];
    assert Run([over], 75.0, 80.0) == Scan(Some(over), true);
    assert Run([over, under], 75.0, 80.0) == Scan(Some(over), true);
    assert Run([under], 75.0, 80.0) == Scan(Some(under), false);
    assert Run([under, over], 75.0, 80.0) == Scan(Some(under), false);
  }

  /** The unit-test cases of the selector, with thresholds 75 % CPU and 80 % memory. */
  lemma UnitTestCases()
    ensures Outcome(Run([HostLoad("test1.yaml", 50.0, 70.0)], 75.0, 80.0)) == Some(Best("test1.yaml", 50.0, 70.0))
    ensures Outcome(Run([HostLoad("test1.yaml", 80.0, 90.0), HostLoad("test2.yaml", 70.0, 60.0), HostLoad("test3.yaml", 50.0, 70.0)], 75.0, 80.0))
      == Some(Best("test3.yaml", 50.0, 70.0))
    ensures Outcome(Run([HostLoad("test1.yaml", 90.0, 85.0), HostLoad("test2.yaml", 95.0, 75.0)], 75.0, 80.0)) == None
    ensures Outcome(Run([HostLoad("test1.yaml", 80.0, 70.0), HostLoad("test2.yaml", 90.0, 60.0), HostLoad("test3.yaml", 50.0, 70.0)], 75.0, 80.0))
      == Some(Best("test3.yaml", 50.0, 70.0))
    ensures Outcome(Run([HostLoad("test1.yaml", 80.0, 10.0), HostLoad("test2.yaml", 10.0, 90.0)], 75.0, 80.0)) == None
  {
    var t1 := [HostLoad("test1.yaml", 50.0, 70.0)];
    assert t1[..0] == [];
    var t2 := [HostLoad("test1.yaml", 80.0, 90.0), HostLoad("test2.yaml", 70.0, 60.0), HostLoad("test3.yaml", 50.0, 70.0)];
    assert t2[..2][..1] == t2[..1];
    assert t2[..1][..0] == [];
    var t3 := [HostLoad("test1.yaml", 90.0, 85.0), HostLoad("test2.yaml", 95.0, 75.0)];
    assert t3[..1][..0] == [];
    var t4 := [HostLoad("test1.yaml", 80.0, 70.0), HostLoad("test2.yaml", 90.0, 60.0), HostLoad("test3.yaml", 50.0, 70.0)];
    assert t4[..2][..1] == t4[..1];
    assert t4[..1][..0] == [];
    var t5 := [HostLoad("test1.yaml", 80.0, 10.0), HostLoad("test2.yaml", 10.0, 90.0)];
    assert t5[..1][..0] == [];
  }
}
