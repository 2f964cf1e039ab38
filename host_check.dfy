/**
 * `check_host_cluster_usecase` with `get_available_resources_fromSecret`:
 * measure the utilisation of every candidate host cluster, keep it in a
 * dict keyed by host id, pick a host with the placement selector, and
 * answer 200 with that host or 404 "No available resources".
 *
 * Fetching the host's kubeconfig and talking to its API are replaced by a
 * `Probe`: either the node list and the node metrics the host returned, or
 * the text of the exception that reaching it raised.
 */
module HostCheck {
  import opened Wrappers
  import opened Metrics
  import opened Placement

  datatype Probe =
    | Unreachable(message: string)
    | Probed(nodes: Option<seq<Node>>, samples: Option<seq<UsageSample>>)

  datatype HostSecret = HostSecret(id: string, probe: Probe)

  predicate DistinctIds(rows: seq<HostLoad>) {
    forall i, j :: 0 <= i < j < |rows| ==> rows[i].hostId != rows[j].hostId
  }

  function RowIds(rows: seq<HostLoad>): set<string> {
    set i | 0 <= i < |rows| :: rows[i].hostId
  }

  lemma RowIdsConcat(a: seq<HostLoad>, b: seq<HostLoad>)
    ensures RowIds(a + b) == RowIds(a) + RowIds(b)
  {
    forall id | id in RowIds(a + b)
      ensures id in RowIds(a) + RowIds(b)
    {
      var i :| 0 <= i < |a + b| && (a + b)[i].hostId == id;
      if i < |a| {
        assert a[i].hostId == id;
      } else {
        assert b[i - |a|].hostId == id;
      }
    }
    forall id | id in RowIds(a) + RowIds(b)
      ensures id in RowIds(a + b)
    {
      if id in RowIds(a) {
        var i :| 0 <= i < |a| && a[i].hostId == id;
        assert (a + b)[i].hostId == id;
      } else {
        var i :| 0 <= i < |b| && b[i].hostId == id;
        assert (a + b)[i + |a|].hostId == id;
      }
    }
  }

  lemma RowIdsSingle(h: HostLoad)
    ensures RowIds([h]) == {h.hostId}
  {
    assert [h][0].hostId == h.hostId;
  }

  function SecretIds(hs: seq<HostSecret>): set<string> {
    set i | 0 <= i < |hs| :: hs[i].id
  }

  /**
   * `clusterResource[h.hostId] = …` on a dict kept in insertion order: a key
   * already present keeps its place and takes the new value, a new key goes
   * last.
   */
  function Upsert(rows: seq<HostLoad>, h: HostLoad): (r: seq<HostLoad>)
    requires DistinctIds(rows)
    ensures DistinctIds(r)
    ensures RowIds(r) == RowIds(rows) + {h.hostId}
    ensures forall i :: 0 <= i < |rows| && rows[i].hostId == h.hostId ==> r == rows[i := h]
    ensures h.hostId !in RowIds(rows) ==> r == rows + [h]
  {
    match IdIndex(rows, h.hostId)
    case Some(i) =>
      RowIdsReplace(rows, i, h);
      rows[i := h]
    case None =>
      RowIdsConcat(rows, [h]);
      RowIdsSingle(h);
      assert forall i :: 0 <= i < |rows| ==> rows[i].hostId in RowIds(rows);
      rows + [h]
  }

  /** Where a host id sits among the rows, if anywhere. */
  function IdIndex(rows: seq<HostLoad>, id: string): (r: Option<nat>)
    ensures r.Some? ==> r.value < |rows| && rows[r.value].hostId == id
    ensures r.None? ==> id !in RowIds(rows)
  {
    if rows == [] then None
    else if rows[|rows| - 1].hostId == id then Some(|rows| - 1)
    else
      var init := rows[..|rows| - 1];
      assert rows == init + [rows[|rows| - 1]];
      RowIdsConcat(init, [rows[|rows| - 1]]);
      RowIdsSingle(rows[|rows| - 1]);
      IdIndex(init, id)
  }

  lemma RowIdsReplace(rows: seq<HostLoad>, i: nat, h: HostLoad)
    requires i < |rows| && rows[i].hostId == h.hostId
    ensures RowIds(rows[i := h]) == RowIds(rows)
  {
    forall id | id in RowIds(rows[i := h])
      ensures id in RowIds(rows)
    {
      var j :| 0 <= j < |rows| && rows[i := h][j].hostId == id;
      assert rows[j].hostId == id;
    }
    forall id | id in RowIds(rows)
      ensures id in RowIds(rows[i := h])
    {
      var j :| 0 <= j < |rows| && rows[j].hostId == id;
      assert rows[i := h][j].hostId == id;
    }
  }

  /** What measuring one host gives: its (CPU %, memory %) record, or the message of what it raised. */
  function LoadOf(s: HostSecret): (r: Result<HostLoad, string>)
    ensures r.Ok? ==> s.probe.Probed? && Load(s.probe.nodes, s.probe.samples).Ok? && r.value.hostId == s.id
    ensures s.probe.Probed? && Load(s.probe.nodes, s.probe.samples).Err? ==>
              r == Err("Error occurred: " + Load(s.probe.nodes, s.probe.samples).error.message)
  {
    match s.probe
    case Unreachable(m) => Err("Error occurred: " + m)
    case Probed(nodes, samples) =>
      match Load(nodes, samples)
      case Err(e) => Err("Error occurred: " + e.message)
      case Ok(p) => Ok(HostLoad(s.id, p.0, p.1))
  }

  /** The dict `clusterResource` after the hosts `hs`, or the message the loop ended with. */
  function Gather(hs: seq<HostSecret>): (r: Result<seq<HostLoad>, string>)
    ensures r.Ok? ==> DistinctIds(r.value) && RowIds(r.value) == SecretIds(hs)
  {
    if hs == [] then Ok([])
    else
      var prev := Gather(hs[..|hs| - 1]);
      assert SecretIds(hs) == SecretIds(hs[..|hs| - 1]) + {hs[|hs| - 1].id} by {
        assert forall i :: 0 <= i < |hs| - 1 ==> hs[..|hs| - 1][i] == hs[i];
      }
      if prev.Err? then prev
      else
        match LoadOf(hs[|hs| - 1])
        case Err(e) => Err(e)
        case Ok(h) => Ok(Upsert(prev.value, h))
  }

  lemma {:induction false} GatherErrPersists(hs: seq<HostSecret>, i: nat)
    requires i <= |hs| && Gather(hs[..i]).Err?
    ensures Gather(hs) == Gather(hs[..i])
    decreases |hs| - i
  {
    if i < |hs| {
      assert hs[..i + 1][..i] == hs[..i];
      GatherErrPersists(hs, i + 1);
    } else {
      assert hs[..i] == hs;
    }
  }

  /**
   * A host listed twice is measured twice: it keeps the place of its first
   * occurrence and the figures of its last.
   */
  lemma RepeatedHostKeepsPlaceTakesLastLoad(a: HostSecret, b: HostSecret, a2: HostSecret)
    requires a.id != b.id && a2.id == a.id
    requires LoadOf(a).Ok? && LoadOf(b).Ok? && LoadOf(a2).Ok?
    ensures Gather([a, b, a2]) == Ok([LoadOf(a2).value, LoadOf(b).value])
  {
    var ha, hb, ha2 := LoadOf(a).value, LoadOf(b).value, LoadOf(a2).value;
    TwoHostsInOrder(a, b);
    var rows := [ha, hb];
    GatherStep([a, b], a2);
    assert [a, b] + [a2] == [a, b, a2];
    assert rows[0].hostId == ha2.hostId;
    assert Upsert(rows, ha2) == rows[0 := ha2];
    assert rows[0 := ha2] == [ha2, hb];
  }

  /** Two different hosts that answer give two rows, in the order they were listed. */
  lemma TwoHostsInOrder(a: HostSecret, b: HostSecret)
    requires a.id != b.id && LoadOf(a).Ok? && LoadOf(b).Ok?
    ensures Gather([a, b]) == Ok([LoadOf(a).value, LoadOf(b).value])
  {
    var ha, hb := LoadOf(a).value, LoadOf(b).value;
    OneHost(a);
    GatherStep([a], b);
    assert [a] + [b] == [a, b];
    AppendNewRow([ha], hb);
    assert [ha] + [hb] == [ha, hb];
  }

  /** A row for an id not yet present goes last. */
  lemma AppendNewRow(rows: seq<HostLoad>, h: HostLoad)
    requires |rows| == 1 && rows[0].hostId != h.hostId
    ensures DistinctIds(rows) && Upsert(rows, h) == rows + [h]
  {
    RowIdsSingle(rows[0]);
    assert rows == [rows[0]];
  }

  lemma OneHost(a: HostSecret)
    requires LoadOf(a).Ok?
    ensures Gather([a]) == Ok([LoadOf(a).value])
  {
    var none: seq<HostSecret> := [];
    GatherStep(none, a);
    assert none + [a] == [a];
    var rows: seq<HostLoad> := [];
    assert Upsert(rows, LoadOf(a).value) == [LoadOf(a).value];
  }

  /** One more host that answers is merged into the rows gathered so far. */
  lemma GatherStep(hs: seq<HostSecret>, s: HostSecret)
    requires Gather(hs).Ok? && LoadOf(s).Ok?
    ensures Gather(hs + [s]) == Ok(Upsert(Gather(hs).value, LoadOf(s).value))
  {
    assert (hs + [s])[..|hs|] == hs;
  }

  /** The scan over the hosts in `get_available_resources_fromSecret`. */
  method GatherLoads(hs: seq<HostSecret>) returns (r: Result<seq<HostLoad>, string>)
    ensures r == Gather(hs)
  {
    var rows: seq<HostLoad> := [];
    for i := 0 to |hs|
      invariant Gather(hs[..i]) == Ok(rows)
    {
      assert hs[..i + 1][..i] == hs[..i];
      var s := hs[i];
      if s.probe.Unreachable? {
        GatherErrPersists(hs, i + 1);
        return Err("Error occurred: " + s.probe.message);
      }
      var percentage := ClusterLoad(s.probe.nodes, s.probe.samples, map[]);
      if percentage.Err? {
        GatherErrPersists(hs, i + 1);
        return Err("Error occurred: " + percentage.error.message);
      }
      rows := Upsert(rows, HostLoad(s.id, percentage.value["PercCPU"], percentage.value["PercMEM"]));
    }
    assert hs[..|hs|] == hs;
    r := Ok(rows);
  }

  /** `get_available_resources_fromSecret`: the selection, or the error dict (`Err`). */
  function Available(hs: seq<HostSecret>, cpuThreshold: real, ramThreshold: real): Result<Option<Best>, string> {
    match Gather(hs)
    case Err(e) => Err(e)
    case Ok(rows) => Ok(Outcome(Run(rows, cpuThreshold, ramThreshold)))
  }

  datatype HostReply = Chosen(id: string, bestCpu: real, bestMemory: real) | NoResources | InternalError

  /**
   * `check_host_cluster_usecase`. The error dict returned on a failure is
   * truthy, so the handler reads `"best_cpu"` out of its message string and
   * raises a TypeError: the request ends with status 500.
   */
  method CheckHostCluster(hs: seq<HostSecret>, cpuThreshold: real, ramThreshold: real)
    returns (status: int, reply: HostReply)
    ensures var a := Available(hs, cpuThreshold, ramThreshold);
      && (status == 200 <==> a.Ok? && a.value.Some?)
      && (status == 200 ==> reply == Chosen(a.value.value.hostId, a.value.value.bestCpu, a.value.value.bestMemory))
      && (status == 404 <==> a.Ok? && a.value.None?)
      && (status == 404 ==> reply == NoResources)
      && (status == 500 <==> a.Err?)
      && (status == 500 ==> reply == InternalError)
  {
    var rows := GatherLoads(hs);
    if rows.Err? {
      return 500, InternalError;
    }
    var best, _ := GetBestCluster(rows.value, cpuThreshold, ramThreshold);
    if best.Some? {
      return 200, Chosen(best.value.hostId, best.value.bestCpu, best.value.bestMemory);
    }
    return 404, NoResources;
  }

  /**
   * A 200 reply names one of the hosts asked about, with the figures measured
   * for it, and both are under the thresholds.
   */
  lemma {:induction false} ChosenHostWasAskedAbout(hs: seq<HostSecret>, cpuThreshold: real, ramThreshold: real)
    requires Available(hs, cpuThreshold, ramThreshold).Ok? && Available(hs, cpuThreshold, ramThreshold).value.Some?
    ensures var b := Available(hs, cpuThreshold, ramThreshold).value.value;
            b.hostId in SecretIds(hs) && b.bestCpu < cpuThreshold && b.bestMemory < ramThreshold &&
            HostLoad(b.hostId, b.bestCpu, b.bestMemory) in Gather(hs).value
  {
    var rows := Gather(hs).value;
    RunPicksAnInputHost(rows, cpuThreshold, ramThreshold);
    ResultIsAnUnderThresholdHost(rows, cpuThreshold, ramThreshold);
    var h := Run(rows, cpuThreshold, ramThreshold).best.value;
    var k :| 0 <= k < |rows| && rows[k] == h;
    assert h.hostId in RowIds(rows);
  }
}
