/**
 * Metrics reduction of the cluster service: unit conversion of CPU and memory
 * quantities, the zero-guarded percentage, and `cluster_load`, which joins the
 * nodes' allocatable capacity with the per-node usage samples.
 * Python's true division is modelled on `real`; float rounding is not modelled.
 */
module Metrics {
  import opened Wrappers
  import opened Text
  import opened KubeApi

  /** A resource quantity as the Kubernetes client returns it: a string with a unit suffix, or a number. */
  datatype Quantity = Str(s: string) | Num(x: real)

  /** Python's ValueError, with its message. */
  datatype ValueError = ValueError(message: string)

  /** The message of the ValueError raised by `int(s)`. */
  function InvalidLiteral(s: string): ValueError {
    ValueError("invalid literal for int() with base 10: '" + s + "'")
  }

  /** `int(s)` on a string, raising as Python does. */
  function Int(s: string): (r: Result<int, ValueError>)
    ensures r.Ok? <==> ParseInt(s).Some?
  {
    match ParseInt(s)
    case Some(n) => Ok(n)
    case None => Err(InvalidLiteral(s))
  }

  /** `int(x)` on a number: truncation toward zero. */
  function Truncate(x: real): int {
    if x >= 0.0 then x.Floor else -((-x).Floor)
  }

  /** `ToMilliValue`: a CPU quantity in millicores. */
  function ToMilliValue(q: Quantity): Result<real, ValueError> {
    match q
    case Num(x) => Ok(Truncate(x) as real)
    case Str(s) =>
      if EndsWith(s, "n") then
        (match Int(s[..|s| - 1]) case Ok(n) => Ok(n as real / 1000000.0) case Err(e) => Err(e))
      else if EndsWith(s, "u") then
        (match Int(s[..|s| - 1]) case Ok(n) => Ok(n as real / 1000.0) case Err(e) => Err(e))
      else if EndsWith(s, "m") then
        (match Int(s[..|s| - 1]) case Ok(n) => Ok(n as real) case Err(e) => Err(e))
      else
        (match ParseInt(s)
         case Some(n) => Ok((n * 1000) as real)
         case None => Err(ValueError("Unknown CPU value format: " + s)))
  }

  /** `ToMB`: a memory quantity in MiB; a number is returned unchanged. */
  function ToMB(q: Quantity): Result<real, ValueError> {
    match q
    case Num(x) => Ok(x)
    case Str(s) =>
      if EndsWith(s, "Ki") then
        (match Int(s[..|s| - 2]) case Ok(n) => Ok(n as real / 1024.0) case Err(e) => Err(e))
      else if EndsWith(s, "Mi") then
        (match Int(s[..|s| - 2]) case Ok(n) => Ok(n as real) case Err(e) => Err(e))
      else if EndsWith(s, "Gi") then
        (match Int(s[..|s| - 2]) case Ok(n) => Ok((n * 1024) as real) case Err(e) => Err(e))
      else if EndsWith(s, "Ti") then
        (match Int(s[..|s| - 2]) case Ok(n) => Ok((n * 1024 * 1024) as real) case Err(e) => Err(e))
      else
        (match Int(s) case Ok(n) => Ok(n as real / (1024.0 * 1024.0)) case Err(e) => Err(e))
  }

  /** A digit string followed by a non-digit suffix ends with that suffix and strips back to the digits. */
  lemma StripSuffix(d: string, suffix: string)
    requires IsDigits(d) && |suffix| > 0 && !IsDigit(suffix[|suffix| - 1])
    ensures EndsWith(d + suffix, suffix)
    ensures (d + suffix)[..|d + suffix| - |suffix|] == d
  {
    assert (d + suffix)[|d + suffix| - |suffix|..] == suffix;
  }

  /** A digit string ends with no suffix whose last character is a letter. */
  lemma NoLetterSuffix(d: string, suffix: string)
    requires IsDigits(d) && |suffix| > 0 && !IsDigit(suffix[|suffix| - 1])
    ensures !EndsWith(d, suffix)
  {
    if |suffix| <= |d| {
      assert IsDigit(d[|d| - |suffix|..][|suffix| - 1]);
    }
  }

  /** "<n>m" is n millicores. */
  lemma MilliOfRendered(n: nat)
    ensures ToMilliValue(Str(NatToString(n) + "m")) == Ok(n as real)
  {
    var d := NatToString(n);
    ParseIntToString(n);
    StripSuffix(d, "m");
    assert (d + "m")[|d + "m"| - 1..] == "m";
    assert !EndsWith(d + "m", "n") && !EndsWith(d + "m", "u");
  }

  /** "<n>u" is n / 1000 millicores. */
  lemma MicroOfRendered(n: nat)
    ensures ToMilliValue(Str(NatToString(n) + "u")) == Ok(n as real / 1000.0)
  {
    var d := NatToString(n);
    ParseIntToString(n);
    StripSuffix(d, "u");
    assert (d + "u")[|d + "u"| - 1..] == "u";
    assert !EndsWith(d + "u", "n");
  }

  /** "<n>n" is n / 1000000 millicores. */
  lemma NanoOfRendered(n: nat)
    ensures ToMilliValue(Str(NatToString(n) + "n")) == Ok(n as real / 1000000.0)
  {
    var d := NatToString(n);
    ParseIntToString(n);
    StripSuffix(d, "n");
  }

  /** A bare "<n>" is n cores, that is n * 1000 millicores. */
  lemma CoresOfRendered(n: nat)
    ensures ToMilliValue(Str(NatToString(n))) == Ok((n * 1000) as real)
  {
    var d := NatToString(n);
    ParseIntToString(n);
    NoLetterSuffix(d, "n");
    NoLetterSuffix(d, "u");
    NoLetterSuffix(d, "m");
  }

  /** "<n>Ki" is n / 1024 MiB. */
  lemma KibiOfRendered(n: nat)
    ensures ToMB(Str(NatToString(n) + "Ki")) == Ok(n as real / 1024.0)
  {
    var d := NatToString(n);
    ParseIntToString(n);
    StripSuffix(d, "Ki");
  }

  /** "<n>Mi" is n MiB. */
  lemma MebiOfRendered(n: nat)
    ensures ToMB(Str(NatToString(n) + "Mi")) == Ok(n as real)
  {
    var d := NatToString(n);
    ParseIntToString(n);
    StripSuffix(d, "Mi");
    assert (d + "Mi")[|d + "Mi"| - 2..] == "Mi";
  }

  /** "<n>Gi" is n * 1024 MiB. */
  lemma GibiOfRendered(n: nat)
    ensures ToMB(Str(NatToString(n) + "Gi")) == Ok((n * 1024) as real)
  {
    var d := NatToString(n);
    ParseIntToString(n);
    StripSuffix(d, "Gi");
    assert (d + "Gi")[|d + "Gi"| - 2..] == "Gi";
  }

  /** "<n>Ti" is n * 1024 * 1024 MiB. */
  lemma TebiOfRendered(n: nat)
    ensures ToMB(Str(NatToString(n) + "Ti")) == Ok((n * 1024 * 1024) as real)
  {
    var d := NatToString(n);
    ParseIntToString(n);
    StripSuffix(d, "Ti");
    assert (d + "Ti")[|d + "Ti"| - 2..] == "Ti";
  }

  /** A bare "<n>" is a byte count: n / 2^20 MiB. */
  lemma BytesOfRendered(n: nat)
    ensures ToMB(Str(NatToString(n))) == Ok(n as real / (1024.0 * 1024.0))
  {
    var d := NatToString(n);
    ParseIntToString(n);
    NoLetterSuffix(d, "Ki");
    NoLetterSuffix(d, "Mi");
    NoLetterSuffix(d, "Gi");
    NoLetterSuffix(d, "Ti");
  }

  /** The conversions the source's tests use. */
  lemma ConversionExamples()
    ensures ToMilliValue(Str("100m")) == Ok(100.0)
    ensures ToMilliValue(Str("1")) == Ok(1000.0)
    ensures ToMB(Str("512Mi")) == Ok(512.0)
    ensures ToMB(Str("1Gi")) == Ok(1024.0)
  {
    assert NatToString(100) + "m" == "100m";
    assert NatToString(1) == "1";
    assert NatToString(512) + "Mi" == "512Mi";
    assert NatToString(1) + "Gi" == "1Gi";
    MilliOfRendered(100);
    CoresOfRendered(1);
    MebiOfRendered(512);
    GibiOfRendered(1);
  }

  /** A suffix-less string that is not an integer raises "Unknown CPU value format". */
  lemma UnknownCpuFormat(s: string)
    requires !EndsWith(s, "n") && !EndsWith(s, "u") && !EndsWith(s, "m")
    requires ParseInt(s).None?
    ensures ToMilliValue(Str(s)) == Err(ValueError("Unknown CPU value format: " + s))
  {
  }

  /** `to_percentage(value, total)`: 0 for a zero total, otherwise value / total * 100. */
  function ToPercentage(value: real, total: real): (r: real)
    ensures total == 0.0 ==> r == 0.0
    ensures total != 0.0 ==> r * total == value * 100.0
  {
    if total == 0.0 then 0.0 else (value / total) * 100.0
  }

  /** With usage between zero and a positive capacity, the percentage lies in [0, 100]. */
  lemma PercentageBounded(value: real, total: real)
    requires 0.0 <= value <= total
    ensures 0.0 <= ToPercentage(value, total) <= 100.0
  {
    if total != 0.0 {
      var r := ToPercentage(value, total);
      assert r * total == value * 100.0;
      assert value * 100.0 <= total * 100.0;
    }
  }

  /** One item of `list_node()`: its name and allocatable CPU and memory. */
  datatype Node = Node(name: string, allocatableCpu: Quantity, allocatableMemory: Quantity)

  /** One item of the `metrics.k8s.io` node metrics: a node name and its current usage. */
  datatype UsageSample = UsageSample(nodeName: string, cpu: Quantity, memory: Quantity)

  /** The per-node entry of `node_metrics`, in millicores and MiB. */
  datatype NodeLoad = NodeLoad(allocatableCpu: real, allocatableMem: real, currentCpu: real, currentMem: real)

  /** `node_metrics` with its keys in insertion order. */
  datatype Table = Table(entries: map<string, NodeLoad>, order: seq<string>)

  ghost predicate WellFormed(t: Table) {
    (forall k :: k in t.order <==> k in t.entries) &&
    (forall i, j :: 0 <= i < j < |t.order| ==> t.order[i] != t.order[j])
  }

  /** The first loop of `cluster_load`: every listed node, with zero current usage. */
  function Tabulate(nodes: seq<Node>): Result<Table, ValueError> {
    if nodes == [] then Ok(Table(map[], []))
    else
      match Tabulate(nodes[..|nodes| - 1])
      case Err(e) => Err(e)
      case Ok(t) =>
        var no := nodes[|nodes| - 1];
        match ToMilliValue(no.allocatableCpu)
        case Err(e) => Err(e)
        case Ok(cpu) =>
          match ToMB(no.allocatableMemory)
          case Err(e) => Err(e)
          case Ok(mem) =>
            Ok(Table(t.entries[no.name := NodeLoad(cpu, mem, 0.0, 0.0)],
                     if no.name in t.entries then t.order else t.order + [no.name]))
  }

  /** The second loop: a sample for a listed node overwrites that node's current usage. */
  function ApplySamples(t: Table, samples: seq<UsageSample>): Result<Table, ValueError> {
    if samples == [] then Ok(t)
    else
      match ApplySamples(t, samples[..|samples| - 1])
      case Err(e) => Err(e)
      case Ok(t') =>
        var mx := samples[|samples| - 1];
        if mx.nodeName in t'.entries then
          match ToMilliValue(mx.cpu)
          case Err(e) => Err(e)
          case Ok(cpu) =>
            match ToMB(mx.memory)
            case Err(e) => Err(e)
            case Ok(mem) =>
              Ok(t'.(entries := t'.entries[mx.nodeName := t'.entries[mx.nodeName].(currentCpu := cpu, currentMem := mem)]))
        else Ok(t')
  }

  datatype Column = CurrentCpu | CurrentMem | AllocatableCpu | AllocatableMem

  function Cell(l: NodeLoad, c: Column): real {
    match c
    case CurrentCpu => l.currentCpu
    case CurrentMem => l.currentMem
    case AllocatableCpu => l.allocatableCpu
    case AllocatableMem => l.allocatableMem
  }

  /** The running sum of one column over the keys `keys`. */
  function Sum(keys: seq<string>, entries: map<string, NodeLoad>, c: Column): real
    requires forall k :: k in keys ==> k in entries
  {
    if keys == [] then 0.0 else Sum(keys[..|keys| - 1], entries, c) + Cell(entries[keys[|keys| - 1]], c)
  }

  /** The joined table, or the first error a conversion raises. */
  function Joined(nodes: seq<Node>, samples: seq<UsageSample>): Result<Table, ValueError> {
    match Tabulate(nodes)
    case Err(e) => Err(e)
    case Ok(t) => ApplySamples(t, samples)
  }

  lemma {:induction false} TabulateWellFormed(nodes: seq<Node>)
    ensures Tabulate(nodes).Ok? ==> WellFormed(Tabulate(nodes).value)
  {
    if nodes != [] {
      TabulateWellFormed(nodes[..|nodes| - 1]);
    }
  }

  lemma {:induction false} ApplySamplesKeepsKeys(t: Table, samples: seq<UsageSample>)
    ensures ApplySamples(t, samples).Ok? ==>
      ApplySamples(t, samples).value.order == t.order &&
      ApplySamples(t, samples).value.entries.Keys == t.entries.Keys
  {
    if samples != [] {
      ApplySamplesKeepsKeys(t, samples[..|samples| - 1]);
    }
  }

  lemma JoinedWellFormed(nodes: seq<Node>, samples: seq<UsageSample>)
    ensures Joined(nodes, samples).Ok? ==> WellFormed(Joined(nodes, samples).value)
  {
    TabulateWellFormed(nodes);
    if Tabulate(nodes).Ok? {
      ApplySamplesKeepsKeys(Tabulate(nodes).value, samples);
    }
  }

  /** Once the node loop raises, the whole loop raises the same error. */
  lemma {:induction false} TabulateErrPersists(nodes: seq<Node>, i: nat)
    requires i <= |nodes| && Tabulate(nodes[..i]).Err?
    ensures Tabulate(nodes) == Tabulate(nodes[..i])
    decreases |nodes| - i
  {
    if i < |nodes| {
      assert nodes[..i + 1][..i] == nodes[..i];
      TabulateErrPersists(nodes, i + 1);
    } else {
      assert nodes[..i] == nodes;
    }
  }

  /** Once the sample loop raises, the whole loop raises the same error. */
  lemma {:induction false} ApplySamplesErrPersists(t: Table, samples: seq<UsageSample>, j: nat)
    requires j <= |samples| && ApplySamples(t, samples[..j]).Err?
    ensures ApplySamples(t, samples) == ApplySamples(t, samples[..j])
    decreases |samples| - j
  {
    if j < |samples| {
      assert samples[..j + 1][..j] == samples[..j];
      ApplySamplesErrPersists(t, samples, j + 1);
    } else {
      assert samples[..j] == samples;
    }
  }

  /** `cluster_load`'s result as a value: (PercCPU, PercMEM), or the error it raises. */
  function Load(nodes: Option<seq<Node>>, samples: Option<seq<UsageSample>>): Result<(real, real), ValueError> {
    if nodes.None? || samples.None? then Err(ValueError("Invalid node or node metrics lists"))
    else
      match Joined(nodes.value, samples.value)
      case Err(e) => Err(e)
      case Ok(t) =>
        JoinedWellFormed(nodes.value, samples.value);
        Ok((ToPercentage(Sum(t.order, t.entries, CurrentCpu), Sum(t.order, t.entries, AllocatableCpu)),
            ToPercentage(Sum(t.order, t.entries, CurrentMem), Sum(t.order, t.entries, AllocatableMem))))
  }

  /** The entry a node contributes, with zero current usage. */
  function Fresh(cpu: Result<real, ValueError>, mem: Result<real, ValueError>): NodeLoad
    requires cpu.Ok? && mem.Ok?
  {
    NodeLoad(cpu.value, mem.value, 0.0, 0.0)
  }

  /** If the node loop completes, every node's capacity converted. */
  lemma {:induction false} TabulateConverts(nodes: seq<Node>)
    requires Tabulate(nodes).Ok?
    ensures forall i :: 0 <= i < |nodes| ==>
      ToMilliValue(nodes[i].allocatableCpu).Ok? && ToMB(nodes[i].allocatableMemory).Ok?
  {
    if nodes != [] {
      var init := nodes[..|nodes| - 1];
      TabulateConverts(init);
      assert forall i :: 0 <= i < |init| ==> init[i] == nodes[i];
    }
  }

  /** The node loop keeps exactly one entry per listed name, each with zero current usage. */
  lemma {:induction false} TabulateKeys(nodes: seq<Node>)
    requires Tabulate(nodes).Ok?
    ensures forall k :: k in Tabulate(nodes).value.entries <==> exists i :: 0 <= i < |nodes| && nodes[i].name == k
    ensures forall k :: k in Tabulate(nodes).value.entries ==>
      Tabulate(nodes).value.entries[k].currentCpu == 0.0 && Tabulate(nodes).value.entries[k].currentMem == 0.0
  {
    if nodes != [] {
      var init := nodes[..|nodes| - 1];
      TabulateKeys(init);
      TabulateStep(nodes);
      var t := Tabulate(nodes).value;
      forall k | k in t.entries
        ensures exists i :: 0 <= i < |nodes| && nodes[i].name == k
      {
        if k != nodes[|nodes| - 1].name {
          var i :| 0 <= i < |init| && init[i].name == k;
          assert nodes[i].name == k;
        }
      }
      forall k | exists i :: 0 <= i < |nodes| && nodes[i].name == k
        ensures k in t.entries
      {
        var i :| 0 <= i < |nodes| && nodes[i].name == k;
        if i < |init| {
          assert init[i].name == k;
        }
      }
    }
  }

  /** One step of the node loop: the last node's entry is set afresh and the others stay. */
  lemma TabulateStep(nodes: seq<Node>)
    requires nodes != [] && Tabulate(nodes).Ok?
    ensures Tabulate(nodes[..|nodes| - 1]).Ok?
    ensures var before := Tabulate(nodes[..|nodes| - 1]).value.entries;
            var after := Tabulate(nodes).value.entries;
            var name := nodes[|nodes| - 1].name;
            && after.Keys == before.Keys + {name}
            && after[name].currentCpu == 0.0 && after[name].currentMem == 0.0
            && forall k :: k in before && k != name ==> after[k] == before[k]
  {
  }

  /** A node named more than once contributes the capacity of its LAST listing. */
  lemma {:induction false} TabulateLastWins(nodes: seq<Node>, i: nat)
    requires Tabulate(nodes).Ok?
    requires i < |nodes| && forall j :: i < j < |nodes| ==> nodes[j].name != nodes[i].name
    ensures ToMilliValue(nodes[i].allocatableCpu).Ok? && ToMB(nodes[i].allocatableMemory).Ok?
    ensures nodes[i].name in Tabulate(nodes).value.entries
    ensures Tabulate(nodes).value.entries[nodes[i].name] ==
      Fresh(ToMilliValue(nodes[i].allocatableCpu), ToMB(nodes[i].allocatableMemory))
  {
    TabulateConverts(nodes);
    TabulateKeys(nodes);
    var init := nodes[..|nodes| - 1];
    if i < |init| {
      assert init[i] == nodes[i];
      forall j | i < j < |init| ensures init[j].name != init[i].name {
        assert init[j] == nodes[j];
      }
      TabulateLastWins(init, i);
    }
  }

  /** No sample for a listed node leaves its entry as the node loop made it. */
  lemma {:induction false} UnsampledEntryKept(t: Table, samples: seq<UsageSample>, name: string)
    requires name in t.entries
    requires forall i :: 0 <= i < |samples| ==> samples[i].nodeName != name
    ensures ApplySamples(t, samples).Ok? ==>
      name in ApplySamples(t, samples).value.entries &&
      ApplySamples(t, samples).value.entries[name] == t.entries[name]
  {
    if samples != [] {
      UnsampledEntryKept(t, samples[..|samples| - 1], name);
    }
  }

  /** A listed node with no usage sample counts with zero current CPU and memory. */
  lemma UnsampledNodeHasZeroUsage(nodes: seq<Node>, samples: seq<UsageSample>, name: string)
    requires Joined(nodes, samples).Ok?
    requires exists i :: 0 <= i < |nodes| && nodes[i].name == name
    requires forall i :: 0 <= i < |samples| ==> samples[i].nodeName != name
    ensures name in Joined(nodes, samples).value.entries
    ensures Joined(nodes, samples).value.entries[name].currentCpu == 0.0
    ensures Joined(nodes, samples).value.entries[name].currentMem == 0.0
  {
    TabulateKeys(nodes);
    UnsampledEntryKept(Tabulate(nodes).value, samples, name);
  }

  /** The samples whose node is among `names`, in their original order. */
  function Listed(names: set<string>, samples: seq<UsageSample>): (r: seq<UsageSample>)
    ensures forall i :: 0 <= i < |r| ==> r[i].nodeName in names && r[i] in samples
  {
    if samples == [] then []
    else
      var last := samples[|samples| - 1];
      Listed(names, samples[..|samples| - 1]) + (if last.nodeName in names then [last] else [])
  }

  /**
   * Samples for nodes that are not listed are skipped without being
   * converted: the result, error or not, is that of the listed samples alone.
   */
  lemma {:induction false} UnlistedSamplesIgnored(t: Table, samples: seq<UsageSample>)
    ensures ApplySamples(t, samples) == ApplySamples(t, Listed(t.entries.Keys, samples))
  {
    if samples != [] {
      var init := samples[..|samples| - 1];
      var last := samples[|samples| - 1];
      var li := Listed(t.entries.Keys, init);
      UnlistedSamplesIgnored(t, init);
      ApplySamplesKeepsKeys(t, init);
      if last.nodeName in t.entries {
        assert Listed(t.entries.Keys, samples) == li + [last];
        assert (li + [last])[..|li + [last]| - 1] == li;
      } else {
        assert Listed(t.entries.Keys, samples) == li;
      }
    }
  }

  /** The node loop of `cluster_load`. */
  method TabulateNodes(nos: seq<Node>) returns (r: Result<Table, ValueError>)
    ensures r == Tabulate(nos)
  {
    var table := Table(map[], []);
    for i := 0 to |nos|
      invariant Tabulate(nos[..i]) == Ok(table)
    {
      assert nos[..i + 1][..i] == nos[..i];
      var no := nos[i];
      var cpu := ToMilliValue(no.allocatableCpu);
      if cpu.Err? {
        TabulateErrPersists(nos, i + 1);
        return Err(cpu.error);
      }
      var mem := ToMB(no.allocatableMemory);
      if mem.Err? {
        TabulateErrPersists(nos, i + 1);
        return Err(mem.error);
      }
      table := Table(table.entries[no.name := NodeLoad(cpu.value, mem.value, 0.0, 0.0)],
                     if no.name in table.entries then table.order else table.order + [no.name]);
    }
    assert nos[..|nos|] == nos;
    return Ok(table);
  }

  /** The sample loop of `cluster_load`. */
  method ApplySampleList(tabulated: Table, nmx: seq<UsageSample>) returns (r: Result<Table, ValueError>)
    ensures r == ApplySamples(tabulated, nmx)
  {
    var table := tabulated;
    for j := 0 to |nmx|
      invariant ApplySamples(tabulated, nmx[..j]) == Ok(table)
    {
      assert nmx[..j + 1][..j] == nmx[..j];
      var item := nmx[j];
      if item.nodeName in table.entries {
        var cpu := ToMilliValue(item.cpu);
        if cpu.Err? {
          ApplySamplesErrPersists(tabulated, nmx, j + 1);
          return Err(cpu.error);
        }
        var mem := ToMB(item.memory);
        if mem.Err? {
          ApplySamplesErrPersists(tabulated, nmx, j + 1);
          return Err(mem.error);
        }
        var node := table.entries[item.nodeName].(currentCpu := cpu.value, currentMem := mem.value);
        table := table.(entries := table.entries[item.nodeName := node]);
      }
    }
    assert nmx[..|nmx|] == nmx;
    return Ok(table);
  }

  /** The summing loop of `cluster_load`. */
  method SumColumns(table: Table) returns (ccpu: real, cmem: real, tcpu: real, tmem: real)
    requires WellFormed(table)
    ensures ccpu == Sum(table.order, table.entries, CurrentCpu)
    ensures cmem == Sum(table.order, table.entries, CurrentMem)
    ensures tcpu == Sum(table.order, table.entries, AllocatableCpu)
    ensures tmem == Sum(table.order, table.entries, AllocatableMem)
  {
    ccpu, cmem, tcpu, tmem := 0.0, 0.0, 0.0, 0.0;
    for k := 0 to |table.order|
      invariant ccpu == Sum(table.order[..k], table.entries, CurrentCpu)
      invariant cmem == Sum(table.order[..k], table.entries, CurrentMem)
      invariant tcpu == Sum(table.order[..k], table.entries, AllocatableCpu)
      invariant tmem == Sum(table.order[..k], table.entries, AllocatableMem)
    {
      assert table.order[..k + 1][..k] == table.order[..k];
      var metrics := table.entries[table.order[k]];
      ccpu := ccpu + metrics.currentCpu;
      cmem := cmem + metrics.currentMem;
      tcpu := tcpu + metrics.allocatableCpu;
      tmem := tmem + metrics.allocatableMem;
    }
    assert table.order[..|table.order|] == table.order;
  }

  /**
   * `cluster_load(nos, nmx, mx)`: builds `node_metrics`, overwrites the
   * current usage of listed nodes from the samples, sums the four columns and
   * writes PercCPU and PercMEM into `mx`, which it returns.
   */
  method ClusterLoad(nodes: Option<seq<Node>>, samples: Option<seq<UsageSample>>, mx: map<string, real>)
    returns (r: Result<map<string, real>, ValueError>)
    ensures nodes.None? || samples.None? ==> r == Err(ValueError("Invalid node or node metrics lists"))
    ensures r.Ok? <==> Load(nodes, samples).Ok?
    ensures r.Ok? ==> r.value == mx["PercCPU" := Load(nodes, samples).value.0]["PercMEM" := Load(nodes, samples).value.1]
    ensures r.Err? ==> r.error == Load(nodes, samples).error
  {
    if nodes.None? || samples.None? {
      return Err(ValueError("Invalid node or node metrics lists"));
    }
    var tabulated := TabulateNodes(nodes.value);
    if tabulated.Err? {
      return Err(tabulated.error);
    }
    var joined := ApplySampleList(tabulated.value, samples.value);
    if joined.Err? {
      return Err(joined.error);
    }
    JoinedWellFormed(nodes.value, samples.value);
    var ccpu, cmem, tcpu, tmem := SumColumns(joined.value);
    r := Ok(mx["PercCPU" := ToPercentage(ccpu, tcpu)]["PercMEM" := ToPercentage(cmem, tmem)]);
  }

  /**
   * `get_pod_status`: "Failed" when the namespace cannot be read (for any
   * reason), "Creating" when the pod "<name>-0" cannot be read, and
   * otherwise whatever phase that pod has.
   */
  function GetPodStatus(cp: ControlPlane, namespace: string, name: string): (status: string)
    reads cp
    ensures cp.ReadNamespace(namespace).Err? ==> status == "Failed"
    ensures cp.ReadNamespace(namespace).Ok? && cp.ReadPod(namespace, name + "-0").Err? ==> status == "Creating"
    ensures cp.ReadNamespace(namespace).Ok? && cp.ReadPod(namespace, name + "-0").Ok? ==>
              status == cp.ReadPod(namespace, name + "-0").value
    ensures cp.ReadNamespace(namespace).Ok? && cp.Fault(PodRead).None? &&
            namespace in cp.namespaces && name + "-0" in cp.namespaces[namespace].pods ==>
              status == Phase(cp.namespaces[namespace].pods[name + "-0"], cp.clock)
  {
    if cp.ReadNamespace(namespace).Err? then "Failed"
    else
      match cp.ReadPod(namespace, name + "-0")
      case Ok(phase) => phase
      case Err(_) => "Creating"
  }

  /**
   * "Failed" does not tell the two failures apart: a readable namespace
   * whose pod has failed gives the same status as a namespace that cannot
   * be read.
   */
  lemma FailedStatusAmbiguous(cp: ControlPlane, namespace: string, name: string)
    requires cp.ReadNamespace(namespace).Ok? && cp.Fault(PodRead).None?
    requires namespace in cp.namespaces && name + "-0" in cp.namespaces[namespace].pods
    requires cp.namespaces[namespace].pods[name + "-0"].settled == Some("Failed")
    ensures GetPodStatus(cp, namespace, name) == "Failed"
  {
  }
}
