/**
 * `gather`: the report assembled from one snapshot of the host's metrics.
 * Every operating-system query is an input field; the report is a fixed
 * sequence of titled sections, each written as a header line followed by
 * its body, and the text is those lines joined by newlines.
 */
module Report {
  import opened Wrappers
  import opened Text
  import opened Size
  import opened Gpu

  /** `platform.uname()`. */
  datatype Uname = Uname(system: string, node: string, release: string, version: string, machine: string, processor: string)

  /** `psutil.cpu_freq()`, in MHz. */
  datatype CpuFreq = CpuFreq(current: real, min: real, max: real)

  /**
   * The CPU queries: the core counts (`None` when psutil cannot tell), the
   * frequencies (`None` when psutil returns no frequency record), one
   * utilization sample per logical core, and the overall utilization.
   */
  datatype Cpu = Cpu(physicalCores: Option<nat>, logicalCores: Option<nat>, freq: Option<CpuFreq>, perCore: seq<real>, total: real)

  /** `psutil.virtual_memory()`: byte counts and the used percentage. */
  datatype VirtualMemory = VirtualMemory(total: nat, available: nat, used: nat, percent: real)

  /** `psutil.disk_usage(mountpoint)`. */
  datatype DiskUsage = DiskUsage(total: nat, used: nat, free: nat, percent: real)

  /** The outcome of a partition's usage query: the usage, a `PermissionError`, or any other exception. */
  datatype UsageQuery = Usage(usage: DiskUsage) | PermissionDenied | QueryError

  /** One entry of `psutil.disk_partitions()`, with the outcome of its usage query. */
  datatype Partition = Partition(device: string, mountpoint: string, fstype: string, usage: UsageQuery)

  /** `psutil.disk_io_counters()`; `None` when psutil returns no counters. */
  datatype IoCounters = IoCounters(readBytes: nat, writeBytes: nat)

  /** Everything `gather` reads from the host, in the order it reads it. */
  datatype Metrics = Metrics(
    uname: Uname,
    bootTime: string,
    cpu: Cpu,
    memory: VirtualMemory,
    partitions: seq<Partition>,
    io: Option<IoCounters>,
    gpu: GpuQuery)

  /** A titled block of the report. */
  datatype Section = Section(title: string, body: seq<string>)

  /** The section titles, in report order. */
  const Titles: seq<string> :=
    ["System Information", "Boot Time", "CPU Info", "Memory Usage", "Disk Usage", "GPU Usage", "Network Information"]

  const NetworkNotice := "**omitted due to security restrictions**"

  function Header(title: string): string
  {
    "===== " + title + " ====="
  }

  /** A byte count as `get_size` shows it, with the default suffix `B`. */
  function Bytes(n: nat, fmt: NumberFormat): string
  {
    SizeText(n as real, "B", fmt)
  }

  /** A core count as an f-string shows it: its digits, or `None`. */
  function CountText(c: Option<nat>): string
  {
    match c
    case None => "None"
    case Some(n) => NatToString(n)
  }

  function SystemBody(u: Uname): seq<string>
  {
    [
      "System: " + u.system,
      "Node Name: " + u.node,
      "Release: " + u.release,
      "Version: " + u.version,
      "Machine: " + u.machine,
      "Processor: " + u.processor,
      "" ]
  }

  /** `bootTime` is the boot timestamp already rendered as `YYYY-MM-DD HH:MM:SS`. */
  function BootBody(bootTime: string): seq<string>
  {
    ["Boot Time: " + bootTime, ""]
  }

  /** The line of the core at position `i` of the per-core samples. */
  function CoreLine(i: nat, pct: real, fmt: NumberFormat): string
  {
    "  Core " + NatToString(i) + ": " + fmt.repr(pct) + "%"
  }

  /** The `enumerate` loop over the per-core samples: one line per sample, numbered from 0 in input order. */
  function CoreLines(samples: seq<real>, fmt: NumberFormat): (r: seq<string>)
    ensures |r| == |samples|
    ensures forall i :: 0 <= i < |samples| ==> r[i] == CoreLine(i, samples[i], fmt)
  {
    if |samples| == 0 then []
    else
      var init := samples[..|samples| - 1];
      assert forall i :: 0 <= i < |init| ==> init[i] == samples[i];
      CoreLines(init, fmt) + [CoreLine(|samples| - 1, samples[|samples| - 1], fmt)]
  }

  /** The CPU section; reading the frequencies of a missing frequency record raises, so there is none. */
  function CpuBody(cpu: Cpu, fmt: NumberFormat): Option<seq<string>>
  {
    match cpu.freq
    case None => None
    case Some(freq) =>
      Some(
        [ "Physical cores: " + CountText(cpu.physicalCores),
          "Total cores:    " + CountText(cpu.logicalCores),
          "Max Frequency: " + fmt.fixed2(freq.max) + "Mhz",
          "Min Frequency: " + fmt.fixed2(freq.min) + "Mhz",
          "Current Frequency: " + fmt.fixed2(freq.current) + "Mhz",
          "CPU Usage per Core:" ]
        + CoreLines(cpu.perCore, fmt)
        + [ "Total CPU Usage: " + fmt.repr(cpu.total) + "%", "" ])
  }

  function MemoryBody(m: VirtualMemory, fmt: NumberFormat): seq<string>
  {
    [
      "Total:     " + Bytes(m.total, fmt),
      "Available: " + Bytes(m.available, fmt),
      "Used:      " + Bytes(m.used, fmt),
      "Percent:   " + fmt.repr(m.percent) + "%",
      "" ]
  }

  /** The line naming a partition, written whether or not its usage is known. */
  function PartitionHeader(p: Partition): string
  {
    "[" + p.device + " mounted on " + p.mountpoint + " (" + p.fstype + ")]"
  }

  /** The usage lines of a partition: five lines when its usage is known, none otherwise. */
  function UsageLines(p: Partition, fmt: NumberFormat): seq<string>
  {
    match p.usage
    case Usage(du) =>
      [ "  Total: " + Bytes(du.total, fmt),
        "  Used:  " + Bytes(du.used, fmt),
        "  Free:  " + Bytes(du.free, fmt),
        "  Percent: " + fmt.repr(du.percent) + "%",
        "" ]
    case _ => []
  }

  /**
   * The loop over the partitions: each writes its header and then, when its
   * usage query succeeded, its usage lines; a `PermissionError` skips to the
   * next partition, and any other exception escapes `gather`.
   */
  function DiskLines(parts: seq<Partition>, fmt: NumberFormat): (r: Option<seq<string>>)
    ensures r.None? <==> exists i :: 0 <= i < |parts| && parts[i].usage.QueryError?
  {
    if |parts| == 0 then Some([])
    else if parts[0].usage.QueryError? then None
    else
      match DiskLines(parts[1..], fmt)
      case None =>
        assert exists i :: 0 <= i < |parts[1..]| && parts[1..][i].usage.QueryError?;
        None
      case Some(rest) =>
        assert forall i :: 1 <= i < |parts| ==> parts[i] == parts[1..][i - 1];
        Some([PartitionHeader(parts[0])] + UsageLines(parts[0], fmt) + rest)
  }

  /** The disk section; reading the counters of a missing I/O record raises, so there is none. */
  function DiskBody(parts: seq<Partition>, io: Option<IoCounters>, fmt: NumberFormat): Option<seq<string>>
  {
    match (DiskLines(parts, fmt), io)
    case (Some(lines), Some(c)) =>
      Some(lines + ["Disk I/O \U{2014} Read: " + Bytes(c.readBytes, fmt) + ", Write: " + Bytes(c.writeBytes, fmt), ""])
    case _ => None
  }

  /** The network section is a fixed notice: no network data is ever read. */
  const NetworkBody: seq<string> := [NetworkNotice, ""]

  /** The sections of the report in order, or `None` when one of the queries raises out of `gather`. */
  function GatherSections(m: Metrics, fmt: NumberFormat): Option<seq<Section>>
  {
    match (CpuBody(m.cpu, fmt), DiskBody(m.partitions, m.io, fmt))
    case (Some(cpu), Some(disk)) =>
      Some([ Section(Titles[0], SystemBody(m.uname)),
             Section(Titles[1], BootBody(m.bootTime)),
             Section(Titles[2], cpu),
             Section(Titles[3], MemoryBody(m.memory, fmt)),
             Section(Titles[4], disk),
             Section(Titles[5], GpuBody(m.gpu)),
             Section(Titles[6], NetworkBody) ])
    case _ => None
  }

  /** The report's lines: each section's header, then its body. */
  function Flatten(sections: seq<Section>): seq<string>
  {
    if |sections| == 0 then []
    else [Header(sections[0].title)] + sections[0].body + Flatten(sections[1..])
  }

  function GatherLines(m: Metrics, fmt: NumberFormat): Option<seq<string>>
  {
    match GatherSections(m, fmt)
    case None => None
    case Some(sections) => Some(Flatten(sections))
  }

  /** `gather()`: the report lines joined with newlines. */
  function Gather(m: Metrics, fmt: NumberFormat): Option<string>
  {
    match GatherLines(m, fmt)
    case None => None
    case Some(lines) => Some(Join(lines, '\n'))
  }

  // Properties of the assembled report.

  /** No partition's usage query raised anything other than `PermissionError`. */
  predicate UsageAnswered(parts: seq<Partition>)
  {
    forall i :: 0 <= i < |parts| ==> !parts[i].usage.QueryError?
  }

  /** Every query whose failure escapes `gather` succeeded. */
  predicate Completes(m: Metrics)
  {
    m.cpu.freq.Some? && m.io.Some? && UsageAnswered(m.partitions)
  }

  /** A header line: the only lines of the report that start with `=`. */
  predicate IsHeaderLine(line: string)
  {
    |line| > 0 && line[0] == '='
  }

  /** The header lines of `lines`, in order. */
  function HeaderLines(lines: seq<string>): seq<string>
  {
    if |lines| == 0 then []
    else (if IsHeaderLine(lines[0]) then [lines[0]] else []) + HeaderLines(lines[1..])
  }

  lemma {:induction false} HeaderLinesAppend(a: seq<string>, b: seq<string>)
    ensures HeaderLines(a + b) == HeaderLines(a) + HeaderLines(b)
  {
    if |a| == 0 {
      assert a + b == b;
    } else {
      assert (a + b)[0] == a[0];
      assert (a + b)[1..] == a[1..] + b;
      HeaderLinesAppend(a[1..], b);
    }
  }

  /** No line of `body` is a header line. */
  ghost predicate Plain(body: seq<string>)
  {
    forall i :: 0 <= i < |body| ==> !IsHeaderLine(body[i])
  }

  lemma {:induction false} PlainHasNoHeaders(body: seq<string>)
    requires Plain(body)
    ensures HeaderLines(body) == []
  {
    if |body| > 0 {
      assert Plain(body[1..]) by {
        forall i | 0 <= i < |body[1..]|
          ensures !IsHeaderLine(body[1..][i])
        {
          assert body[1..][i] == body[i + 1];
        }
      }
      PlainHasNoHeaders(body[1..]);
    }
  }

  /** A line that starts with a fixed text not beginning with `=` is not a header line. */
  lemma Prefixed(prefix: string, rest: string)
    requires |prefix| > 0 && prefix[0] != '='
    ensures !IsHeaderLine(prefix + rest)
  {
    assert (prefix + rest)[0] == prefix[0];
  }

  lemma PlainAppend(a: seq<string>, b: seq<string>)
    requires Plain(a) && Plain(b)
    ensures Plain(a + b)
  {
    forall i | 0 <= i < |a + b|
      ensures !IsHeaderLine((a + b)[i])
    {
      if i >= |a| {
        assert (a + b)[i] == b[i - |a|];
      }
    }
  }

  lemma {:induction false} FlattenHeaders(sections: seq<Section>)
    requires forall i :: 0 <= i < |sections| ==> Plain(sections[i].body)
    ensures |HeaderLines(Flatten(sections))| == |sections|
    ensures forall i :: 0 <= i < |sections| ==> HeaderLines(Flatten(sections))[i] == Header(sections[i].title)
  {
    if |sections| > 0 {
      var s := sections[0];
      FlattenHeaders(sections[1..]);
      HeaderLinesAppend([Header(s.title)] + s.body, Flatten(sections[1..]));
      HeaderLinesAppend([Header(s.title)], s.body);
      PlainHasNoHeaders(s.body);
      assert IsHeaderLine(Header(s.title));
      assert HeaderLines([Header(s.title)]) == [Header(s.title)] by {
        assert [Header(s.title)][1..] == [];
      }
    }
  }

  lemma {:induction false} FlattenAppend(a: seq<Section>, b: seq<Section>)
    ensures Flatten(a + b) == Flatten(a) + Flatten(b)
  {
    if |a| == 0 {
      assert a + b == b;
    } else {
      assert (a + b)[0] == a[0];
      assert (a + b)[1..] == a[1..] + b;
      FlattenAppend(a[1..], b);
    }
  }

  lemma SystemPlain(u: Uname)
    ensures Plain(SystemBody(u))
  {
    Prefixed("System: ", u.system);
    Prefixed("Node Name: ", u.node);
    Prefixed("Release: ", u.release);
    Prefixed("Version: ", u.version);
    Prefixed("Machine: ", u.machine);
    Prefixed("Processor: ", u.processor);
  }

  lemma BootPlain(bootTime: string)
    ensures Plain(BootBody(bootTime))
  {
    Prefixed("Boot Time: ", bootTime);
  }

  lemma CpuPlain(cpu: Cpu, fmt: NumberFormat)
    requires cpu.freq.Some?
    ensures Plain(CpuBody(cpu, fmt).value)
  {
    var freq := cpu.freq.value;
    var cores := CoreLines(cpu.perCore, fmt);
    var head := [ "Physical cores: " + CountText(cpu.physicalCores),
          "Total cores:    " + CountText(cpu.logicalCores),
          "Max Frequency: " + fmt.fixed2(freq.max) + "Mhz",
          "Min Frequency: " + fmt.fixed2(freq.min) + "Mhz",
          "Current Frequency: " + fmt.fixed2(freq.current) + "Mhz",
          "CPU Usage per Core:" ];
    var tail := [ "Total CPU Usage: " + fmt.repr(cpu.total) + "%", "" ];
    Prefixed("Physical cores: ", CountText(cpu.physicalCores));
    Prefixed("Total cores:    ", CountText(cpu.logicalCores));
    Prefixed("Max Frequency: ", fmt.fixed2(freq.max) + "Mhz");
    Prefixed("Min Frequency: ", fmt.fixed2(freq.min) + "Mhz");
    Prefixed("Current Frequency: ", fmt.fixed2(freq.current) + "Mhz");
    assert "Max Frequency: " + fmt.fixed2(freq.max) + "Mhz" == "Max Frequency: " + (fmt.fixed2(freq.max) + "Mhz");
    assert "Min Frequency: " + fmt.fixed2(freq.min) + "Mhz" == "Min Frequency: " + (fmt.fixed2(freq.min) + "Mhz");
    assert "Current Frequency: " + fmt.fixed2(freq.current) + "Mhz"
      == "Current Frequency: " + (fmt.fixed2(freq.current) + "Mhz");
    assert Plain(head);
    forall i | 0 <= i < |cores|
      ensures !IsHeaderLine(cores[i])
    {
      var pct := cpu.perCore[i];
      assert cores[i] == "  Core " + (NatToString(i) + ": " + fmt.repr(pct) + "%");
      Prefixed("  Core ", NatToString(i) + ": " + fmt.repr(pct) + "%");
    }
    Prefixed("Total CPU Usage: ", fmt.repr(cpu.total) + "%");
    assert "Total CPU Usage: " + fmt.repr(cpu.total) + "%" == "Total CPU Usage: " + (fmt.repr(cpu.total) + "%");
    assert Plain(tail);
    PlainAppend(head, cores);
    PlainAppend(head + cores, tail);
  }

  lemma MemoryPlain(mem: VirtualMemory, fmt: NumberFormat)
    ensures Plain(MemoryBody(mem, fmt))
  {
    Prefixed("Total:     ", Bytes(mem.total, fmt));
    Prefixed("Available: ", Bytes(mem.available, fmt));
    Prefixed("Used:      ", Bytes(mem.used, fmt));
    Prefixed("Percent:   ", fmt.repr(mem.percent) + "%");
    assert "Percent:   " + fmt.repr(mem.percent) + "%" == "Percent:   " + (fmt.repr(mem.percent) + "%");
  }

  lemma PartitionPlain(p: Partition, fmt: NumberFormat)
    ensures Plain([PartitionHeader(p)] + UsageLines(p, fmt))
  {
    var rest := p.device + " mounted on " + p.mountpoint + " (" + p.fstype + ")]";
    assert PartitionHeader(p) == "[" + rest;
    Prefixed("[", rest);
    match p.usage
    case Usage(du) =>
      Prefixed("  Total: ", Bytes(du.total, fmt));
      Prefixed("  Used:  ", Bytes(du.used, fmt));
      Prefixed("  Free:  ", Bytes(du.free, fmt));
      Prefixed("  Percent: ", fmt.repr(du.percent) + "%");
      assert "  Percent: " + fmt.repr(du.percent) + "%" == "  Percent: " + (fmt.repr(du.percent) + "%");
    case _ =>
  }

  lemma {:induction false} DiskLinesPlain(parts: seq<Partition>, fmt: NumberFormat)
    requires UsageAnswered(parts)
    ensures DiskLines(parts, fmt).Some? && Plain(DiskLines(parts, fmt).value)
  {
    if |parts| > 0 {
      assert UsageAnswered(parts[1..]) by {
        forall i | 0 <= i < |parts[1..]|
          ensures !parts[1..][i].usage.QueryError?
        {
          assert parts[1..][i] == parts[i + 1];
        }
      }
      DiskLinesPlain(parts[1..], fmt);
      PartitionPlain(parts[0], fmt);
      PlainAppend([PartitionHeader(parts[0])] + UsageLines(parts[0], fmt), DiskLines(parts[1..], fmt).value);
    }
  }

  lemma DiskPlain(parts: seq<Partition>, io: Option<IoCounters>, fmt: NumberFormat)
    requires io.Some? && UsageAnswered(parts)
    ensures DiskBody(parts, io, fmt).Some? && Plain(DiskBody(parts, io, fmt).value)
  {
    var c := io.value;
    DiskLinesPlain(parts, fmt);
    var rest := Bytes(c.readBytes, fmt) + ", Write: " + Bytes(c.writeBytes, fmt);
    var ioLine := "Disk I/O \U{2014} Read: " + rest;
    Prefixed("Disk I/O \U{2014} Read: ", rest);
    PlainAppend(DiskLines(parts, fmt).value, [ioLine, ""]);
  }

  lemma {:induction false} RenderLinesPlain(lines: seq<string>)
    ensures Plain(RenderLines(lines))
  {
    if |lines| > 0 {
      match ParseLine(lines[0])
      case None =>
        DiagnosticPlain();
      case Some(row) =>
        RenderLinesPlain(lines[1..]);
        RowPlain(row);
        PlainAppend(RenderRow(row), RenderLines(lines[1..]));
    }
  }

  lemma RowPlain(row: GpuRow)
    ensures Plain(RenderRow(row))
  {
    Prefixed("Name:        ", row.name);
    Prefixed("Utilization: ", row.utilization + "%");
    assert "Utilization: " + row.utilization + "%" == "Utilization: " + (row.utilization + "%");
    Prefixed("Memory:      ", row.memoryUsed + "/" + row.memoryTotal + " MiB");
    assert "Memory:      " + row.memoryUsed + "/" + row.memoryTotal + " MiB"
      == "Memory:      " + (row.memoryUsed + "/" + row.memoryTotal + " MiB");
  }

  lemma DiagnosticPlain()
    ensures Plain(Diagnostic)
  {
    assert DiagnosticLine[0] == ToolName[0] == 'n';
  }

  lemma GpuPlain(q: GpuQuery)
    ensures Plain(GpuBody(q))
  {
    if q.Lines? {
      RenderLinesPlain(q.lines);
    } else {
      DiagnosticPlain();
    }
  }

  /**
   * Whatever the disk and GPU queries returned, a report that is produced
   * has exactly seven sections with the fixed titles in the fixed order, and
   * its header lines are exactly those seven headers in that order.
   */
  lemma SectionOrder(m: Metrics, fmt: NumberFormat)
    requires Completes(m)
    ensures GatherSections(m, fmt).Some?
    ensures |GatherSections(m, fmt).value| == |Titles|
    ensures forall i :: 0 <= i < |Titles| ==> GatherSections(m, fmt).value[i].title == Titles[i]
    ensures |HeaderLines(GatherLines(m, fmt).value)| == |Titles|
    ensures forall i :: 0 <= i < |Titles| ==> HeaderLines(GatherLines(m, fmt).value)[i] == Header(Titles[i])
  {
    SectionTitles(m, fmt);
    SectionsPlain(m, fmt);
    var secs := GatherSections(m, fmt).value;
    assert GatherLines(m, fmt).value == Flatten(secs);
    FlattenHeaders(secs);
  }

  lemma SectionTitles(m: Metrics, fmt: NumberFormat)
    requires Completes(m)
    ensures GatherSections(m, fmt).Some?
    ensures |GatherSections(m, fmt).value| == |Titles|
    ensures forall i :: 0 <= i < |Titles| ==> GatherSections(m, fmt).value[i].title == Titles[i]
  {
    GatherSectionsValue(m, fmt);
  }

  /** The sections of a produced report, spelled out. */
  lemma GatherSectionsValue(m: Metrics, fmt: NumberFormat)
    requires Completes(m)
    ensures GatherSections(m, fmt).Some?
    ensures CpuBody(m.cpu, fmt).Some? && DiskBody(m.partitions, m.io, fmt).Some?
    ensures GatherSections(m, fmt).value ==
      [ Section(Titles[0], SystemBody(m.uname)),
        Section(Titles[1], BootBody(m.bootTime)),
        Section(Titles[2], CpuBody(m.cpu, fmt).value),
        Section(Titles[3], MemoryBody(m.memory, fmt)),
        Section(Titles[4], DiskBody(m.partitions, m.io, fmt).value),
        Section(Titles[5], GpuBody(m.gpu)),
        Section(Titles[6], NetworkBody) ]
  {
  }

  lemma SectionsPlain(m: Metrics, fmt: NumberFormat)
    requires Completes(m)
    ensures GatherSections(m, fmt).Some?
    ensures forall i :: 0 <= i < |GatherSections(m, fmt).value| ==> Plain(GatherSections(m, fmt).value[i].body)
  {
    GatherSectionsValue(m, fmt);
    SystemPlain(m.uname);
    BootPlain(m.bootTime);
    CpuPlain(m.cpu, fmt);
    MemoryPlain(m.memory, fmt);
    DiskPlain(m.partitions, m.io, fmt);
    GpuPlain(m.gpu);
    assert Plain(NetworkBody);
  }

  /** Number of occurrences of `x` in `lines`. */
  function Occurrences(lines: seq<string>, x: string): nat
  {
    if |lines| == 0 then 0 else (if lines[0] == x then 1 else 0) + Occurrences(lines[1..], x)
  }

  lemma {:induction false} OccurrencesOfHeader(lines: seq<string>, h: string)
    requires IsHeaderLine(h)
    ensures Occurrences(lines, h) == Occurrences(HeaderLines(lines), h)
  {
    if |lines| > 0 {
      OccurrencesOfHeader(lines[1..], h);
      var first := if IsHeaderLine(lines[0]) then [lines[0]] else [];
      OccurrencesAppend(first, HeaderLines(lines[1..]), h);
      assert first == [] || first[1..] == [];
    }
  }

  lemma {:induction false} OccurrencesAppend(a: seq<string>, b: seq<string>, x: string)
    ensures Occurrences(a + b, x) == Occurrences(a, x) + Occurrences(b, x)
  {
    if |a| == 0 {
      assert a + b == b;
    } else {
      assert (a + b)[0] == a[0];
      assert (a + b)[1..] == a[1..] + b;
      OccurrencesAppend(a[1..], b, x);
    }
  }

  /** Each of the seven section headers occurs exactly once among the report's lines. */
  lemma HeadersOccurOnce(m: Metrics, fmt: NumberFormat, k: nat)
    requires Completes(m) && k < |Titles|
    ensures GatherLines(m, fmt).Some?
    ensures Occurrences(GatherLines(m, fmt).value, Header(Titles[k])) == 1
  {
    var lines := GatherLines(m, fmt).value;
    SectionOrder(m, fmt);
    var h := HeaderLines(lines);
    assert IsHeaderLine(Header(Titles[k]));
    OccurrencesOfHeader(lines, Header(Titles[k]));
    HeadersDistinct();
    assert forall i, j :: 0 <= i < j < |h| ==> h[i] != h[j];
    OccurrencesOfDistinct(h, k);
  }

  /** The seven headers are pairwise different. */
  lemma HeadersDistinct()
    ensures forall i, j :: 0 <= i < j < |Titles| ==> Header(Titles[i]) != Header(Titles[j])
  {
    forall i, j | 0 <= i < j < |Titles|
      ensures Header(Titles[i]) != Header(Titles[j])
    {
      if i == 1 && j == 5 {
        assert Header(Titles[1])[6] == 'B';
        assert Header(Titles[5])[6] == 'G';
      } else {
        assert |Titles[i]| != |Titles[j]|;
      }
    }
  }

  lemma {:induction false} OccurrencesOfDistinct(xs: seq<string>, k: nat)
    requires k < |xs|
    requires forall i, j :: 0 <= i < j < |xs| ==> xs[i] != xs[j]
    ensures Occurrences(xs, xs[k]) == 1
  {
    if k == 0 {
      OccurrencesAbsent(xs[1..], xs[0]);
    } else {
      OccurrencesOfDistinct(xs[1..], k - 1);
      assert xs[1..][k - 1] == xs[k];
    }
  }

  lemma {:induction false} OccurrencesAbsent(xs: seq<string>, x: string)
    requires forall i :: 0 <= i < |xs| ==> xs[i] != x
    ensures Occurrences(xs, x) == 0
  {
    if |xs| > 0 {
      OccurrencesAbsent(xs[1..], x);
    }
  }

  /** A report that is produced always ends with the network header, the redaction notice and a blank line. */
  lemma NetworkLast(m: Metrics, fmt: NumberFormat)
    requires Completes(m)
    ensures GatherLines(m, fmt).Some?
    ensures |GatherLines(m, fmt).value| >= 3
    ensures GatherLines(m, fmt).value[|GatherLines(m, fmt).value| - 3..]
      == [Header("Network Information"), "**omitted due to security restrictions**", ""]
  {
    GatherSectionsValue(m, fmt);
    var secs := GatherSections(m, fmt).value;
    var network := Section(Titles[6], NetworkBody);
    assert secs == secs[..6] + [network];
    FlattenLast(secs[..6], network);
  }

  /** The lines of a last section close the report: its header, then its body. */
  lemma FlattenLast(init: seq<Section>, last: Section)
    ensures Flatten(init + [last]) == Flatten(init) + [Header(last.title)] + last.body
  {
    FlattenAppend(init, [last]);
    assert Flatten([last]) == [Header(last.title)] + last.body + Flatten([]);
  }

  /**
   * `gather` raises exactly when the frequency record is missing, the I/O
   * counters are missing, or some partition's usage query fails with an
   * exception other than `PermissionError`.
   */
  lemma GatherFailsIff(m: Metrics, fmt: NumberFormat)
    ensures Gather(m, fmt).None? <==>
      || m.cpu.freq.None?
      || m.io.None?
      || exists i :: 0 <= i < |m.partitions| && m.partitions[i].usage.QueryError?
  {
  }

  /**
   * The GPU outcome touches only the GPU section: replacing it changes
   * neither whether the report is produced nor any other section.
   */
  lemma GpuOutcomeIsolated(m: Metrics, fmt: NumberFormat, q: GpuQuery)
    ensures GatherSections(m.(gpu := q), fmt).Some? <==> GatherSections(m, fmt).Some?
    ensures GatherSections(m, fmt).Some? ==>
      var a, b := GatherSections(m, fmt).value, GatherSections(m.(gpu := q), fmt).value;
      && b[5] == Section(Titles[5], GpuBody(q))
      && forall i :: 0 <= i < |a| && i != 5 ==> a[i] == b[i]
  {
  }

  /** Start of the block of partition `i` within the partition lines. */
  function Offset(parts: seq<Partition>, i: nat): nat
    requires i <= |parts|
  {
    if i == 0 then 0 else Offset(parts, i - 1) + BlockSize(parts[i - 1])
  }

  /** Number of lines a partition contributes: its header, plus five usage lines when its usage is known. */
  function BlockSize(p: Partition): nat
  {
    if p.usage.Usage? then 6 else 1
  }

  lemma {:induction false} OffsetShift(parts: seq<Partition>, i: nat)
    requires 1 <= i <= |parts|
    ensures Offset(parts, i) == BlockSize(parts[0]) + Offset(parts[1..], i - 1)
  {
    if i > 1 {
      OffsetShift(parts, i - 1);
      assert parts[1..][i - 2] == parts[i - 1];
    }
  }

  lemma {:induction false} OffsetMonotonic(parts: seq<Partition>, i: nat, j: nat)
    requires i <= j <= |parts|
    ensures Offset(parts, i) <= Offset(parts, j)
  {
    if i < j {
      OffsetMonotonic(parts, i, j - 1);
    }
  }

  /** The partition lines are as many as the partitions' block sizes add up to. */
  lemma {:induction false} DiskLinesLength(parts: seq<Partition>, fmt: NumberFormat)
    requires DiskLines(parts, fmt).Some?
    ensures |DiskLines(parts, fmt).value| == Offset(parts, |parts|)
  {
    if |parts| > 0 {
      DiskLinesLength(parts[1..], fmt);
      OffsetShift(parts, |parts|);
    }
  }

  /**
   * In the partition lines, partition `i` owns lines `Offset(i)` up to
   * `Offset(i + 1)`: its header first, whatever its usage query did, then
   * the five usage lines exactly when its usage is known.
   */
  lemma {:induction false} DiskLayout(parts: seq<Partition>, fmt: NumberFormat, i: nat)
    requires DiskLines(parts, fmt).Some? && i < |parts|
    ensures |DiskLines(parts, fmt).value| == Offset(parts, |parts|)
    ensures Offset(parts, i + 1) == Offset(parts, i) + (if parts[i].usage.Usage? then 6 else 1)
    ensures Offset(parts, i + 1) <= Offset(parts, |parts|)
    ensures DiskLines(parts, fmt).value[Offset(parts, i)] == PartitionHeader(parts[i])
    ensures DiskLines(parts, fmt).value[Offset(parts, i) + 1..Offset(parts, i + 1)] == UsageLines(parts[i], fmt)
  {
    DiskLinesLength(parts, fmt);
    OffsetMonotonic(parts, i + 1, |parts|);
    DiskLinesCons(parts, fmt);
    var tail := parts[1..];
    var rest := DiskLines(tail, fmt).value;
    var block := [PartitionHeader(parts[0])] + UsageLines(parts[0], fmt);
    assert DiskLines(parts, fmt).value == block + rest;
    if i == 0 {
      assert Offset(parts, 1) == |block|;
      ConcatPrefix(block, rest);
    } else {
      DiskLayout(tail, fmt, i - 1);
      var lo, hi := Offset(tail, i - 1), Offset(tail, i);
      OffsetShift(parts, i);
      OffsetShift(parts, i + 1);
      assert Offset(parts, i) == |block| + lo;
      assert Offset(parts, i + 1) == |block| + hi;
      assert tail[i - 1] == parts[i];
      ConcatSlices(block, rest, lo, hi);
    }
  }

  /** The partition lines start with the first partition's block. */
  lemma DiskLinesCons(parts: seq<Partition>, fmt: NumberFormat)
    requires DiskLines(parts, fmt).Some? && |parts| > 0
    ensures DiskLines(parts[1..], fmt).Some?
    ensures DiskLines(parts, fmt).value
      == [PartitionHeader(parts[0])] + UsageLines(parts[0], fmt) + DiskLines(parts[1..], fmt).value
    ensures |UsageLines(parts[0], fmt)| + 1 == BlockSize(parts[0])
  {
  }

  lemma ConcatPrefix(a: seq<string>, b: seq<string>)
    requires |a| > 0
    ensures (a + b)[0] == a[0]
    ensures (a + b)[1..|a|] == a[1..]
  {
  }

  /** Positions in the second half of a concatenation, shifted by the first half's length. */
  lemma ConcatSlices(a: seq<string>, b: seq<string>, i: nat, j: nat)
    requires i < j <= |b|
    ensures (a + b)[|a| + i] == b[i]
    ensures (a + b)[|a| + i + 1..|a| + j] == b[i + 1..j]
  {
  }

  /**
   * The CPU section lists one line per per-core sample, labelled `Core 0`
   * to `Core N-1` in input order, between the `CPU Usage per Core:` line and
   * the total usage line.
   */
  lemma CpuCoreLines(cpu: Cpu, fmt: NumberFormat)
    requires cpu.freq.Some?
    ensures |CpuBody(cpu, fmt).value| == |cpu.perCore| + 8
    ensures CpuBody(cpu, fmt).value[5] == "CPU Usage per Core:"
    ensures forall i :: 0 <= i < |cpu.perCore| ==>
      CpuBody(cpu, fmt).value[6 + i] == "  Core " + NatToString(i) + ": " + fmt.repr(cpu.perCore[i]) + "%"
    ensures CpuBody(cpu, fmt).value[6 + |cpu.perCore|] == "Total CPU Usage: " + fmt.repr(cpu.total) + "%"
  {
  }

  /** The report text splits back into its lines at the newlines, provided no line holds a newline itself. */
  lemma GatherTextLines(m: Metrics, fmt: NumberFormat)
    requires Completes(m)
    ensures Gather(m, fmt).Some? && GatherLines(m, fmt).Some?
    ensures (forall i :: 0 <= i < |GatherLines(m, fmt).value| ==> '\n' !in GatherLines(m, fmt).value[i])
      ==> Split(Gather(m, fmt).value, '\n') == GatherLines(m, fmt).value
  {
    var lines := GatherLines(m, fmt).value;
    var secs := GatherSections(m, fmt).value;
    assert lines == [Header(secs[0].title)] + secs[0].body + Flatten(secs[1..]);
    if forall i :: 0 <= i < |lines| ==> '\n' !in lines[i] {
      SplitJoin(lines, '\n');
    }
  }
}
