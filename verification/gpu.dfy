/**
 * The GPU part of the report: parsing the lines printed by
 * `nvidia-smi --query-gpu=name,utilization.gpu,memory.total,memory.used
 * --format=csv,noheader,nounits` and rendering one block per device.
 */
module Gpu {
  import opened Wrappers
  import opened Text

  /** The result of running the query tool: it failed in any way, or it printed these lines. */
  datatype GpuQuery = QueryFailed | Lines(lines: seq<string>)

  /** One device line, unpacked; every field stays text, as the tool printed it. */
  datatype GpuRow = GpuRow(name: string, utilization: string, memoryTotal: string, memoryUsed: string)

  const ToolName := "nvidia-smi"

  /** The line the report writes when the query or any parse fails. */
  const DiagnosticLine := ToolName + " not available or failed; skipping GPU info."

  const Diagnostic: seq<string> := [DiagnosticLine, ""]

  /** The fields of a line: split at every comma (no quoting), each stripped of surrounding whitespace. */
  function Fields(line: string): (fs: seq<string>)
    ensures |fs| == Count(line, ',') + 1
  {
    StripAll(Split(line, ','))
  }

  /** Every piece stripped, in order. */
  function StripAll(pieces: seq<string>): (fs: seq<string>)
    ensures |fs| == |pieces|
    ensures forall i :: 0 <= i < |fs| ==> fs[i] == Strip(pieces[i])
  {
    if |pieces| == 0 then [] else [Strip(pieces[0])] + StripAll(pieces[1..])
  }

  /**
   * Unpacking the fields into name, utilization, total and used memory,
   * which raises unless there are exactly four of them.
   */
  function ParseLine(line: string): (r: Option<GpuRow>)
    ensures r.Some? <==> Count(line, ',') == 3
  {
    var fs := Fields(line);
    if |fs| == 4 then Some(GpuRow(fs[0], fs[1], fs[2], fs[3])) else None
  }

  /**
   * A line parses exactly when it holds three commas, and then the device's
   * fields are the four comma-separated pieces with whitespace stripped.
   */
  lemma ParseLineArity(line: string)
    ensures ParseLine(line).Some? <==> Count(line, ',') == 3
    ensures ParseLine(line).Some? ==>
      var p := Split(line, ',');
      ParseLine(line) == Some(GpuRow(Strip(p[0]), Strip(p[1]), Strip(p[2]), Strip(p[3])))
  {
  }

  /** The four report lines of one device; memory is shown used first, then total. */
  function RenderRow(row: GpuRow): (block: seq<string>)
  {
    [ "Name:        " + row.name,
      "Utilization: " + row.utilization + "%",
      "Memory:      " + row.memoryUsed + "/" + row.memoryTotal + " MiB",
      "" ]
  }

  /** The blocks of several devices, one after the other. */
  function Blocks(rows: seq<GpuRow>): (r: seq<string>)
    ensures |r| == 4 * |rows|
  {
    if |rows| == 0 then [] else RenderRow(rows[0]) + Blocks(rows[1..])
  }

  /** Device `i`'s block occupies lines 4i .. 4i+3 of the blocks. */
  lemma {:induction false} BlocksLayout(rows: seq<GpuRow>, i: nat)
    requires i < |rows|
    ensures Blocks(rows)[4 * i..4 * i + 4] == RenderRow(rows[i])
  {
    if i > 0 {
      BlocksLayout(rows[1..], i - 1);
      var rest := Blocks(rows[1..]);
      assert Blocks(rows) == RenderRow(rows[0]) + rest;
      assert Blocks(rows)[4 * i..4 * i + 4] == rest[4 * (i - 1)..4 * (i - 1) + 4];
    }
  }

  /**
   * The loop over the tool's lines: each line that parses appends its
   * block; the first line that does not ends the loop with the diagnostic,
   * and the blocks already appended stay.
   */
  function RenderLines(lines: seq<string>): (r: seq<string>)
  {
    if |lines| == 0 then []
    else
      match ParseLine(lines[0])
      case None => Diagnostic
      case Some(row) => RenderRow(row) + RenderLines(lines[1..])
  }

  /** The body of the GPU section. */
  function GpuBody(q: GpuQuery): seq<string>
  {
    match q
    case QueryFailed => Diagnostic
    case Lines(lines) => RenderLines(lines)
  }

  /** The rows are what the first |rows| lines parse to. */
  ghost predicate ParsesTo(lines: seq<string>, rows: seq<GpuRow>)
  {
    |rows| <= |lines| && forall i :: 0 <= i < |rows| ==> ParseLine(lines[i]) == Some(rows[i])
  }

  /**
   * When every line parses, the section is the devices' blocks; when line
   * `k` is the first that does not, it is the blocks of lines 0 .. k-1
   * followed by the diagnostic, whatever comes after line `k`.
   */
  lemma {:induction false} RenderLinesPrefix(lines: seq<string>, rows: seq<GpuRow>)
    requires ParsesTo(lines, rows)
    requires |rows| < |lines| ==> ParseLine(lines[|rows|]).None?
    ensures RenderLines(lines) == Blocks(rows) + (if |rows| < |lines| then Diagnostic else [])
  {
    if |rows| == 0 {
      assert Blocks(rows) == [];
      if |lines| > 0 {
        assert RenderLines(lines) == Diagnostic;
        assert RenderLines(lines) == Blocks(rows) + Diagnostic;
      } else {
        assert RenderLines(lines) == [];
      }
    } else {
      assert ParseLine(lines[0]) == Some(rows[0]);
      assert ParsesTo(lines[1..], rows[1..]) by {
        forall i | 0 <= i < |rows[1..]|
          ensures ParseLine(lines[1..][i]) == Some(rows[1..][i])
        {
          assert lines[1..][i] == lines[i + 1];
        }
      }
      if |rows| < |lines| {
        assert lines[1..][|rows[1..]|] == lines[|rows|];
      }
      RenderLinesPrefix(lines[1..], rows[1..]);
      var tail := if |rows| < |lines| then Diagnostic else [];
      assert RenderLines(lines) == RenderRow(rows[0]) + RenderLines(lines[1..]);
      assert Blocks(rows) == RenderRow(rows[0]) + Blocks(rows[1..]);
      assert RenderLines(lines) == RenderRow(rows[0]) + (Blocks(rows[1..]) + tail);
      assert RenderLines(lines) == Blocks(rows) + tail;
    }
  }

  /**
   * The GPU section body for either outcome of the query: only the
   * diagnostic when the tool failed; otherwise the blocks of the parsable
   * leading lines, then the diagnostic if a line failed to parse.
   */
  lemma {:induction false} GpuBodyShape(q: GpuQuery, rows: seq<GpuRow>)
    requires q.Lines? ==> ParsesTo(q.lines, rows) && (|rows| < |q.lines| ==> ParseLine(q.lines[|rows|]).None?)
    ensures q.QueryFailed? ==> GpuBody(q) == Diagnostic
    ensures q.Lines? ==> GpuBody(q) == Blocks(rows) + (if |rows| < |q.lines| then Diagnostic else [])
  {
    match q
    case QueryFailed =>
    case Lines(lines) =>
      RenderLinesPrefix(lines, rows);
  }

  /** The lines after the first unparsable one are never looked at. */
  lemma {:induction false} RenderLinesStops(lines: seq<string>, k: nat)
    requires k < |lines| && ParseLine(lines[k]).None?
    requires forall i :: 0 <= i < k ==> ParseLine(lines[i]).Some?
    ensures RenderLines(lines) == RenderLines(lines[..k + 1])
  {
    var head := lines[..k + 1];
    assert head[0] == lines[0];
    if k > 0 {
      assert ParseLine(lines[0]).Some?;
      assert head[1..] == lines[1..][..k];
      RenderLinesStops(lines[1..], k - 1);
    }
  }

  /** The line the tool prints for a device: the four fields separated by a comma and a space. */
  function ToolLine(row: GpuRow): string
  {
    row.name + ", " + row.utilization + ", " + row.memoryTotal + ", " + row.memoryUsed
  }

  /** A field the parser can recover: no comma inside, no whitespace at either end. */
  predicate CleanField(f: string)
  {
    ',' !in f && Trimmed(f)
  }

  /** Parsing the tool's line of a device with clean fields gives the device back. */
  lemma ParseToolLine(row: GpuRow)
    requires CleanField(row.name) && CleanField(row.utilization)
    requires CleanField(row.memoryTotal) && CleanField(row.memoryUsed)
    ensures ParseLine(ToolLine(row)) == Some(row)
  {
    var line := ToolLine(row);
    var pieces := ToolPieces(row);
    ToolLineSplit(row);
    PaddedField(" ", row.utilization);
    PaddedField(" ", row.memoryTotal);
    PaddedField(" ", row.memoryUsed);
    PaddedField("", row.name);
    var fs := Fields(line);
    assert pieces == [row.name, " " + row.utilization, " " + row.memoryTotal, " " + row.memoryUsed];
    assert Strip(pieces[0]) == row.name;
    assert Strip(pieces[1]) == row.utilization;
    assert Strip(pieces[2]) == row.memoryTotal;
    assert Strip(pieces[3]) == row.memoryUsed;
    assert fs[0] == Strip(pieces[0]) == row.name;
    assert fs[1] == Strip(pieces[1]) == row.utilization;
    assert fs[2] == Strip(pieces[2]) == row.memoryTotal;
    assert fs[3] == Strip(pieces[3]) == row.memoryUsed;
  }

  /** The comma-separated pieces of a device's tool line, before stripping. */
  function ToolPieces(row: GpuRow): seq<string>
  {
    [row.name, " " + row.utilization, " " + row.memoryTotal, " " + row.memoryUsed]
  }

  lemma ToolLineSplit(row: GpuRow)
    requires CleanField(row.name) && CleanField(row.utilization)
    requires CleanField(row.memoryTotal) && CleanField(row.memoryUsed)
    ensures Split(ToolLine(row), ',') == ToolPieces(row)
  {
    var pieces := ToolPieces(row);
    ToolLineIsJoin(row);
    SpacedCommaFree(row.utilization);
    SpacedCommaFree(row.memoryTotal);
    SpacedCommaFree(row.memoryUsed);
    assert forall i :: 0 <= i < |pieces| ==> ',' !in pieces[i];
    SplitJoin(pieces, ',');
  }

  lemma ToolLineIsJoin(row: GpuRow)
    ensures ToolLine(row) == Join(ToolPieces(row), ',')
  {
    var p := ToolPieces(row);
    JoinFour(p);
    CommaSpace(row.name, row.utilization);
    CommaSpace(row.name + ", " + row.utilization, row.memoryTotal);
    CommaSpace(row.name + ", " + row.utilization + ", " + row.memoryTotal, row.memoryUsed);
  }

  lemma CommaSpace(a: string, b: string)
    ensures a + ", " + b == a + "," + (" " + b)
  {
    assert ", " == "," + " ";
  }

  lemma SpacedCommaFree(f: string)
    requires ',' !in f
    ensures ',' !in " " + f
  {
    assert forall i :: 1 <= i < |" " + f| ==> (" " + f)[i] == f[i - 1];
  }

  lemma JoinFour(p: seq<string>)
    requires |p| == 4
    ensures Join(p, ',') == p[0] + "," + p[1] + "," + p[2] + "," + p[3]
  {
    assert Join(p[3..], ',') == p[3];
    assert Join(p[2..], ',') == p[2] + "," + p[3] by {
      assert p[2..][1..] == p[3..];
    }
    assert Join(p[1..], ',') == p[1] + "," + p[2] + "," + p[3] by {
      assert p[1..][1..] == p[2..];
    }
  }

  /** A trimmed field after leading whitespace strips back to itself. */
  lemma PaddedField(lead: string, f: string)
    requires AllSpace(lead) && Trimmed(f)
    ensures Strip(lead + f) == f
  {
    StripPadded(lead, f, "");
    assert lead + f + "" == lead + f;
  }

  /** A device name containing a comma makes its line fail to parse: the split is not CSV. */
  lemma CommaInNameRejected(row: GpuRow)
    requires ',' in row.name
    ensures ParseLine(ToolLine(row)).None?
  {
    var rest := ", " + row.utilization + ", " + row.memoryTotal + ", " + row.memoryUsed;
    assert ToolLine(row) == row.name + rest;
    CountAppend(row.name, rest, ',');
    CountPositive(row.name, ',');
    assert rest == ", " + (row.utilization + (", " + (row.memoryTotal + (", " + row.memoryUsed))));
    CountAppend(", ", row.utilization + (", " + (row.memoryTotal + (", " + row.memoryUsed))), ',');
    CountAppend(row.utilization, ", " + (row.memoryTotal + (", " + row.memoryUsed)), ',');
    CountAppend(", ", row.memoryTotal + (", " + row.memoryUsed), ',');
    CountAppend(row.memoryTotal, ", " + row.memoryUsed, ',');
    CountAppend(", ", row.memoryUsed, ',');
  }

  /** A sample `nvidia-smi` line, `NVIDIA X, 42, 8192, 4096`, parses to its four fields. */
  lemma ExampleDeviceParses()
    ensures ParseLine("NVIDIA X, 42, 8192, 4096") == Some(GpuRow("NVIDIA X", "42", "8192", "4096"))
  {
    var row := GpuRow("NVIDIA X", "42", "8192", "4096");
    assert ToolLine(row) == "NVIDIA X, 42, 8192, 4096";
    assert CleanField(row.name) && CleanField(row.utilization);
    assert CleanField(row.memoryTotal) && CleanField(row.memoryUsed);
    ParseToolLine(row);
  }

  /** The device of that sample line is shown with 42% utilization and memory as used/total, 4096/8192 MiB. */
  lemma ExampleDeviceBlock()
    ensures RenderRow(GpuRow("NVIDIA X", "42", "8192", "4096"))
      == ["Name:        NVIDIA X", "Utilization: 42%", "Memory:      4096/8192 MiB", ""]
  {
    assert "Name:        " + "NVIDIA X" == "Name:        NVIDIA X";
    assert "Utilization: " + "42" + "%" == "Utilization: 42%";
    assert "Memory:      " + "4096" + "/" + "8192" + " MiB" == "Memory:      4096/8192 MiB";
  }
}
