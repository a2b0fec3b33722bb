# systemreq — a Dafny model of the report builder

`systemreq.py` takes a one-shot snapshot of the host (platform identity, boot
time, CPU, memory, disks, GPUs) and renders it as one plain-text report. This
project models the pure part of that script: turning the raw measurements into
report lines and text. Every operating-system query becomes a field of an input
record, so `gather` becomes a function from that record to the report.

- `wrappers.dfy` — `Option`, standing for Python's `None`.
- `text.dfy` — the parts of Python's `str` the report uses:
  - `Text.Split`: `split(",")` (systemreq.py:91).
  - `Text.Join`: `"\n".join` (systemreq.py:107).
  - `Text.Strip`: `strip()` (systemreq.py:91).
  - `Text.NatToString`: `str(n)` of a core number (systemreq.py:48).
  - The float renderings `{x:.2f}` and `{x}` are left abstract as the two fields of `NumberFormat`.
- `size.dfy` — `get_size` (systemreq.py:6-12):
  - `Size.ScaleFrom` is the loop over the unit ladder `"", K, M, G, T, P`, dividing by 1024 at each step.
  - `Size.GetSize` is the whole function before rendering.
  - `Size.SizeText` is the f-string text it yields (systemreq.py:11).
- `gpu.dfy` — the GPU section (systemreq.py:82-100):
  - `Gpu.ParseLine`: unpacking one `nvidia-smi` line (systemreq.py:91).
  - `Gpu.RenderRow`: a device's four-line block (systemreq.py:92-97).
  - `Gpu.RenderLines`: the loop over the lines, stopping at the first failure (systemreq.py:90-100).
  - `Gpu.GpuBody`: the section body, including the failure path (systemreq.py:84-100).
- `report.dfy` — `gather` (systemreq.py:14-107). `Metrics` is the input record.
  - The section bodies are `Report.SystemBody` (systemreq.py:17-28), `Report.BootBody` (:30-34), `Report.CpuBody` (:36-50), `Report.MemoryBody` (:52-61), `Report.DiskBody` (:63-80, with `Report.DiskLines` for the partition loop at :65-77), `Gpu.GpuBody` and `Report.NetworkBody` (:102-105).
  - Line helpers:
    - `Report.Header`: the section header lines (systemreq.py:18, 31, 37, 53, 64, 83, 103).
    - `Report.Bytes`: `get_size` with its default suffix `B` (systemreq.py:56-58, 72-74, 79).
    - `Report.CountText`: the f-string of a core count that may be `None` (systemreq.py:38-39).
    - `Report.CoreLine`: one per-core line (systemreq.py:48).
    - `Report.PartitionHeader`: a partition's first line (systemreq.py:66).
    - `Report.UsageLines`: a partition's usage lines (systemreq.py:71-77).
  - `Report.GatherSections` puts the sections in order under their fixed titles.
  - `Report.Flatten` and `Report.GatherLines` write each section as its header line followed by its body.
  - `Report.Gather` is `gather()` itself: those lines joined with newlines (systemreq.py:107).
  - The lemmas cover section order, disk layout, per-core lines, the network notice and when `gather` raises.

Behaviour of `systemreq.py` worth knowing:

- `get_size` has no "P" ceiling. For 1024^6 bytes or more the loop ends
  without a `return`, and the value is `None`. `Size.GetSize` returns `None`
  there, and `Size.SizeText` renders it as the text `None`, as the f-string does.
- A GPU line that fails to parse does not replace the GPU section. The blocks
  already written for earlier lines stay, and the diagnostic line and a blank
  line follow them.
- The network section is its header, the notice and a blank line. Every
  section's trailing blank line belongs to that section.
- An exception other than the ones `gather` catches is not turned into a
  placeholder: it escapes and no report is produced. `Report.Gather` returns
  `None` in those cases.

## Model

| member | source | states |
|---|---|---|
| Text.Split | systemreq.py:91 | `line.split(",")` has one more piece than there are separators, and no piece contains the separator |
| Text.JoinSplit | systemreq.py:91 | rejoining the pieces of a split with the separator gives back the original string |
| Text.SplitJoin | systemreq.py:107 | splitting a join of separator-free pieces gives back exactly those pieces |
| Text.StripRemovesOnlySpace | systemreq.py:91 | `strip()` removes only whitespace: the input is whitespace, then the result, then whitespace |
| Text.StripTrimmed | systemreq.py:91 | the result of `strip()` neither starts nor ends with a whitespace character |
| Text.StripPadded | systemreq.py:91 | stripping a trimmed field padded with whitespace on both sides recovers the field |
| Text.StripIdempotent | systemreq.py:91 | stripping twice is the same as stripping once |
| Text.NatToString | systemreq.py:48 | `str(i)` of a core number is a non-empty string of decimal digits with no leading zero |
| Text.DecimalRoundTrip | systemreq.py:48 | reading back the digits of `str(i)` gives `i` |
| Text.NatToStringInjective | systemreq.py:47-48 | different core numbers get different labels |
| Size.ScaleFrom | systemreq.py:9-12 | the loop from step k returns at the first step whose value is below 1024, and returns nothing exactly when the value is at least 1024^(6-k) |
| Size.GetSize | systemreq.py:6-12 | `get_size` returns nothing exactly when bytes ≥ 1024^6; otherwise a unit index below 6 with magnitude bytes / 1024^k below 1024 and bytes ≥ 1024^k; inputs below 1024 keep unit `""` and their value |
| Size.EarlierStepsAtLeastFactor | systemreq.py:9-12 | below 1024^6 a unit is returned, and every division done before reaching it started from a running value of at least 1024 (bytes ≥ 1024·1024^j at step j) |
| Size.GetSizeFitsUnit | systemreq.py:9-12 | the result is unit k with magnitude bytes / 1024^k if and only if k < 6, bytes < 1024^(k+1), and bytes ≥ 1024^k when k > 0 |
| Size.GetSizeMonotonic | systemreq.py:9-12 | a larger input never gets a smaller unit, nor a smaller magnitude at the same unit |
| Size.GetSizeExamples | systemreq.py:6-12 | 0, 1023, 1024, 1536 and 2·1024^5 bytes scale to (0, ""), (1023, ""), (1, K), (1.5, K) and (2, P); 1024^6 gets nothing |
| Size.SizeTextShape | systemreq.py:11 | the f-string text of `get_size` is `None` from 1024^6 bytes up, ends with the suffix below that, and is the two-decimal value plus suffix below 1024 |
| Size.SizeTextAtUnit | systemreq.py:9-11 | at the ladder step k that fits the input, the text is the two-decimal rendering of bytes / 1024^k, then the unit letter of step k, then the suffix |
| Size.SizeTextExamples | systemreq.py:6-11 | 1024 bytes renders as the two-decimal 1.0 followed by `KB`, and 2·1024^5 bytes as the two-decimal 2.0 followed by `PB` |
| Gpu.Fields | systemreq.py:91 | a line has one more field than it has commas |
| Gpu.ParseLine | systemreq.py:91 | the four-name unpacking succeeds exactly when the line contains three commas; any other number of commas raises |
| Gpu.ParseLineArity | systemreq.py:91 | a line parses exactly when it has three commas, and then the four fields are the stripped comma-separated pieces in the order name, utilization, total, used |
| Gpu.ParseToolLine | systemreq.py:85-91 | the line the tool prints for a device whose fields hold no comma and no outer whitespace parses back to that device |
| Gpu.CommaInNameRejected | systemreq.py:91 | a device name containing a comma makes its line fail to parse, because the split has no quoting |
| Gpu.ExampleDeviceParses | systemreq.py:91 | the line `NVIDIA X, 42, 8192, 4096` parses to name `NVIDIA X`, utilization 42, total 8192, used 4096 |
| Gpu.ExampleDeviceBlock | systemreq.py:92-97 | that device renders as four lines, with utilization `42%` and memory `4096/8192 MiB`, used first |
| Gpu.Blocks | systemreq.py:90-97 | the blocks of n devices are 4·n lines |
| Gpu.BlocksLayout | systemreq.py:90-97 | lines 4i to 4i+3 of the blocks are device i's block |
| Gpu.RenderLinesPrefix | systemreq.py:90-100 | if every line parses, the section is the devices' blocks; if line k is the first that fails, it is the blocks of lines 0 to k-1 followed by the diagnostic line and a blank line |
| Gpu.RenderLinesStops | systemreq.py:90-100 | the lines after the first unparsable line have no effect on the section |
| Gpu.GpuBodyShape | systemreq.py:84-100 | a failed query gives only the diagnostic line and a blank line; otherwise the body is as in `RenderLinesPrefix` |
| Report.CoreLines | systemreq.py:47-48 | one line per per-core sample, in input order; line i is `  Core i: <sample>%` |
| Report.CpuCoreLines | systemreq.py:37-50 | the CPU body has 8 lines plus one per core; the core lines sit between `CPU Usage per Core:` and the total usage line |
| Report.DiskLines | systemreq.py:65-77 | the partition loop raises exactly when some partition's usage query fails with an exception other than `PermissionError` |
| Report.DiskLinesLength | systemreq.py:65-77 | the partition lines number one per partition plus five per partition whose usage is known |
| Report.DiskLayout | systemreq.py:65-77 | partition i's block starts with its `[device mounted on mountpoint (fstype)]` line whether or not its usage is known, and the usage lines (Total, Used, Free, Percent, blank) follow exactly when it is known |
| Report.SectionOrder | systemreq.py:17-105 | when no query that escapes `gather` fails, the report is produced, has exactly the seven sections in the order System Information, Boot Time, CPU Info, Memory Usage, Disk Usage, GPU Usage, Network Information, and its header lines are exactly their seven headers in that order |
| Report.HeadersOccurOnce | systemreq.py:17-105 | when the report is produced, each of the seven section headers occurs exactly once among its lines |
| Report.NetworkLast | systemreq.py:102-107 | when no escaping query fails, the report is produced and always ends with the network header, `**omitted due to security restrictions**` and a blank line, whatever the inputs |
| Report.GatherFailsIff | systemreq.py:14-107 | `gather` raises exactly when the frequency record is missing, the I/O counters are missing, or a usage query fails with an exception other than `PermissionError` |
| Report.GpuOutcomeIsolated | systemreq.py:82-100 | changing the GPU query's outcome changes only the GPU section, never whether the report is produced |
| Report.GatherTextLines | systemreq.py:107 | when no escaping query fails, the report is produced, and its text splits back into its lines at newlines provided no line contains a newline |

## Left out

- Operating-system queries (`platform.uname`, `psutil.*`, `datetime.fromtimestamp`) are inputs. The boot time arrives already rendered as `YYYY-MM-DD HH:MM:SS`. The model covers a `None` core count, frequency record or I/O counters, and the exceptions of a partition's usage query. Every other query is assumed to succeed; one that raised would abort `gather`.
- The one-second blocking CPU sample is a wall-clock wait with no logic in it. The per-core samples are an input.
- Running `nvidia-smi` and decoding its output are I/O. The model takes either a failure or the list of lines that `splitlines()` produced. `splitlines()` itself, which also splits at `\r` and other line breaks, is not modelled.
- Float rendering (`{x:.2f}` and Python's `str` of a float) is left abstract as the two fields of `NumberFormat`. So rounding that shows a magnitude just under 1024 as `1024.00` is not modelled.
- Size.GetSize (and so Size.ScaleFrom, Size.GetSizeFitsUnit and Size.SizeText): divides exactly in real arithmetic. Python's first division, an int divided by 1024, is correctly rounded to a double, and that rounding is inexact once the count reaches 2^53; every later division by 1024 is exact. As a result, for the 64 counts from 1024^6 − 64 to 1024^6 − 1 the running value reaches exactly 1024.0 at the P step, so Python returns `None` where the model gives unit P. Magnitudes of counts above 2^53 bytes are shown after that rounding.
- `main` (printing and writing `system_report.txt`) is I/O and is not modelled.
