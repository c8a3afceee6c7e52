# cloud-bandwidth: a Dafny model of the polling cycle

cloud-bandwidth measures the bandwidth between the local host and a list of iperf3
endpoints, and it reports every measurement to a Graphite server as one plaintext
line `<prefix>.<endpoint name> <value> <unix time>\n`. This project models the core of
`cbandwidth.go` and `helpers.go`:

- **The iperf3 invocation.** `main` chooses it once at start-up. It is either the local
  `iperf3` binary or a throw-away container run. For the container, `docker` is preferred
  and `podman` is the fallback; having neither is fatal.
- **`runCmd`.** It trims the command, runs it under `bash -c`, and trims the combined output.
- **One polling cycle.** Every `(address, name)` pair of every `iperf-servers` entry is
  visited, in order, with a download test and then an upload test. Each test runs its
  command. If the output contains `error`, nothing is sent. Otherwise one metric line,
  stamped with the current Unix time, is handed to `sendGraphite`.
- **`helpers.go`.** `splitPerfPair`; `convertKbitsToBits`, as exact decimal arithmetic
  with Go's `math.Round` (halves away from zero); and the `address:name` list that
  `printPerfServers` builds.

Modules, one per file:

| file | module | contents |
|---|---|---|
| `wrappers.dfy` | `Wrappers` | `Option` and `Result` |
| `text.dfy` | `Text` | Go's `strings.TrimSpace` (with `unicode.IsSpace`), `Contains`, `Split` and `Join` for a one-character separator |
| `decimal.dfy` | `Decimal` | `%d` rendering of integers; the plain-decimal subset of `strconv.ParseFloat`; `math.Round` on an exact decimal |
| `endpoints.dfy` | `Endpoints` | each `iperf-servers` entry (a Go map) as the sequence of pairs one iteration visits; `Flatten`, the visiting order of the nested loops |
| `helpers.dfy` | `Helpers` | `helpers.go` |
| `bandwidth.dfy` | `Bandwidth` | binary selection, `runCmd`, the two command texts, the metric line, and the cycle |

The cycle is specified on values and implemented imperatively:

- **Specification.** `CycleCommands` lists the commands one cycle runs. `CycleSamples`
  lists the samples it sends. Both are stated for any output oracle `out` (type
  `Oracle`): `out(k, address, dir)` is the trimmed output of the test in direction `dir`
  of the pair visited `k`-th. Each test has its own output, so an address listed in two
  entries can succeed at one visit and fail at the other, as it can in the program, which
  runs iperf3 again at each visit.
- **Implementation.** The methods `RunCycle`, `TestEntry`, `TestEndpoint` and
  `TestDirection` follow `main`'s nested loops. They are proved against those functions,
  with `out` instantiated to `Outputs`: `runCmd` of the command built for that address
  and direction, run as the cycle's `(2k + Slot(dir))`-th command.
- **The tool and the clock.** Both are indexed by the position of a command in the
  cycle, counting from 0: the pair visited `k`-th runs its download command at position
  `2k` and its upload command at `2k + 1`. The shell tool is a function
  `tool: nat -> string -> string`: `tool(i)` maps the text of the `i`-th command to its
  combined output. The clock is a function `clock: nat -> int`: `clock(i)` is the time
  `main` reads right after the `i`-th command.

Facts about the code that shape the model:

- **The value sent.** Each metric line carries the trimmed output of the iperf3 pipeline
  as text (`cbandwidth.go:115-116` and `133-134`). The model takes no view on its unit:
  the code's comment on `convertKbitsToBits` calls such a value Kbps (`helpers.go:23`),
  while the log line beside the send calls it bps (`cbandwidth.go:113`). The cycle never
  calls `convertKbitsToBits`, so a tool output of `500` is sent as `500`.
- **Rounding.** `convertKbitsToBits` rounds with `math.Round`, which rounds halves away
  from zero: `-2.5` gives `-3000`.
- **Configuration.** `config.yaml` is re-read at the top of every cycle
  (`cbandwidth.go:80-92`), so the model takes the parsed `Config` of one cycle as a
  parameter. The only flags are `debug`, `nocontainer`, `image`, `config` and `help`
  (`cbandwidth.go:58-63`).

## Model

| member | source | states |
|---|---|---|
| Bandwidth.CheckContainerRuntime | cbandwidth.go:175-192 | succeeds iff docker or podman answers its version query; docker when it does, podman only when docker does not; a fatal error otherwise |
| Bandwidth.IperfBinary | cbandwidth.go:73-78 | `iperf3` in no-container mode; otherwise `<runtime> run -i --rm <image>` for the runtime chosen; an error exactly when a container is wanted and neither runtime works |
| Bandwidth.BinariesNeedNoTrim | cbandwidth.go:73-78 | every binary that can be chosen is non-empty and starts with a non-space character |
| Bandwidth.UploadInsertsReverse | cbandwidth.go:101-106 | the upload command is the download command with ` -R` inserted after `-P 1`, and everything else is equal |
| Bandwidth.DownloadIsNotUpload | cbandwidth.go:101-106 | no download command equals any upload command, whatever the addresses |
| Bandwidth.TestArgsInjective | cbandwidth.go:101-106 | the arguments after the direction flags determine the endpoint address |
| Bandwidth.DownloadCommandInjective | cbandwidth.go:101-106 | different addresses give different download commands |
| Bandwidth.UploadCommandInjective | cbandwidth.go:119-124 | different addresses give different upload commands |
| Bandwidth.RunCmdTrimmed | cbandwidth.go:145-157 | runCmd's output has no white space at either end, and trimming it again leaves it unchanged |
| Bandwidth.RunCmdIgnoresPadding | cbandwidth.go:145-157 | white space around a command changes neither the command bash runs nor the output returned |
| Bandwidth.CommandsNeedNoTrim | cbandwidth.go:101-106 | with such a binary, the trim at the start of runCmd leaves both test commands unchanged |
| Bandwidth.OutputsOfCommands | cbandwidth.go:145-157 | for such a binary, the outputs of the pair visited k-th are the trimmed outputs the tool gives at positions 2k and 2k + 1 for its download and upload commands exactly as built |
| Bandwidth.MetricLineFields | cbandwidth.go:115-116 | for a space-free metric name and value, a metric line ends in a newline and splits at its spaces into exactly three fields: name, value, and a timestamp text that parses back to the timestamp |
| Bandwidth.IntToStringHasNoSpace | cbandwidth.go:115-116 | the `%d` text of a timestamp holds no space |
| Bandwidth.TestDirection | cbandwidth.go:97-117 | one test of the pair visited k-th: the command for the direction is run as the cycle's (2k + Slot(dir))-th command; the lines sent are none when the output contains `error`, else the direction's metric line under the endpoint's name (its address when the name is empty) |
| Bandwidth.TestEndpoint | cbandwidth.go:97-135 | one endpoint: the download command, then the upload command; the download line(s), then the upload line(s), stamped clock(2k) and clock(2k+1) |
| Bandwidth.TestEntry | cbandwidth.go:96-136 | the inner loop over one entry extends the commands and the lines of the pairs visited before it by those of the entry's pairs, in order |
| Bandwidth.RunCycle | cbandwidth.go:94-137 | one cycle runs exactly CycleCommands and sends exactly the lines of CycleSamples over the flattened entries; it runs 2 commands per pair, and sends at most one line per command |
| Bandwidth.EmittedLines | cbandwidth.go:107-117 | a direction sends nothing when its output contains `error`, and exactly its one metric line otherwise |
| Bandwidth.LinesAppend | cbandwidth.go:115-134 | the lines of consecutive samples are the consecutive lines: lines are sent in sample order |
| Bandwidth.CycleStep | cbandwidth.go:96-136 | visiting one more pair appends its two commands and its samples to those of the pairs before it |
| Bandwidth.CycleCommandsAt | cbandwidth.go:101-124 | the pair visited p-th has its download command at position 2p and its upload command at 2p+1, whatever the outputs: the upload test runs even after a failed download |
| Bandwidth.PairSamplesCases | cbandwidth.go:107-135 | for one pair: download sample, then upload sample, each present exactly when its output lacks `error` |
| Bandwidth.CycleSamplesComplete | cbandwidth.go:107-135 | every test whose output lacks `error` has its sample sent in the cycle |
| Bandwidth.CycleSamplesSound | cbandwidth.go:107-135 | every sample sent in the cycle is that of some visited pair and direction whose output lacks `error`, stamped with the time after that test's command |
| Bandwidth.CycleAllSucceed | cbandwidth.go:95-137 | when no output contains `error`, 2 samples go out per pair: pair p's download at position 2p and its upload at 2p+1 |
| Bandwidth.CycleAllFail | cbandwidth.go:107-128 | when every output contains `error`, the cycle sends nothing |
| Bandwidth.PairSamplesTimes | cbandwidth.go:114-132 | with a clock that never goes back, a pair's samples are stamped no earlier than the time after its download command, and in order |
| Bandwidth.CycleTimestampsOrdered | cbandwidth.go:114-132 | with a clock that never goes back, the cycle's samples go out with non-decreasing timestamps |
| Bandwidth.CycleRepeats | cbandwidth.go:80-141 | two cycles over the same configuration and outputs send the same samples in the same order, differing only in their timestamps |
| Bandwidth.SinglePairCycle | cbandwidth.go:95-96 | a configuration of one entry with one pair visits exactly that pair |
| Bandwidth.PairLines | cbandwidth.go:97-135 | the lines sent for the pair visited k-th: its download line stamped clock(2k) unless that test failed, then its upload line stamped clock(2k + 1) unless that test failed |
| Bandwidth.SinglePairLines | cbandwidth.go:95-135 | the lines of a one-pair cycle: the download line unless it failed, then the upload line unless it failed |
| Bandwidth.RepeatedPairCycle | cbandwidth.go:95-96 | a pair listed in two entries is visited twice, as pair 0 and pair 1, and the cycle sends what both visits send, in order |
| Bandwidth.ToolOutputs | cbandwidth.go:101-124 | the outputs the cycle sees for the pair visited k-th are the trimmed texts the tool prints for its two commands at positions 2k and 2k + 1 |
| Bandwidth.ScenarioNamedEndpoint | cbandwidth.go:95-135 | endpoint 10.0.0.5 named `branch-a`, with tool outputs 500 and 200: the cycle sends `bandwidth.download.branch-a 500 <t0>` then `bandwidth.upload.branch-a 200 <t1>` |
| Bandwidth.NamedEndpointLines | cbandwidth.go:95-135 | the lines of that scenario, given its two outputs |
| Bandwidth.ScenarioUnnamedEndpoint | cbandwidth.go:97-128 | endpoint 10.0.0.6 without a name, with download output 750 and upload output `error: unable to connect`: the cycle sends only `bandwidth.download.10.0.0.6 750 <t0>` |
| Bandwidth.UnnamedEndpointLines | cbandwidth.go:97-128 | the lines of that scenario, given its two outputs |
| Bandwidth.ScenarioRepeatedAddress | cbandwidth.go:95-135 | 10.0.0.5 named `branch-a` listed in two entries, whose second download prints `error: unable to connect` while its other tests print 500, 200 and 750: the cycle sends the first visit's two lines and the second visit's upload line stamped `<t3>`, and no line for the failed test |
| Bandwidth.RepeatedAddressLines | cbandwidth.go:95-135 | the lines of that scenario, given its four outputs |
| Text.TrimSpaceEnds | cbandwidth.go:145-157 | a trimmed text is empty or has non-space characters at both ends |
| Text.TrimSpacePadded | cbandwidth.go:145-157 | what TrimSpace removes is white space only: the result sits in the input between two runs of white space |
| Text.TrimSpaceUnique | cbandwidth.go:145-157 | any text with non-space ends, padded only by white space, is the trimmed text: TrimSpace is fully determined |
| Text.TrimSpaceIdempotent | cbandwidth.go:145-157 | trimming twice is trimming once |
| Text.TrimSpacePadding | cbandwidth.go:145-157 | white space added around a text is removed again |
| Text.LeadingSpacesRun | cbandwidth.go:145-157 | the leading run counted is all white space, and the character after it is not |
| Text.TrailingSpacesRun | cbandwidth.go:145-157 | the trailing run counted is all white space, and the character before it is not |
| Text.ContainsIffOccurs | cbandwidth.go:107-125 | Contains holds exactly when the sentinel occurs at some index of the output |
| Text.SplitParts | helpers.go:19-21 | Split yields one more part than there are separators, and no part holds a separator |
| Text.JoinSplit | helpers.go:19-21 | joining the parts of a split gives back the text |
| Text.SplitJoin | helpers.go:19-21 | splitting the join of separator-free parts gives back the parts |
| Text.SplitAround | helpers.go:19-21 | splitting at one separator splits the two sides independently |
| Text.SplitNoSeparator | helpers.go:19-21 | a text without the separator is one part |
| Helpers.SplitPerfPair | helpers.go:19-21 | one more part than there are colons, no part holds a colon, and joining the parts with `:` gives back the input |
| Helpers.PerfPairRoundTrip | helpers.go:19-21 | a colon-free address and name printed as `address:name` split back into exactly the two |
| Helpers.ConvertKbitsToBits | helpers.go:24-34 | an error (with value 0 and the rejected text) exactly when the text does not parse; otherwise a multiple of 1000 within 500 of 1000 times the parsed value |
| Helpers.ConvertFraction | helpers.go:24-34 | a signed `whole.frac` digit text converts without error to 1000 times the rounding of the number it spells |
| Helpers.ConvertIntegerText | helpers.go:24-34 | the `%d` text of any integer n converts to n*1000 without error |
| Helpers.ConvertRoundsUp | helpers.go:24-34 | `12345.6` converts to 12346000 |
| Helpers.ConvertHalf | helpers.go:24-34 | `0.5` converts to 1000: a half rounds up |
| Helpers.ConvertNegativeHalf | helpers.go:24-34 | `-2.5` converts to -3000: a half rounds away from zero |
| Helpers.ConvertRejects | helpers.go:24-29 | `abc`, the empty text and `.` are rejected with value 0 and a ParseFloat error on the text |
| Helpers.PrintPerfServers | helpers.go:37-47 | the list holds one `address:name` text per pair of every entry, in the visiting order of the nested loops |
| Decimal.RoundHalfAway | helpers.go:30 | the result is within half a unit of the number, and on a tie it is the one farther from zero (Go's math.Round) |
| Decimal.ParsesFraction | helpers.go:26 | a signed `whole.frac` digit text parses to the number its digits spell |
| Decimal.ParseDecimalChars | helpers.go:26 | only texts of a sign, digits and a point, with at least one character, parse |
| Decimal.IntToStringParses | cbandwidth.go:115-116 | the `%d` text of any integer parses back to that integer |
| Decimal.NatToStringRoundTrip | cbandwidth.go:115-116 | reading back the decimal digits of n gives n |
| Decimal.IntToString | cbandwidth.go:115-116 | the `%d` text of an integer starts with a minus sign exactly when the integer is negative, and every other character is a digit |
| Decimal.NatToString | cbandwidth.go:115-116 | the `%d` text of a non-negative integer is a non-empty digit string without a leading zero |
| Decimal.DigitsCanonical | cbandwidth.go:115-116 | every digit string without leading zeros is the `%d` text of its value |
| Endpoints.FlattenAt | cbandwidth.go:95-96 | pair j of entry i is visited at position TotalPairs(entries[..i]) + j, right after all the pairs of the entries before it, and the whole entry fits in the visiting order |
| Endpoints.FlattenDistinct | cbandwidth.go:95-96 | two different pairs (i, j) and (i', j') get two different positions, so with FlattenAt every pair is visited exactly once |
| Endpoints.EntryBlock | cbandwidth.go:95-96 | the pairs of entry i all come before those of any later entry |
| Endpoints.FlattenSnoc | cbandwidth.go:95-96 | finishing one more entry appends its pairs to the visiting order |

## Left out

- Reading and parsing `config.yaml` (`cbandwidth.go:82-92`) is not modelled. The cycle takes the parsed `Config`, and a read or parse failure is fatal in the code.
- Process execution is not modelled. `bash -c` and the pipeline of `iperf3 | tail | head | awk` are a function from a command to its combined output. Probing `docker --version` and `podman --version` becomes two booleans.
- The error value runCmd returns is not modelled. The code only logs it, and the `error` sentinel in the output decides what is sent.
- `sendGraphite` (`cbandwidth.go:160-172`) is not modelled: dialling, writing and the connection errors, which are only logged. The model ends with the lines handed to it. The code writes each line with `fmt.Fprintf(conn, msg)`, as a format string, so a `%` in an endpoint name or an output would be rewritten on the wire. `net.JoinHostPort` is not modelled either.
- `time.Now`, `time.ParseDuration`, `time.Sleep` and the endless polling loop are not modelled. The clock is a parameter, and one cycle is modelled.
- Flag parsing and `init` (`cbandwidth.go:44-71`) are not modelled. The values of `-nocontainer` and `-image` decide the binary of every command: they are the `noContainer` and `imageRepo` parameters of `IperfBinary`. `-config` chooses the file whose parsed contents are the `Config` parameter. With `-help`, `main` prints the flag defaults and exits with status 1 before choosing a binary (`cbandwidth.go:68-71`), so nothing is run or sent; the model describes a run without it. `-debug` and the logging calls have no effect on what is run or sent.
- `validateIP` (`helpers.go:11-17`) is not modelled: the cycle never calls it, and IP parsing is Go's `net` package.
- Helpers.ConvertKbitsToBits: computed on the exact decimal value of the text. The model does not capture the rounding of `ParseFloat(kbps, 32)` to the nearest float32 before `math.Round`. That rounding changes the result for any text whose float32 lands on the other side of a rounding boundary:
  - integers above 2^24: `16777217` gives 16777216000 in Go;
  - long fractions: `0.49999999` becomes 0.5 and gives 1000 in Go, 0 here;
  - fractions above 2^22: `4194304.4` becomes 4194304.5 and gives 4194305000 in Go, 4194304000 here.
  It also leaves out exponent, hexadecimal, `Inf`, `NaN` and underscore syntax, which are parse errors in the model, as well as the range error and the overflow of `int` on huge values.
- Helpers.ConvertFraction: states the exact-decimal result for every `whole.frac` text. It agrees with Go only where rounding the text to float32 does not move it across a half-integer, as in `12345.6`, `0.5` and `-2.5`. It disagrees on texts such as `0.49999999` and `4194304.4`.
- Helpers.ConvertIntegerText: states n*1000 for every integer n. It agrees with Go for |n| <= 2^24, since those integers are exact in float32. Above that, Go gives the nearest float32 times 1000 (`16777217` gives 16777216000), and it also leaves out `int` overflow.
- Decimal.ParsesFraction: gives the exact decimal a `whole.frac` text spells. `ParseFloat(kbps, 32)` gives the nearest float32 to it, which differs whenever the decimal is not exactly a float32 (`0.1`, `0.49999999`, `16777217`).
- The order of a Go map iteration is not modelled. Each entry is a sequence of pairs in the order one iteration visits them, and duplicate keys are the caller's concern.
- `graphite_api/grafana-config.js` is a dashboard definition, not program logic.
