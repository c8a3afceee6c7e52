/**
  cbandwidth.go: the choice of the iperf3 invocation, runCmd's trimming, the command and
  metric texts, and one polling cycle over the configured endpoints.
 */
module Bandwidth {
  import opened Wrappers
  import opened Text
  import opened Decimal
  import opened Endpoints

  /** The parsed configuration file (`config.yaml`). */
  datatype Config = Config(
    testDuration: string,
    testInterval: string,
    serverPort: string,
    tsdbServer: string,
    tsdbPort: string,
    tsdbDownPrefix: string,
    tsdbUpPrefix: string,
    entry: seq<Servers>)

  /** The fatal startup error: container mode without docker or podman. */
  datatype StartupError = NoContainerRuntime

  /**
    checkContainerRuntime, given whether `docker --version` and `podman --version`
    succeed: docker is preferred, podman is the fallback, neither is fatal.
   */
  function CheckContainerRuntime(dockerOk: bool, podmanOk: bool): (r: Result<string, StartupError>)
    ensures r.Ok? <==> dockerOk || podmanOk
    ensures dockerOk ==> r == Ok("docker")
    ensures !dockerOk && podmanOk ==> r == Ok("podman")
  {
    if dockerOk then Ok("docker")
    else if podmanOk then Ok("podman")
    else Err(NoContainerRuntime)
  }

  /** iperfBinary as main sets it once before the loop. */
  function IperfBinary(noContainer: bool, imageRepo: string, dockerOk: bool, podmanOk: bool): (r: Result<string, StartupError>)
    ensures r.Err? <==> !noContainer && !dockerOk && !podmanOk
    ensures noContainer ==> r == Ok("iperf3")
    ensures !noContainer && dockerOk ==> r == Ok("docker" + " run -i --rm " + imageRepo)
    ensures !noContainer && !dockerOk && podmanOk ==> r == Ok("podman" + " run -i --rm " + imageRepo)
  {
    if noContainer then Ok("iperf3")
    else match CheckContainerRuntime(dockerOk, podmanOk)
      case Ok(runtime) => Ok(runtime + " run -i --rm " + imageRepo)
      case Err(e) => Err(e)
  }

  /** The text filter appended to every iperf3 command: the receiver's rate field. */
  const Pipeline := " | tail -n 3 | head -n1 | awk '{print $7}'"

  /** What both test commands pass after the direction flags: duration, format, port, address and the filter. */
  function TestArgs(cfg: Config, address: string): string
  {
    cfg.testDuration + " -f K -p " + cfg.serverPort + " -c " + address + Pipeline
  }

  /** The download test command for one endpoint address. */
  function DownloadCommand(binary: string, cfg: Config, address: string): string
  {
    binary + " -P 1 -t " + TestArgs(cfg, address)
  }

  /** The upload test command: the same test in reverse mode. */
  function UploadCommand(binary: string, cfg: Config, address: string): string
  {
    binary + " -P 1 -R -t " + TestArgs(cfg, address)
  }

  /** The upload command is the download command with ` -R` inserted after `-P 1`. */
  lemma UploadInsertsReverse(binary: string, cfg: Config, address: string)
    ensures var head := binary + " -P 1";
      var down := DownloadCommand(binary, cfg, address);
      |head| <= |down| && down[..|head|] == head
      && UploadCommand(binary, cfg, address) == head + " -R" + down[|head|..]
  {
    var head := binary + " -P 1";
    var rest := " -t " + TestArgs(cfg, address);
    assert DownloadCommand(binary, cfg, address) == head + rest;
    assert UploadCommand(binary, cfg, address) == head + " -R" + rest;
    assert (head + rest)[..|head|] == head && (head + rest)[|head|..] == rest;
  }

  /** The download and upload commands never coincide, whatever the addresses. */
  lemma DownloadIsNotUpload(binary: string, cfg: Config, a1: string, a2: string)
    ensures DownloadCommand(binary, cfg, a1) != UploadCommand(binary, cfg, a2)
  {
    var downFlags, upFlags := " -P 1 -t ", " -P 1 -R -t ";
    CharAt(binary, downFlags, TestArgs(cfg, a1), 7);
    CharAt(binary, upFlags, TestArgs(cfg, a2), 7);
    assert downFlags[7] != upFlags[7];
  }

  /** The character at offset i of the middle part of a three-part text. */
  lemma CharAt(x: string, y: string, z: string, i: nat)
    requires i < |y|
    ensures (x + y + z)[|x| + i] == y[i]
  {
  }

  /** The shared arguments name the address: different addresses give different arguments. */
  lemma TestArgsInjective(cfg: Config, a1: string, a2: string)
    requires TestArgs(cfg, a1) == TestArgs(cfg, a2)
    ensures a1 == a2
  {
    var head := cfg.testDuration + " -f K -p " + cfg.serverPort + " -c ";
    var c1, c2 := TestArgs(cfg, a1), TestArgs(cfg, a2);
    assert a1 == c1[|head|..|c1| - |Pipeline|];
    assert a2 == c2[|head|..|c2| - |Pipeline|];
  }

  /** Different addresses give different commands: each endpoint is tested under its own command. */
  lemma DownloadCommandInjective(binary: string, cfg: Config, a1: string, a2: string)
    requires DownloadCommand(binary, cfg, a1) == DownloadCommand(binary, cfg, a2)
    ensures a1 == a2
  {
    var head := binary + " -P 1 -t ";
    assert TestArgs(cfg, a1) == DownloadCommand(binary, cfg, a1)[|head|..];
    assert TestArgs(cfg, a2) == DownloadCommand(binary, cfg, a2)[|head|..];
    TestArgsInjective(cfg, a1, a2);
  }

  /** Different addresses give different upload commands too. */
  lemma UploadCommandInjective(binary: string, cfg: Config, a1: string, a2: string)
    requires UploadCommand(binary, cfg, a1) == UploadCommand(binary, cfg, a2)
    ensures a1 == a2
  {
    var head := binary + " -P 1 -R -t ";
    assert TestArgs(cfg, a1) == UploadCommand(binary, cfg, a1)[|head|..];
    assert TestArgs(cfg, a2) == UploadCommand(binary, cfg, a2)[|head|..];
    TestArgsInjective(cfg, a1, a2);
  }

  /**
    runCmd: bash runs the trimmed command and its combined output comes back without
    surrounding white space. `tool` stands for `bash -c`: the combined output of a command.
   */
  function RunCmd(command: string, tool: string -> string): string
  {
    TrimSpace(tool(TrimSpace(command)))
  }

  /** What runCmd returns has no white space at either end: trimming it again changes nothing. */
  lemma RunCmdTrimmed(command: string, tool: string -> string)
    ensures var output := RunCmd(command, tool);
      (output == "" || (!IsSpace(output[0]) && !IsSpace(output[|output| - 1])))
      && TrimSpace(output) == output
  {
    TrimSpaceEnds(tool(TrimSpace(command)));
    TrimSpaceIdempotent(tool(TrimSpace(command)));
  }

  /** White space around a command changes neither what runs nor what comes back. */
  lemma RunCmdIgnoresPadding(a: string, command: string, b: string, tool: string -> string)
    requires AllSpace(a) && AllSpace(b)
    ensures TrimSpace(a + command + b) == TrimSpace(command)
    ensures RunCmd(a + command + b, tool) == RunCmd(command, tool)
  {
    TrimSpacePadding(a, command, b);
  }

  /** The commands of a binary that starts with a non-space character reach bash unchanged. */
  lemma CommandsNeedNoTrim(binary: string, cfg: Config, address: string)
    requires binary != "" && !IsSpace(binary[0])
    ensures TrimSpace(DownloadCommand(binary, cfg, address)) == DownloadCommand(binary, cfg, address)
    ensures TrimSpace(UploadCommand(binary, cfg, address)) == UploadCommand(binary, cfg, address)
  {
    var down := DownloadCommand(binary, cfg, address);
    var up := UploadCommand(binary, cfg, address);
    assert down[0] == binary[0] && up[0] == binary[0];
    assert down[|down| - 1] == '\'' && up[|up| - 1] == '\'';
    assert PaddedAt(down, down, 0) by { assert down[..0] == [] && down[0..|down|] == down && down[|down|..] == []; }
    assert PaddedAt(up, up, 0) by { assert up[..0] == [] && up[0..|up|] == up && up[|up|..] == []; }
    TrimSpaceUnique(down, down, 0);
    TrimSpaceUnique(up, up, 0);
  }

  /** Every binary main can choose starts with a non-space character. */
  lemma BinariesNeedNoTrim(noContainer: bool, imageRepo: string, dockerOk: bool, podmanOk: bool)
    requires IperfBinary(noContainer, imageRepo, dockerOk, podmanOk).Ok?
    ensures var binary := IperfBinary(noContainer, imageRepo, dockerOk, podmanOk).value;
      binary != "" && !IsSpace(binary[0])
  {
  }

  datatype Direction = Download | Upload

  function Command(binary: string, cfg: Config, address: string, dir: Direction): string
  {
    if dir == Download then DownloadCommand(binary, cfg, address) else UploadCommand(binary, cfg, address)
  }

  function Prefix(cfg: Config, dir: Direction): string
  {
    if dir == Download then cfg.tsdbDownPrefix else cfg.tsdbUpPrefix
  }

  /** One data point as it is handed to sendGraphite. */
  datatype Sample = Sample(prefix: string, name: string, value: string, timestamp: int)

  /** The `%s.%s %s %d\n` line main formats for a sample. */
  function MetricLine(s: Sample): string
  {
    s.prefix + "." + s.name + " " + s.value + " " + IntToString(s.timestamp) + "\n"
  }

  /** The integer text of a timestamp holds no space. */
  lemma IntToStringHasNoSpace(n: int)
    ensures ' ' !in IntToString(n)
  {
    var digits := NatToString(Abs(n));
    assert ' ' !in digits by {
      forall k | 0 <= k < |digits| ensures digits[k] != ' ' { assert IsDigit(digits[k]); }
    }
    if n < 0 { assert IntToString(n) == "-" + digits; }
  }

  /**
    A metric line reads back as its three space-separated fields, the timestamp field
    parsing back to the timestamp, when the metric name and value hold no space.
   */
  lemma MetricLineFields(s: Sample)
    requires ' ' !in s.prefix && ' ' !in s.name && ' ' !in s.value
    ensures var line := MetricLine(s);
      |line| >= 1 && line[|line| - 1] == '\n'
      && Split(line[..|line| - 1], ' ') == [s.prefix + "." + s.name, s.value, IntToString(s.timestamp)]
      && ParseDecimal(Split(line[..|line| - 1], ' ')[2]) == Some(Dec(s.timestamp < 0, Abs(s.timestamp), 0))
  {
    var metric := s.prefix + "." + s.name;
    var ts := IntToString(s.timestamp);
    var line := MetricLine(s);
    assert line[..|line| - 1] == metric + [' '] + (s.value + [' '] + ts);
    IntToStringHasNoSpace(s.timestamp);
    assert ' ' !in metric;
    SplitAround(metric, s.value + [' '] + ts, ' ');
    SplitAround(s.value, ts, ' ');
    SplitNoSeparator(metric, ' ');
    SplitNoSeparator(s.value, ' ');
    SplitNoSeparator(ts, ' ');
    IntToStringParses(s.timestamp);
  }

  /**
    The outputs of one cycle's tests: out(k, address, dir) is the trimmed output of the
    test in direction dir of the pair visited k-th, whose address is `address`. Each test
    has its own output, so an address listed in two entries can succeed at one visit
    and fail at the other.
   */
  type Oracle = (nat, string, Direction) -> string

  /**
    The outputs main gets in a cycle: runCmd of the command it builds, run as the
    (2k + Slot(dir))-th command of the cycle. tool(i) is the combined output of the
    i-th command of the cycle, as a function of the command text. The cycle's
    specification below is stated for any Oracle, and the methods instantiate it with
    this one.
   */
  function Outputs(binary: string, cfg: Config, tool: nat -> string -> string): Oracle
  {
    (k: nat, address: string, dir: Direction) => RunCmd(Command(binary, cfg, address, dir), tool(2 * k + Slot(dir)))
  }

  /** Whether the output for an endpoint and direction carries the failure sentinel. */
  predicate Failed(out: Oracle, k: nat, address: string, dir: Direction)
  {
    Contains(out(k, address, dir), "error")
  }

  /**
    What main sends for one endpoint and direction: nothing when the output contains
    "error", else one sample under the endpoint's name stamped with ts.
   */
  function Emitted(cfg: Config, out: Oracle, k: nat, pair: (string, string), dir: Direction, ts: int): seq<Sample>
  {
    if Failed(out, k, pair.0, dir) then []
    else [Sample(Prefix(cfg, dir), EndpointName(pair.0, pair.1), out(k, pair.0, dir), ts)]
  }

  /** The position of a direction's command among the two commands of an endpoint. */
  function Slot(dir: Direction): nat
  {
    if dir == Download then 0 else 1
  }

  /**
    The commands one cycle hands to runCmd for the visited pairs: per pair the download
    command, then the upload command. (runCmd trims them, which leaves them unchanged:
    see CommandsNeedNoTrim.)
   */
  function CycleCommands(binary: string, cfg: Config, pairs: seq<(string, string)>): (cmds: seq<string>)
    ensures |cmds| == 2 * |pairs|
  {
    if pairs == [] then []
    else
      var p := pairs[|pairs| - 1];
      CycleCommands(binary, cfg, pairs[..|pairs| - 1])
        + [DownloadCommand(binary, cfg, p.0), UploadCommand(binary, cfg, p.0)]
  }

  /**
    What main sends for the pair it visits k-th: the download sample stamped clock(2k),
    then the upload sample stamped clock(2k + 1), each only if its test did not fail.
    clock(i) is the Unix time main reads right after its i-th command of the cycle
    (counting from 0).
   */
  function PairSamples(cfg: Config, out: Oracle, clock: nat -> int, k: nat, pair: (string, string)): seq<Sample>
  {
    Emitted(cfg, out, k, pair, Download, clock(2 * k)) + Emitted(cfg, out, k, pair, Upload, clock(2 * k + 1))
  }

  /** The samples one cycle sends for the visited pairs, in order. */
  function CycleSamples(cfg: Config, out: Oracle, clock: nat -> int, pairs: seq<(string, string)>): (samples: seq<Sample>)
    ensures |samples| <= 2 * |pairs|
  {
    if pairs == [] then []
    else
      var n := |pairs| - 1;
      CycleSamples(cfg, out, clock, pairs[..n]) + PairSamples(cfg, out, clock, n, pairs[n])
  }

  /** The lines handed to sendGraphite for the given samples. */
  function Lines(samples: seq<Sample>): (lines: seq<string>)
    ensures |lines| == |samples|
  {
    if samples == [] then [] else Lines(samples[..|samples| - 1]) + [MetricLine(samples[|samples| - 1])]
  }

  /** The lines of consecutive samples are the consecutive lines. */
  lemma {:induction false} LinesAppend(a: seq<Sample>, b: seq<Sample>)
    ensures Lines(a + b) == Lines(a) + Lines(b)
  {
    if b != [] {
      var n := |b| - 1;
      assert (a + b)[..|a| + n] == a + b[..n];
      LinesAppend(a, b[..n]);
    } else {
      assert a + b == a;
    }
  }

  /** One more visited pair adds its two commands and what its two tests send. */
  lemma CycleStep(binary: string, cfg: Config, out: Oracle, clock: nat -> int,
                  done: seq<(string, string)>, pair: (string, string))
    ensures CycleCommands(binary, cfg, done + [pair]) == CycleCommands(binary, cfg, done)
      + [DownloadCommand(binary, cfg, pair.0), UploadCommand(binary, cfg, pair.0)]
    ensures CycleSamples(cfg, out, clock, done + [pair])
      == CycleSamples(cfg, out, clock, done) + PairSamples(cfg, out, clock, |done|, pair)
  {
    var pairs := done + [pair];
    assert pairs[..|done|] == done && pairs[|done|] == pair;
  }

  /**
    One speed test of main's inner loop: run the command for the direction, then send one
    metric line under the endpoint's name stamped with ts unless the output contains
    "error". k is the number of pairs visited before this one in the cycle, so the
    command is the cycle's (2k + Slot(dir))-th. Returns the command as built and handed to
    runCmd, and the lines sent.
   */
  method TestDirection(cfg: Config, binary: string, tool: nat -> string -> string, k: nat, ts: int,
                       endpointAddress: string, endpointName: string, dir: Direction)
    returns (command: string, sent: seq<string>)
    ensures command == Command(binary, cfg, endpointAddress, dir)
    ensures sent == Lines(Emitted(cfg, Outputs(binary, cfg, tool), k, (endpointAddress, endpointName), dir, ts))
  {
    var shown := endpointName;
    if shown == "" {
      shown := endpointAddress;
    }
    command := Command(binary, cfg, endpointAddress, dir);
    var results := RunCmd(command, tool(2 * k + Slot(dir)));
    assert results == Outputs(binary, cfg, tool)(k, endpointAddress, dir);
    EmittedLines(cfg, Outputs(binary, cfg, tool), k, (endpointAddress, endpointName), dir, ts);
    if Contains(results, "error") {
      sent := [];
    } else {
      var prefix := if dir == Download then cfg.tsdbDownPrefix else cfg.tsdbUpPrefix;
      sent := [MetricLine(Sample(prefix, shown, results, ts))];
    }
  }

  /**
    The body of main's inner loop for one (address, name) pair: the download test, then
    the upload test. k is the number of pairs visited before this one in the cycle.
   */
  method TestEndpoint(cfg: Config, binary: string, tool: nat -> string -> string, clock: nat -> int,
                      k: nat, endpointAddress: string, endpointName: string)
    returns (commands: seq<string>, sent: seq<string>)
    ensures commands == [DownloadCommand(binary, cfg, endpointAddress), UploadCommand(binary, cfg, endpointAddress)]
    ensures sent == Lines(PairSamples(cfg, Outputs(binary, cfg, tool), clock, k, (endpointAddress, endpointName)))
  {
    var downCommand, downSent := TestDirection(cfg, binary, tool, k, clock(2 * k), endpointAddress, endpointName, Download);
    var upCommand, upSent := TestDirection(cfg, binary, tool, k, clock(2 * k + 1), endpointAddress, endpointName, Upload);
    commands := [downCommand, upCommand];
    sent := downSent + upSent;
    LinesAppend(Emitted(cfg, Outputs(binary, cfg, tool), k, (endpointAddress, endpointName), Download, clock(2 * k)),
                Emitted(cfg, Outputs(binary, cfg, tool), k, (endpointAddress, endpointName), Upload, clock(2 * k + 1)));
  }

  /** The lines for one endpoint and direction: none on failure, else its one metric line. */
  lemma EmittedLines(cfg: Config, out: Oracle, k: nat, pair: (string, string), dir: Direction, ts: int)
    ensures Lines(Emitted(cfg, out, k, pair, dir, ts))
      == if Failed(out, k, pair.0, dir) then []
         else [MetricLine(Sample(Prefix(cfg, dir), EndpointName(pair.0, pair.1), out(k, pair.0, dir), ts))]
  {
    var em := Emitted(cfg, out, k, pair, dir, ts);
    if !Failed(out, k, pair.0, dir) {
      assert em[..0] == [];
    }
  }

  /** Visiting one more pair of an entry extends the visited pairs by that pair. */
  lemma PrefixSnoc(done: seq<(string, string)>, val: Servers, j: nat)
    requires j < |val|
    ensures done + val[..j + 1] == (done + val[..j]) + [val[j]]
  {
    assert val[..j + 1] == val[..j] + [val[j]];
  }

  /**
    The inner loop of main's polling cycle: it visits the pairs of one configuration
    entry in order, continuing the commands run and the lines sent for the pairs
    `done` visited before it.
   */
  method TestEntry(cfg: Config, binary: string, tool: nat -> string -> string, clock: nat -> int,
                   ghost done: seq<(string, string)>, val: Servers,
                   commands0: seq<string>, sent0: seq<string>, visited0: nat)
    returns (commands: seq<string>, sent: seq<string>, visited: nat)
    requires visited0 == |done|
    requires commands0 == CycleCommands(binary, cfg, done)
    requires sent0 == Lines(CycleSamples(cfg, Outputs(binary, cfg, tool), clock, done))
    ensures visited == |done + val|
    ensures commands == CycleCommands(binary, cfg, done + val)
    ensures sent == Lines(CycleSamples(cfg, Outputs(binary, cfg, tool), clock, done + val))
  {
    commands, sent, visited := commands0, sent0, visited0;
    var j := 0;
    assert done + val[..j] == done;
    while j < |val|
      invariant 0 <= j <= |val|
      invariant visited == |done + val[..j]|
      invariant commands == CycleCommands(binary, cfg, done + val[..j])
      invariant sent == Lines(CycleSamples(cfg, Outputs(binary, cfg, tool), clock, done + val[..j]))
    {
      ghost var visitedPairs := done + val[..j];
      PrefixSnoc(done, val, j);
      var (endpointAddress, endpointName) := val[j];
      var ran, lines := TestEndpoint(cfg, binary, tool, clock, visited, endpointAddress, endpointName);
      CycleStep(binary, cfg, Outputs(binary, cfg, tool), clock, visitedPairs, val[j]);
      LinesAppend(CycleSamples(cfg, Outputs(binary, cfg, tool), clock, visitedPairs), PairSamples(cfg, Outputs(binary, cfg, tool), clock, visited, val[j]));
      commands := commands + ran;
      sent := sent + lines;
      visited := visited + 1;
      j := j + 1;
    }
    assert val[..j] == val;
  }

  /**
    One iteration of main's polling loop after the configuration is read: the commands
    it runs, in order, and the metric lines it sends, in order.
   */
  method RunCycle(cfg: Config, binary: string, tool: nat -> string -> string, clock: nat -> int)
    returns (commands: seq<string>, sent: seq<string>)
    ensures commands == CycleCommands(binary, cfg, Flatten(cfg.entry))
    ensures sent == Lines(CycleSamples(cfg, Outputs(binary, cfg, tool), clock, Flatten(cfg.entry)))
    ensures |commands| == 2 * TotalPairs(cfg.entry) && |sent| <= |commands|
  {
    commands, sent := [], [];
    var visited := 0;
    var e := 0;
    while e < |cfg.entry|
      invariant 0 <= e <= |cfg.entry|
      invariant visited == |Flatten(cfg.entry[..e])|
      invariant commands == CycleCommands(binary, cfg, Flatten(cfg.entry[..e]))
      invariant sent == Lines(CycleSamples(cfg, Outputs(binary, cfg, tool), clock, Flatten(cfg.entry[..e])))
    {
      commands, sent, visited := TestEntry(cfg, binary, tool, clock, Flatten(cfg.entry[..e]), cfg.entry[e], commands, sent, visited);
      FlattenSnoc(cfg.entry, e);
      e := e + 1;
    }
    assert cfg.entry[..e] == cfg.entry;
  }

  /**
    The sample main sends for the pair it visits k-th, in direction dir, when that test
    does not fail: the direction's prefix, the endpoint's name (its address when the
    name is empty), the trimmed output, and the time read after the test's command.
   */
  function SampleOf(cfg: Config, out: Oracle, clock: nat -> int,
                    k: nat, pair: (string, string), dir: Direction): Sample
  {
    Sample(Prefix(cfg, dir), EndpointName(pair.0, pair.1), out(k, pair.0, dir), clock(2 * k + Slot(dir)))
  }

  /**
    The two commands of the pair visited p-th are at positions 2p and 2p + 1: download
    first, then upload. They do not depend on the outputs, so the upload test runs
    whether or not the download test failed.
   */
  lemma {:induction false} CycleCommandsAt(binary: string, cfg: Config, pairs: seq<(string, string)>, p: nat)
    requires p < |pairs|
    ensures CycleCommands(binary, cfg, pairs)[2 * p] == DownloadCommand(binary, cfg, pairs[p].0)
    ensures CycleCommands(binary, cfg, pairs)[2 * p + 1] == UploadCommand(binary, cfg, pairs[p].0)
  {
    var n := |pairs| - 1;
    if p < n {
      CycleCommandsAt(binary, cfg, pairs[..n], p);
      assert pairs[..n][p] == pairs[p];
    }
  }

  /** The samples for one pair: download then upload, each present exactly when its test does not fail. */
  lemma PairSamplesCases(cfg: Config, out: Oracle, clock: nat -> int, k: nat, pair: (string, string))
    ensures PairSamples(cfg, out, clock, k, pair)
      == (if Failed(out, k, pair.0, Download) then [] else [SampleOf(cfg, out, clock, k, pair, Download)])
       + (if Failed(out, k, pair.0, Upload) then [] else [SampleOf(cfg, out, clock, k, pair, Upload)])
  {
    assert 2 * k + Slot(Download) == 2 * k;
  }

  /**
    Every test that does not fail sends its sample: the sample of the pair visited p-th
    in direction dir is among the cycle's samples.
   */
  lemma {:induction false} CycleSamplesComplete(cfg: Config, out: Oracle, clock: nat -> int,
                                               pairs: seq<(string, string)>, p: nat, dir: Direction)
    requires p < |pairs| && !Failed(out, p, pairs[p].0, dir)
    ensures SampleOf(cfg, out, clock, p, pairs[p], dir) in CycleSamples(cfg, out, clock, pairs)
  {
    var n := |pairs| - 1;
    var front := pairs[..n];
    var sample := SampleOf(cfg, out, clock, p, pairs[p], dir);
    assert CycleSamples(cfg, out, clock, pairs)
      == CycleSamples(cfg, out, clock, front) + PairSamples(cfg, out, clock, n, pairs[n]);
    if p < n {
      assert front[p] == pairs[p];
      CycleSamplesComplete(cfg, out, clock, front, p, dir);
    } else {
      PairSamplesCases(cfg, out, clock, n, pairs[n]);
      assert sample in PairSamples(cfg, out, clock, n, pairs[n]);
    }
  }

  /**
    Nothing else is sent: every sample of the cycle is the sample of some visited pair
    and direction whose test does not fail.
   */
  lemma {:induction false} CycleSamplesSound(cfg: Config, out: Oracle, clock: nat -> int,
                                            pairs: seq<(string, string)>, s: Sample)
    requires s in CycleSamples(cfg, out, clock, pairs)
    ensures exists p: nat, dir: Direction :: p < |pairs| && !Failed(out, p, pairs[p].0, dir)
                                            && s == SampleOf(cfg, out, clock, p, pairs[p], dir)
  {
    var n := |pairs| - 1;
    var front := pairs[..n];
    assert CycleSamples(cfg, out, clock, pairs)
      == CycleSamples(cfg, out, clock, front) + PairSamples(cfg, out, clock, n, pairs[n]);
    if s in CycleSamples(cfg, out, clock, front) {
      CycleSamplesSound(cfg, out, clock, front, s);
      var p: nat, dir: Direction :| p < |front| && !Failed(out, p, front[p].0, dir)
                                 && s == SampleOf(cfg, out, clock, p, front[p], dir);
      assert front[p] == pairs[p];
    } else {
      PairSamplesCases(cfg, out, clock, n, pairs[n]);
      if !Failed(out, n, pairs[n].0, Download) && s == SampleOf(cfg, out, clock, n, pairs[n], Download) {
      } else {
        assert !Failed(out, n, pairs[n].0, Upload) && s == SampleOf(cfg, out, clock, n, pairs[n], Upload);
      }
    }
  }

  /** Neither test of an endpoint address fails. */
  predicate BothSucceed(out: Oracle, k: nat, address: string)
  {
    !Failed(out, k, address, Download) && !Failed(out, k, address, Upload)
  }

  /**
    When no test fails, the cycle sends 2 samples per pair: the download sample of the
    pair visited p-th at position 2p and its upload sample at 2p + 1.
   */
  lemma {:induction false} CycleAllSucceed(cfg: Config, out: Oracle, clock: nat -> int,
                                          pairs: seq<(string, string)>)
    requires forall p :: 0 <= p < |pairs| ==> BothSucceed(out, p, pairs[p].0)
    ensures |CycleSamples(cfg, out, clock, pairs)| == 2 * |pairs|
    ensures forall p :: 0 <= p < |pairs| ==>
      CycleSamples(cfg, out, clock, pairs)[2 * p] == SampleOf(cfg, out, clock, p, pairs[p], Download)
      && CycleSamples(cfg, out, clock, pairs)[2 * p + 1] == SampleOf(cfg, out, clock, p, pairs[p], Upload)
  {
    if pairs != [] {
      var n := |pairs| - 1;
      var front := pairs[..n];
      forall p | 0 <= p < |front| ensures BothSucceed(out, p, front[p].0) {
        assert front[p] == pairs[p];
      }
      CycleAllSucceed(cfg, out, clock, front);
      PairSamplesCases(cfg, out, clock, n, pairs[n]);
      var before := CycleSamples(cfg, out, clock, front);
      var down := SampleOf(cfg, out, clock, n, pairs[n], Download);
      var up := SampleOf(cfg, out, clock, n, pairs[n], Upload);
      assert BothSucceed(out, n, pairs[n].0);
      var all := CycleSamples(cfg, out, clock, pairs);
      assert all == before + [down, up];
      forall p | 0 <= p < |pairs|
        ensures all[2 * p] == SampleOf(cfg, out, clock, p, pairs[p], Download)
        ensures all[2 * p + 1] == SampleOf(cfg, out, clock, p, pairs[p], Upload)
      {
        if p < n {
          assert front[p] == pairs[p];
        }
      }
    }
  }

  /** When every test fails, the cycle sends nothing. */
  lemma {:induction false} CycleAllFail(cfg: Config, out: Oracle, clock: nat -> int,
                                       pairs: seq<(string, string)>)
    requires forall p :: 0 <= p < |pairs| ==> Failed(out, p, pairs[p].0, Download) && Failed(out, p, pairs[p].0, Upload)
    ensures CycleSamples(cfg, out, clock, pairs) == []
  {
    if pairs != [] {
      var n := |pairs| - 1;
      var front := pairs[..n];
      assert forall p :: 0 <= p < |front| ==> front[p] == pairs[p];
      CycleAllFail(cfg, out, clock, front);
      assert Failed(out, n, pairs[n].0, Download) && Failed(out, n, pairs[n].0, Upload);
    }
  }

  /** A clock that never goes backwards. */
  ghost predicate Monotone(clock: nat -> int)
  {
    forall i: nat, j: nat :: i <= j ==> clock(i) <= clock(j)
  }

  /** The samples of one pair are stamped no earlier than clock(2k), in order. */
  lemma PairSamplesTimes(cfg: Config, out: Oracle, clock: nat -> int, k: nat, pair: (string, string))
    requires Monotone(clock)
    ensures var last := PairSamples(cfg, out, clock, k, pair);
      (forall i :: 0 <= i < |last| ==> clock(2 * k) <= last[i].timestamp)
      && (forall i, j :: 0 <= i < j < |last| ==> last[i].timestamp <= last[j].timestamp)
  {
    PairSamplesCases(cfg, out, clock, k, pair);
    assert clock(2 * k) <= clock(2 * k + 1);
  }

  /**
    With a clock that never goes backwards, the cycle's samples go out with
    non-decreasing timestamps.
   */
  lemma {:induction false} CycleTimestampsOrdered(cfg: Config, out: Oracle, clock: nat -> int,
                                                 pairs: seq<(string, string)>)
    requires Monotone(clock)
    ensures var samples := CycleSamples(cfg, out, clock, pairs);
      forall a, b :: 0 <= a < b < |samples| ==> samples[a].timestamp <= samples[b].timestamp
  {
    if pairs != [] {
      var n := |pairs| - 1;
      var front := pairs[..n];
      CycleTimestampsOrdered(cfg, out, clock, front);
      PairSamplesTimes(cfg, out, clock, n, pairs[n]);
      var before := CycleSamples(cfg, out, clock, front);
      var last := PairSamples(cfg, out, clock, n, pairs[n]);
      assert CycleSamples(cfg, out, clock, pairs) == before + last;
      forall a | 0 <= a < |before| ensures before[a].timestamp <= clock(2 * n) {
        CycleSamplesSound(cfg, out, clock, front, before[a]);
        var p: nat, dir: Direction :| p < |front| && !Failed(out, p, front[p].0, dir)
                                   && before[a] == SampleOf(cfg, out, clock, p, front[p], dir);
        assert 2 * p + Slot(dir) <= 2 * n;
      }
      forall a, b | 0 <= a < b < |before + last| ensures (before + last)[a].timestamp <= (before + last)[b].timestamp {
        if b < |before| {
          assert (before + last)[a] == before[a] && (before + last)[b] == before[b];
        } else if a < |before| {
          assert (before + last)[b] == last[b - |before|];
        } else {
          assert (before + last)[a] == last[a - |before|] && (before + last)[b] == last[b - |before|];
        }
      }
    }
  }

  /** Two samples that differ at most in their timestamps. */
  predicate SameButTime(x: Sample, y: Sample)
  {
    x.prefix == y.prefix && x.name == y.name && x.value == y.value
  }

  /**
    Two cycles over the same configuration and outputs send the same samples, in the
    same order, differing only in their timestamps.
   */
  lemma {:induction false} CycleRepeats(cfg: Config, out: Oracle, clock1: nat -> int, clock2: nat -> int,
                                       pairs: seq<(string, string)>)
    ensures var s1 := CycleSamples(cfg, out, clock1, pairs);
      var s2 := CycleSamples(cfg, out, clock2, pairs);
      |s1| == |s2| && forall i :: 0 <= i < |s1| ==> SameButTime(s1[i], s2[i])
  {
    if pairs != [] {
      var n := |pairs| - 1;
      var front := pairs[..n];
      CycleRepeats(cfg, out, clock1, clock2, front);
      PairSamplesCases(cfg, out, clock1, n, pairs[n]);
      PairSamplesCases(cfg, out, clock2, n, pairs[n]);
      var b1, b2 := CycleSamples(cfg, out, clock1, front), CycleSamples(cfg, out, clock2, front);
      var l1, l2 := PairSamples(cfg, out, clock1, n, pairs[n]), PairSamples(cfg, out, clock2, n, pairs[n]);
      assert CycleSamples(cfg, out, clock1, pairs) == b1 + l1;
      assert CycleSamples(cfg, out, clock2, pairs) == b2 + l2;
      assert |l1| == |l2| && forall i :: 0 <= i < |l1| ==> SameButTime(l1[i], l2[i]);
      forall i | 0 <= i < |b1 + l1| ensures SameButTime((b1 + l1)[i], (b2 + l2)[i]) {
        if i < |b1| {
          assert (b1 + l1)[i] == b1[i] && (b2 + l2)[i] == b2[i];
        } else {
          assert (b1 + l1)[i] == l1[i - |b1|] && (b2 + l2)[i] == l2[i - |b1|];
        }
      }
    }
  }

  /** Since main's commands need no trimming, each output is the trimmed output of the command as built. */
  lemma OutputsOfCommands(binary: string, cfg: Config, tool: nat -> string -> string, k: nat, address: string)
    requires binary != "" && !IsSpace(binary[0])
    ensures Outputs(binary, cfg, tool)(k, address, Download) == TrimSpace(tool(2 * k)(DownloadCommand(binary, cfg, address)))
    ensures Outputs(binary, cfg, tool)(k, address, Upload) == TrimSpace(tool(2 * k + 1)(UploadCommand(binary, cfg, address)))
  {
    CommandsNeedNoTrim(binary, cfg, address);
  }

  /** A configuration of one entry holding one pair: the cycle sends what that pair's two tests send. */
  lemma SinglePairCycle(cfg: Config, out: Oracle, clock: nat -> int, pair: (string, string))
    ensures Flatten([[pair]]) == [pair]
    ensures CycleSamples(cfg, out, clock, [pair]) == PairSamples(cfg, out, clock, 0, pair)
  {
    assert [[pair]][..0] == [];
    assert [pair][..0] == [];
  }

  /** The lines sent for the pair visited k-th: its download line, then its upload line, each unless it failed. */
  lemma PairLines(cfg: Config, out: Oracle, clock: nat -> int, k: nat, pair: (string, string))
    ensures var name := EndpointName(pair.0, pair.1);
      var down := MetricLine(Sample(cfg.tsdbDownPrefix, name, out(k, pair.0, Download), clock(2 * k)));
      var up := MetricLine(Sample(cfg.tsdbUpPrefix, name, out(k, pair.0, Upload), clock(2 * k + 1)));
      Lines(PairSamples(cfg, out, clock, k, pair))
        == (if Failed(out, k, pair.0, Download) then [] else [down]) + (if Failed(out, k, pair.0, Upload) then [] else [up])
  {
    EmittedLines(cfg, out, k, pair, Download, clock(2 * k));
    EmittedLines(cfg, out, k, pair, Upload, clock(2 * k + 1));
    LinesAppend(Emitted(cfg, out, k, pair, Download, clock(2 * k)), Emitted(cfg, out, k, pair, Upload, clock(2 * k + 1)));
  }

  /** The lines of one cycle over a single pair whose two outputs are given. */
  lemma SinglePairLines(cfg: Config, out: Oracle, clock: nat -> int, pair: (string, string))
    ensures var name := EndpointName(pair.0, pair.1);
      var down := MetricLine(Sample(cfg.tsdbDownPrefix, name, out(0, pair.0, Download), clock(0)));
      var up := MetricLine(Sample(cfg.tsdbUpPrefix, name, out(0, pair.0, Upload), clock(1)));
      Lines(CycleSamples(cfg, out, clock, Flatten([[pair]])))
        == (if Failed(out, 0, pair.0, Download) then [] else [down]) + (if Failed(out, 0, pair.0, Upload) then [] else [up])
  {
    SinglePairCycle(cfg, out, clock, pair);
    PairLines(cfg, out, clock, 0, pair);
  }

  /** A pair listed in two entries is visited twice, as the first and the second pair of the cycle. */
  lemma RepeatedPairCycle(cfg: Config, out: Oracle, clock: nat -> int, pair: (string, string))
    ensures Flatten([[pair], [pair]]) == [pair, pair]
    ensures CycleSamples(cfg, out, clock, [pair, pair])
      == PairSamples(cfg, out, clock, 0, pair) + PairSamples(cfg, out, clock, 1, pair)
  {
    assert [[pair], [pair]][..1] == [[pair]];
    SinglePairCycle(cfg, out, clock, pair);
    assert [pair, pair] == [pair] + [pair];
    CycleStep("", cfg, out, clock, [pair], pair);
  }

  /**
    The outputs main gets for the address visited k-th when the tool prints the given
    texts for its download and upload commands.
   */
  lemma ToolOutputs(binary: string, cfg: Config, tool: nat -> string -> string, k: nat, address: string,
                    downText: string, upText: string)
    requires binary != "" && !IsSpace(binary[0])
    requires tool(2 * k)(DownloadCommand(binary, cfg, address)) == downText
    requires tool(2 * k + 1)(UploadCommand(binary, cfg, address)) == upText
    ensures Outputs(binary, cfg, tool)(k, address, Download) == TrimSpace(downText)
    ensures Outputs(binary, cfg, tool)(k, address, Upload) == TrimSpace(upText)
  {
    OutputsOfCommands(binary, cfg, tool, k, address);
  }

  /**
    One named endpoint whose tool reports 500 for download and 200 for upload: the cycle
    sends the download line, then the upload line, carrying the reported values as
    they are.
   */
  lemma ScenarioNamedEndpoint(binary: string, cfg: Config, tool: nat -> string -> string, clock: nat -> int)
    requires binary != "" && !IsSpace(binary[0])
    requires cfg.entry == [[("10.0.0.5", "branch-a")]]
    requires cfg.tsdbDownPrefix == "bandwidth.download" && cfg.tsdbUpPrefix == "bandwidth.upload"
    requires tool(0)(DownloadCommand(binary, cfg, "10.0.0.5")) == "500"
    requires tool(1)(UploadCommand(binary, cfg, "10.0.0.5")) == "200"
    ensures Lines(CycleSamples(cfg, Outputs(binary, cfg, tool), clock, Flatten(cfg.entry)))
      == ["bandwidth.download.branch-a 500 " + IntToString(clock(0)) + "\n",
          "bandwidth.upload.branch-a 200 " + IntToString(clock(1)) + "\n"]
  {
    ToolOutputs(binary, cfg, tool, 0, "10.0.0.5", "500", "200");
    TrimmedLiterals();
    NamedEndpointLines(cfg, Outputs(binary, cfg, tool), clock);
  }

  lemma NamedEndpointLines(cfg: Config, out: Oracle, clock: nat -> int)
    requires cfg.entry == [[("10.0.0.5", "branch-a")]]
    requires cfg.tsdbDownPrefix == "bandwidth.download" && cfg.tsdbUpPrefix == "bandwidth.upload"
    requires out(0, "10.0.0.5", Download) == "500" && out(0, "10.0.0.5", Upload) == "200"
    ensures Lines(CycleSamples(cfg, out, clock, Flatten(cfg.entry)))
      == ["bandwidth.download.branch-a 500 " + IntToString(clock(0)) + "\n",
          "bandwidth.upload.branch-a 200 " + IntToString(clock(1)) + "\n"]
  {
    SentinelLiterals();
    SinglePairLines(cfg, out, clock, ("10.0.0.5", "branch-a"));
    ScenarioText();
  }

  /** The tool texts of the two scenarios are already trimmed. */
  lemma TrimmedLiterals()
    ensures TrimSpace("500") == "500" && TrimSpace("200") == "200" && TrimSpace("750") == "750"
    ensures TrimSpace("error: unable to connect") == "error: unable to connect"
  {
    TrimSpaceUnique("500", "500", 0);
    TrimSpaceUnique("200", "200", 0);
    TrimSpaceUnique("750", "750", 0);
    TrimSpaceUnique("error: unable to connect", "error: unable to connect", 0);
  }

  /** Only the failure text of the scenarios holds the sentinel. */
  lemma SentinelLiterals()
    ensures Contains("error: unable to connect", "error")
    ensures !Contains("500", "error") && !Contains("200", "error") && !Contains("750", "error")
  {
    assert "error: unable to connect"[..5] == "error";
  }

  lemma ScenarioText()
    ensures "bandwidth.download" + "." + "branch-a" + " " + "500" + " " == "bandwidth.download.branch-a 500 "
    ensures "bandwidth.upload" + "." + "branch-a" + " " + "200" + " " == "bandwidth.upload.branch-a 200 "
    ensures "bandwidth.download" + "." + "10.0.0.6" + " " + "750" + " " == "bandwidth.download.10.0.0.6 750 "
  {
  }

  lemma RepeatedText()
    ensures "bandwidth.upload" + "." + "branch-a" + " " + "750" + " " == "bandwidth.upload.branch-a 750 "
  {
  }

  /**
    An endpoint listed without a name is reported under its address; a direction whose
    output contains "error" sends nothing.
   */
  lemma ScenarioUnnamedEndpoint(binary: string, cfg: Config, tool: nat -> string -> string, clock: nat -> int)
    requires binary != "" && !IsSpace(binary[0])
    requires cfg.entry == [[("10.0.0.6", "")]]
    requires cfg.tsdbDownPrefix == "bandwidth.download"
    requires tool(0)(DownloadCommand(binary, cfg, "10.0.0.6")) == "750"
    requires tool(1)(UploadCommand(binary, cfg, "10.0.0.6")) == "error: unable to connect"
    ensures Lines(CycleSamples(cfg, Outputs(binary, cfg, tool), clock, Flatten(cfg.entry)))
      == ["bandwidth.download.10.0.0.6 750 " + IntToString(clock(0)) + "\n"]
  {
    ToolOutputs(binary, cfg, tool, 0, "10.0.0.6", "750", "error: unable to connect");
    TrimmedLiterals();
    UnnamedEndpointLines(cfg, Outputs(binary, cfg, tool), clock);
  }

  lemma UnnamedEndpointLines(cfg: Config, out: Oracle, clock: nat -> int)
    requires cfg.entry == [[("10.0.0.6", "")]]
    requires cfg.tsdbDownPrefix == "bandwidth.download"
    requires out(0, "10.0.0.6", Download) == "750"
    requires out(0, "10.0.0.6", Upload) == "error: unable to connect"
    ensures Lines(CycleSamples(cfg, out, clock, Flatten(cfg.entry)))
      == ["bandwidth.download.10.0.0.6 750 " + IntToString(clock(0)) + "\n"]
  {
    SentinelLiterals();
    SinglePairLines(cfg, out, clock, ("10.0.0.6", ""));
    ScenarioText();
  }

  /**
    An address listed in two entries is tested at both visits, and each test reports on its
    own run: here the second download fails while the other three tests succeed, so the
    cycle sends three lines.
   */
  lemma ScenarioRepeatedAddress(binary: string, cfg: Config, tool: nat -> string -> string, clock: nat -> int)
    requires binary != "" && !IsSpace(binary[0])
    requires cfg.entry == [[("10.0.0.5", "branch-a")], [("10.0.0.5", "branch-a")]]
    requires cfg.tsdbDownPrefix == "bandwidth.download" && cfg.tsdbUpPrefix == "bandwidth.upload"
    requires tool(0)(DownloadCommand(binary, cfg, "10.0.0.5")) == "500"
    requires tool(1)(UploadCommand(binary, cfg, "10.0.0.5")) == "200"
    requires tool(2)(DownloadCommand(binary, cfg, "10.0.0.5")) == "error: unable to connect"
    requires tool(3)(UploadCommand(binary, cfg, "10.0.0.5")) == "750"
    ensures Lines(CycleSamples(cfg, Outputs(binary, cfg, tool), clock, Flatten(cfg.entry)))
      == ["bandwidth.download.branch-a 500 " + IntToString(clock(0)) + "\n",
          "bandwidth.upload.branch-a 200 " + IntToString(clock(1)) + "\n",
          "bandwidth.upload.branch-a 750 " + IntToString(clock(3)) + "\n"]
  {
    ToolOutputs(binary, cfg, tool, 0, "10.0.0.5", "500", "200");
    ToolOutputs(binary, cfg, tool, 1, "10.0.0.5", "error: unable to connect", "750");
    TrimmedLiterals();
    RepeatedAddressLines(cfg, Outputs(binary, cfg, tool), clock);
  }

  lemma RepeatedAddressLines(cfg: Config, out: Oracle, clock: nat -> int)
    requires cfg.entry == [[("10.0.0.5", "branch-a")], [("10.0.0.5", "branch-a")]]
    requires cfg.tsdbDownPrefix == "bandwidth.download" && cfg.tsdbUpPrefix == "bandwidth.upload"
    requires out(0, "10.0.0.5", Download) == "500" && out(0, "10.0.0.5", Upload) == "200"
    requires out(1, "10.0.0.5", Download) == "error: unable to connect" && out(1, "10.0.0.5", Upload) == "750"
    ensures Lines(CycleSamples(cfg, out, clock, Flatten(cfg.entry)))
      == ["bandwidth.download.branch-a 500 " + IntToString(clock(0)) + "\n",
          "bandwidth.upload.branch-a 200 " + IntToString(clock(1)) + "\n",
          "bandwidth.upload.branch-a 750 " + IntToString(clock(3)) + "\n"]
  {
    var pair := ("10.0.0.5", "branch-a");
    SentinelLiterals();
    ScenarioText();
    RepeatedText();
    RepeatedPairCycle(cfg, out, clock, pair);
    PairLines(cfg, out, clock, 0, pair);
    PairLines(cfg, out, clock, 1, pair);
    LinesAppend(PairSamples(cfg, out, clock, 0, pair), PairSamples(cfg, out, clock, 1, pair));
  }
}
