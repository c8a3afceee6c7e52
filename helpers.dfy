/** helpers.go: perf pair splitting, kbit/s to bit/s conversion, and the printable endpoint list. */
module Helpers {
  import opened Wrappers
  import opened Text
  import opened Decimal
  import opened Endpoints

  /** splitPerfPair: the parts of an `address:name` text between its colons. */
  function SplitPerfPair(tunnelDestInput: string): (parts: seq<string>)
    ensures |parts| == Count(tunnelDestInput, ':') + 1
    ensures forall k :: 0 <= k < |parts| ==> ':' !in parts[k]
    ensures Join(parts, ':') == tunnelDestInput
  {
    SplitParts(tunnelDestInput, ':');
    JoinSplit(tunnelDestInput, ':');
    Split(tunnelDestInput, ':')
  }

  /** The `%s:%s` rendering of one address and name. */
  function PerfPair(address: string, name: string): string
  {
    address + ":" + name
  }

  /** A colon-free address and name printed as a pair split back into the two. */
  lemma PerfPairRoundTrip(address: string, name: string)
    requires ':' !in address && ':' !in name
    ensures SplitPerfPair(PerfPair(address, name)) == [address, name]
  {
    SplitAround(address, name, ':');
    SplitNoSeparator(address, ':');
    SplitNoSeparator(name, ':');
  }

  /** The error strconv.ParseFloat returns: the function name and the rejected text. */
  datatype NumError = NumError(func: string, num: string)

  /**
    convertKbitsToBits: the kbit/s text parsed, rounded half away from zero, times 1000;
    (0, error) when it does not parse.
   */
  function ConvertKbitsToBits(kbps: string): (r: (int, Option<NumError>))
    ensures r.1.Some? <==> ParseDecimal(kbps).None?
    ensures r.1.Some? ==> r.0 == 0 && r.1.value.num == kbps
    ensures r.0 % 1000 == 0
    ensures r.1.None? ==>
      var d := ParseDecimal(kbps).value;
      2 * Abs(1000 * d.Scaled() - r.0 * Pow10(d.scale)) <= 1000 * Pow10(d.scale)
  {
    match ParseDecimal(kbps)
    case None => (0, Some(NumError("ParseFloat", kbps)))
    case Some(d) =>
      var m := RoundHalfAway(d);
      ScaleBy1000(d.Scaled(), m, Pow10(d.scale));
      (m * 1000, None)
  }

  /** An integer kbit/s text converts to that integer times 1000, without error. */
  lemma ConvertIntegerText(n: int)
    ensures ConvertKbitsToBits(IntToString(n)) == (n * 1000, None)
  {
    IntToStringParses(n);
    var d := Dec(n < 0, Abs(n), 0);
    assert Pow10(0) == 1;
    assert RoundHalfAway(d) == n;
  }

  /** Scaling a rounding by 1000 keeps it within half a step. */
  lemma ScaleBy1000(v: int, m: int, p: nat)
    requires 2 * Abs(v - m * p) <= p
    ensures (m * 1000) % 1000 == 0
    ensures 2 * Abs(1000 * v - (m * 1000) * p) <= 1000 * p
  {
    var x := v - m * p;
    assert 1000 * v - (m * 1000) * p == 1000 * x;
    assert Abs(1000 * x) == 1000 * Abs(x);
  }

  /** A signed `whole.frac` text converts to its rounded value times 1000, without error. */
  lemma ConvertFraction(negative: bool, whole: string, frac: string)
    requires AllDigits(whole) && AllDigits(frac) && |whole| + |frac| > 0
    ensures ConvertKbitsToBits((if negative then "-" else "") + whole + "." + frac)
         == (RoundHalfAway(Dec(negative, DigitsValue(whole + frac), |frac|)) * 1000, None)
  {
    ParsesFraction(negative, whole, frac);
  }

  /** A fractional rate rounds up to the nearest kbit/s before scaling. */
  lemma ConvertRoundsUp()
    ensures ConvertKbitsToBits("12345.6") == (12346000, None)
  {
    FractionText();
    ConvertFraction(false, "12345", "6");
    RoundsToNearest();
  }

  lemma FractionText()
    ensures AllDigits("12345") && AllDigits("6") && "" + "12345" + "." + "6" == "12345.6"
    ensures DigitsValue("12345" + "6") == 123456
  {
    assert "12345" + "6" == "123456";
    DigitsAppend("", '1'); assert "" + ['1'] == "1";
    DigitsAppend("1", '2'); assert "1" + ['2'] == "12";
    DigitsAppend("12", '3'); assert "12" + ['3'] == "123";
    DigitsAppend("123", '4'); assert "123" + ['4'] == "1234";
    DigitsAppend("1234", '5'); assert "1234" + ['5'] == "12345";
    DigitsAppend("12345", '6'); assert "12345" + ['6'] == "123456";
  }

  lemma RoundsToNearest()
    ensures RoundHalfAway(Dec(false, 123456, 1)) == 12346
  {
    assert Pow10(1) == 10;
  }

  /** A half rounds up: 0.5 kbit/s is reported as 1000 bit/s. */
  lemma ConvertHalf()
    ensures ConvertKbitsToBits("0.5") == (1000, None)
  {
    HalfText();
    ConvertFraction(false, "0", "5");
    RoundsHalfAway();
  }

  /** A negative half rounds away from zero, down. */
  lemma ConvertNegativeHalf()
    ensures ConvertKbitsToBits("-2.5") == (-3000, None)
  {
    HalfText();
    ConvertFraction(true, "2", "5");
    RoundsHalfAway();
  }

  lemma HalfText()
    ensures AllDigits("0") && AllDigits("2") && AllDigits("5")
    ensures "" + "0" + "." + "5" == "0.5" && "-" + "2" + "." + "5" == "-2.5"
    ensures DigitsValue("0" + "5") == 5 && DigitsValue("2" + "5") == 25
  {
    DigitsAppend("", '0'); assert "" + ['0'] == "0";
    DigitsAppend("0", '5'); assert "0" + ['5'] == "0" + "5";
    DigitsAppend("", '2'); assert "" + ['2'] == "2";
    DigitsAppend("2", '5'); assert "2" + ['5'] == "2" + "5";
  }

  lemma RoundsHalfAway()
    ensures RoundHalfAway(Dec(false, 5, 1)) == 1
    ensures RoundHalfAway(Dec(true, 25, 1)) == -3
  {
    assert Pow10(1) == 10;
  }

  /** Text that is not a decimal number is a parse error with value 0. */
  lemma ConvertRejects()
    ensures ConvertKbitsToBits("abc") == (0, Some(NumError("ParseFloat", "abc")))
    ensures ConvertKbitsToBits("") == (0, Some(NumError("ParseFloat", "")))
    ensures ConvertKbitsToBits(".") == (0, Some(NumError("ParseFloat", ".")))
  {
    assert !IsDigit('a');
    assert IndexOf("abc", '.') == 3;
    assert IndexOf(".", '.') == 0;
  }

  /**
    printPerfServers: the list of `address:name` texts it builds, one per pair of every
    entry, in visiting order (the Go code only logs them).
   */
  method PrintPerfServers(perfServers: seq<Servers>) returns (endpointList: seq<string>)
    ensures |endpointList| == TotalPairs(perfServers)
    ensures forall k :: 0 <= k < |endpointList| ==>
      endpointList[k] == PerfPair(Flatten(perfServers)[k].0, Flatten(perfServers)[k].1)
  {
    endpointList := [];
    var e := 0;
    while e < |perfServers|
      invariant 0 <= e <= |perfServers|
      invariant |endpointList| == |Flatten(perfServers[..e])|
      invariant forall k :: 0 <= k < |endpointList| ==>
        endpointList[k] == PerfPair(Flatten(perfServers[..e])[k].0, Flatten(perfServers[..e])[k].1)
    {
      var serverPair := perfServers[e];
      ghost var before := Flatten(perfServers[..e]);
      var j := 0;
      while j < |serverPair|
        invariant 0 <= j <= |serverPair|
        invariant |endpointList| == |before| + j
        invariant forall k :: 0 <= k < |endpointList| ==>
          endpointList[k] == PerfPair((before + serverPair[..j])[k].0, (before + serverPair[..j])[k].1)
      {
        var (k, v) := serverPair[j];
        endpointList := endpointList + [PerfPair(k, v)];
        assert before + serverPair[..j + 1] == (before + serverPair[..j]) + [serverPair[j]];
        j := j + 1;
      }
      FlattenSnoc(perfServers, e);
      assert serverPair[..j] == serverPair;
      e := e + 1;
    }
    assert perfServers[..e] == perfServers;
  }
}
