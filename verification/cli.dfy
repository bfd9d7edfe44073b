/** `cost_table`: the unit prices read from the command-line arguments. */
module Cli {
  import opened Wrappers

  /** Largest `usize` on a 64-bit target. */
  const UsizeMax: nat := 0xFFFF_FFFF_FFFF_FFFF

  /** Price of one cluster of solace and of one dream matter. */
  datatype CostTable = CostTable(clusterCost: nat, dreamMatterCost: nat)

  const MissingClusterCost: string := "Please provide the cluster of solace cost."
  const MissingDreamMatterCost: string := "Please provide the dream matter cost."
  /** The program reports both parse failures with this one message. */
  const ParseFailure: string := "Failed to parse the cluster cost."

  predicate IsDigit(c: char)
  {
    '0' <= c <= '9'
  }

  predicate AllDigits(s: string)
  {
    forall i :: 0 <= i < |s| ==> IsDigit(s[i])
  }

  /** Value of a string of decimal digits, most significant first. */
  function DigitsValue(ds: string): nat
    requires AllDigits(ds)
  {
    if |ds| == 0 then 0
    else DigitsValue(ds[..|ds| - 1]) * 10 + (ds[|ds| - 1] as int - '0' as int)
  }

  /** Canonical decimal rendering of `n`: no sign, no leading zeros. */
  function Decimal(n: nat): (s: string)
    ensures |s| > 0 && AllDigits(s)
    ensures s[0] != '0' || n == 0
  {
    var last := (n % 10 + '0' as int) as char;
    if n < 10 then [last] else Decimal(n / 10) + [last]
  }

  /** `str::parse::<usize>`: an optional leading `+` (not on its own), then
      one or more ASCII digits whose value fits in a `usize`. Nothing else is
      accepted: no `-`, no spaces, no empty string. */
  function ParseUsize(s: string): (r: Option<nat>)
    ensures r.Some? ==> r.value <= UsizeMax
    ensures |s| == 0 ==> r.None?
    ensures |s| > 0 && s[0] == '-' ==> r.None?
    ensures s == "+" ==> r.None?
    // only an optional leading `+` and ASCII digits are ever accepted
    ensures r.Some? ==> forall i :: 0 <= i < |s| ==> IsDigit(s[i]) || (i == 0 && s[i] == '+')
  {
    var digits := if |s| > 1 && s[0] == '+' then s[1..] else s;
    if |digits| > 0 && AllDigits(digits) && DigitsValue(digits) <= UsizeMax
    then Some(DigitsValue(digits))
    else None
  }

  /** Decimal rendering and digit evaluation are inverse. */
  lemma {:induction false} DecimalValue(n: nat)
    ensures DigitsValue(Decimal(n)) == n
    decreases n
  {
    var s := Decimal(n);
    if n >= 10 {
      DecimalValue(n / 10);
      assert s[..|s| - 1] == Decimal(n / 10);
    }
  }

  /** Every `usize` written in decimal, with or without a leading `+`, parses
      back to itself; a larger number is rejected. */
  lemma ParseDecimal(n: nat)
    ensures n <= UsizeMax ==> ParseUsize(Decimal(n)) == Some(n)
    ensures n <= UsizeMax ==> ParseUsize("+" + Decimal(n)) == Some(n)
    ensures n > UsizeMax ==> ParseUsize(Decimal(n)) == None
  {
    DecimalValue(n);
    var s := Decimal(n);
    assert ("+" + s)[1..] == s;
  }

  /** The selection made by `cost_table` from the argument list, whose first
      element is the program name. Both arguments must be present before
      either is parsed, and the first is parsed before the second. */
  function CostTableFrom(args: seq<string>): (r: Result<CostTable, string>)
    // success exactly when both prices are present and parse, extra arguments ignored
    ensures r.Success? <==> |args| >= 3 && ParseUsize(args[1]).Some? && ParseUsize(args[2]).Some?
    ensures r.Success? ==>
      ParseUsize(args[1]) == Some(r.value.clusterCost) &&
      ParseUsize(args[2]) == Some(r.value.dreamMatterCost)
    // a missing argument is reported before anything is parsed
    ensures r == Failure(MissingClusterCost) <==> |args| < 2
    ensures r == Failure(MissingDreamMatterCost) <==> |args| == 2
    // either price failing to parse gives the same message
    ensures r == Failure(ParseFailure) <==>
      |args| >= 3 && (ParseUsize(args[1]).None? || ParseUsize(args[2]).None?)
  {
    if |args| < 2 then Failure(MissingClusterCost)
    else if |args| < 3 then Failure(MissingDreamMatterCost)
    else
      match ParseUsize(args[1])
      case None => Failure(ParseFailure)
      case Some(clusterCost) =>
        match ParseUsize(args[2])
        case None => Failure(ParseFailure)
        case Some(dreamMatterCost) => Success(CostTable(clusterCost, dreamMatterCost))
  }

  /** Arguments after the second price play no part. */
  lemma CostTableIgnoresExtraArgs(args: seq<string>, extra: seq<string>)
    requires |args| >= 3
    ensures CostTableFrom(args + extra) == CostTableFrom(args)
  {
    assert (args + extra)[1] == args[1] && (args + extra)[2] == args[2];
  }

  /** Typical invocations: `prog 5 1000` and `prog` with no prices. */
  lemma CostTableExamples(prog: string)
    ensures CostTableFrom([prog, "5", "1000"]) == Success(CostTable(5, 1000))
    ensures CostTableFrom([prog]) == Failure(MissingClusterCost)
    ensures CostTableFrom([prog, "-5"]) == Failure(MissingDreamMatterCost)
  {
    assert Decimal(5) == "5";
    assert Decimal(1) == "1" && Decimal(10) == "10" && Decimal(100) == "100";
    assert Decimal(1000) == "1000";
    ParseDecimal(5);
    ParseDecimal(1000);
  }
}
