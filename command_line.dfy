/**
 * The command line of BofSA.main: `-tN` sets the number of worker
 * threads, `-lMode` the logging mode; later arguments override earlier
 * ones and any other argument is ignored.
 */
module CommandLine {
  import opened Base
  import Logging

  /** What main passes on to the game: the thread limit and the log mode. */
  datatype Options = Options(maxThreads: int, logMode: Logging.Mode)

  predicate StartsWith(s: string, prefix: string)
  {
    |prefix| <= |s| && s[..|prefix|] == prefix
  }

  predicate IsDigit(c: char)
  {
    '0' <= c <= '9'
  }

  predicate AllDigits(s: string)
  {
    forall i :: 0 <= i < |s| ==> IsDigit(s[i])
  }

  /** The value of a run of decimal digits, most significant first. */
  function Digits(s: string): (r: nat)
    requires AllDigits(s)
    decreases |s|
  {
    if s == [] then 0 else Digits(s[..|s| - 1]) * 10 + (s[|s| - 1] as int - '0' as int)
  }

  /**
   * Integer.parseInt: an optional sign and at least one decimal digit,
   * whose value must fit in an int; None stands for NumberFormatException.
   */
  function ParseInt(s: string): (r: Option<int>)
    ensures r.Some? ==> -0x8000_0000 <= r.value < 0x8000_0000
  {
    var signed := |s| > 0 && (s[0] == '-' || s[0] == '+');
    var body := if signed then s[1..] else s;
    if body == [] || !AllDigits(body) then None
    else
      var magnitude: int := Digits(body);
      var v := if signed && s[0] == '-' then -magnitude else magnitude;
      if -0x8000_0000 <= v < 0x8000_0000 then Some(v) else None
  }

  /** The decimal digits of `n`, with no leading zero. */
  function Decimal(n: nat): (r: string)
    ensures AllDigits(r) && r != []
    decreases n
  {
    var last := ['0' + (n % 10) as char];
    if n < 10 then last else Decimal(n / 10) + last
  }

  lemma {:induction false} DigitsOfDecimal(n: nat)
    ensures Digits(Decimal(n)) == n
    decreases n
  {
    var d := Decimal(n);
    if n >= 10 {
      DigitsOfDecimal(n / 10);
      assert d[..|d| - 1] == Decimal(n / 10);
    }
  }

  /** A thread count written in decimal is read back as itself. */
  lemma ParseDecimal(n: nat)
    requires n < 0x8000_0000
    ensures ParseInt(Decimal(n)) == Some(n)
  {
    DigitsOfDecimal(n);
  }

  /** String.equalsIgnoreCase for ASCII letters. */
  function Lower(c: char): char
  {
    if 'A' <= c <= 'Z' then (c as int - 'A' as int + 'a' as int) as char else c
  }

  predicate EqualsIgnoreCase(a: string, b: string)
  {
    |a| == |b| && forall i :: 0 <= i < |a| ==> Lower(a[i]) == Lower(b[i])
  }

  /** The mode a `-l` argument selects from the text after `-l`. */
  function ModeNamed(s: string): Logging.Mode
  {
    if EqualsIgnoreCase(s, "Detailed") then Logging.Detailed
    else if EqualsIgnoreCase(s, "Sample") then Logging.Sample
    else Logging.Basic
  }

  /** One pass of main's loop over an argument. */
  function Step(o: Options, s: string): Options
  {
    if StartsWith(s, "-t") then
      match ParseInt(s[2..])
      case Some(n) => o.(maxThreads := n)
      case None => o
    else if StartsWith(s, "-l") then o.(logMode := ModeNamed(s[2..]))
    else o
  }

  /** main's loop over the arguments, first to last. */
  function Loop(o: Options, args: seq<string>): Options
    decreases |args|
  {
    if args == [] then o else Loop(Step(o, args[0]), args[1..])
  }

  lemma {:induction false} LoopSnoc(o: Options, args: seq<string>, s: string)
    ensures Loop(o, args + [s]) == Step(Loop(o, args), s)
    decreases |args|
  {
    if args != [] {
      assert (args + [s])[1..] == args[1..] + [s];
      LoopSnoc(Step(o, args[0]), args[1..], s);
    }
  }

  /** The thread count of the last `-t` argument with a number the parse accepts, else `default`. */
  function LastThreads(args: seq<string>, default: int): int
    decreases |args|
  {
    if args == [] then default
    else
      var s := args[|args| - 1];
      if StartsWith(s, "-t") && ParseInt(s[2..]).Some? then ParseInt(s[2..]).value
      else LastThreads(args[..|args| - 1], default)
  }

  /** The mode named by the last `-l` argument, else `default`. */
  function LastMode(args: seq<string>, default: Logging.Mode): Logging.Mode
    decreases |args|
  {
    if args == [] then default
    else
      var s := args[|args| - 1];
      if !StartsWith(s, "-t") && StartsWith(s, "-l") then ModeNamed(s[2..])
      else LastMode(args[..|args| - 1], default)
  }

  /** The loop lets the last argument of each kind win. */
  lemma {:induction false} LoopLastWins(o: Options, args: seq<string>)
    ensures Loop(o, args) == Options(LastThreads(args, o.maxThreads), LastMode(args, o.logMode))
    decreases |args|
  {
    if args != [] {
      var init, s := args[..|args| - 1], args[|args| - 1];
      assert args == init + [s];
      LoopSnoc(o, init, s);
      LoopLastWins(o, init);
    }
  }

  /**
   * The argument loop of main, with `processors` the number of available
   * processors: it starts from that many threads and BASIC logging.
   */
  method ParseArguments(args: seq<string>, processors: int) returns (maxThreads: int, logMode: Logging.Mode)
    ensures maxThreads == LastThreads(args, processors)
    ensures logMode == LastMode(args, Logging.Basic)
  {
    maxThreads := processors;
    logMode := Logging.Basic;
    for i := 0 to |args|
      invariant Options(maxThreads, logMode) == Loop(Options(processors, Logging.Basic), args[..i])
    {
      var s := args[i];
      if StartsWith(s, "-t") {
        var n := ParseInt(s[2..]);
        if n.Some? {
          maxThreads := n.value;
        }
      } else if StartsWith(s, "-l") {
        logMode := ModeNamed(s[2..]);
      }
      assert args[..i + 1] == args[..i] + [s];
      LoopSnoc(Options(processors, Logging.Basic), args[..i], s);
    }
    assert args[..|args|] == args;
    LoopLastWins(Options(processors, Logging.Basic), args);
  }
}
