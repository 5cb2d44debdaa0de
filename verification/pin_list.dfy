/**
 * The push-button controller's command line: exactly three positional
 * arguments, each a ':'-separated list of five GPIO numbers (buttons, RA
 * driver, DEC driver), split with `strtok` and read with `atoi`.
 */
module PinList {
  import opened Common
  import opened CArith
  import opened A4988

  // ---------------------------------------------------------------------------
  // strtok(s, ":")
  // ---------------------------------------------------------------------------

  /** The longest prefix of `s` without a ':'. */
  function TokenPrefix(s: string): (t: string)
    ensures |t| <= |s| && t == s[..|t|]
    ensures ':' !in t
    ensures |t| < |s| ==> s[|t|] == ':'
    decreases |s|
  {
    if |s| == 0 || s[0] == ':' then "" else [s[0]] + TokenPrefix(s[1..])
  }

  /**
   * The tokens `strtok` returns for `s` with delimiter ':': the maximal
   * ':'-free pieces, with empty pieces (leading, trailing or doubled
   * delimiters) skipped.
   */
  function Tokens(s: string): (ts: seq<string>)
    ensures forall i :: 0 <= i < |ts| ==> |ts[i]| > 0 && ':' !in ts[i]
    decreases |s|
  {
    if |s| == 0 then []
    else if s[0] == ':' then Tokens(s[1..])
    else
      var t := TokenPrefix(s);
      [t] + Tokens(s[|t|..])
  }

  /** The tokens joined back with one ':' between each. */
  function Join(ts: seq<string>): string
    decreases |ts|
  {
    if |ts| == 0 then ""
    else if |ts| == 1 then ts[0]
    else ts[0] + ":" + Join(ts[1..])
  }

  /** The prefix of a non-empty ':'-free token followed by ':' or the end is the token itself. */
  lemma TokenPrefixOfJoin(t: string, rest: string)
    requires |t| > 0 && ':' !in t
    requires |rest| == 0 || rest[0] == ':'
    ensures TokenPrefix(t + rest) == t
    decreases |t|
  {
    if |t| > 1 {
      assert (t + rest)[1..] == t[1..] + rest;
      TokenPrefixOfJoin(t[1..], rest);
    } else {
      assert (t + rest)[1..] == rest;
    }
  }

  /** Splitting a joined list of non-empty ':'-free tokens gives the list back. */
  lemma {:induction false} TokensOfJoin(ts: seq<string>)
    requires forall i :: 0 <= i < |ts| ==> |ts[i]| > 0 && ':' !in ts[i]
    ensures Tokens(Join(ts)) == ts
    decreases |ts|
  {
    if |ts| == 1 {
      TokenPrefixOfJoin(ts[0], "");
      assert ts[0] + "" == ts[0];
      assert Join(ts)[|ts[0]|..] == "";
    } else if |ts| > 1 {
      var rest := Join(ts[1..]);
      var s := Join(ts);
      assert s == ts[0] + (":" + rest);
      TokenPrefixOfJoin(ts[0], ":" + rest);
      assert s[|ts[0]|..] == ":" + rest;
      assert (":" + rest)[1..] == rest;
      TokensOfJoin(ts[1..]);
      assert Tokens(s) == [ts[0]] + Tokens(":" + rest);
      assert Tokens(":" + rest) == Tokens(rest);
      assert ts == [ts[0]] + ts[1..];
    }
  }

  // ---------------------------------------------------------------------------
  // atoi
  // ---------------------------------------------------------------------------

  predicate IsDigit(c: char) {
    '0' <= c <= '9'
  }

  predicate IsSpace(c: char) {
    c == ' ' || (9 <= c as int <= 13)   // space, \t, \n, \v, \f, \r
  }

  function DigitValue(c: char): int
    requires IsDigit(c)
  {
    (c as int) - ('0' as int)
  }

  /** The longest prefix of `s` made of decimal digits. */
  function DigitPrefix(s: string): (d: string)
    ensures |d| <= |s| && d == s[..|d|]
    ensures forall i :: 0 <= i < |d| ==> IsDigit(d[i])
    decreases |s|
  {
    if |s| == 0 || !IsDigit(s[0]) then "" else [s[0]] + DigitPrefix(s[1..])
  }

  /** The value of a string of decimal digits, most significant first. */
  function DigitsValue(d: string): (v: nat)
    requires forall i :: 0 <= i < |d| ==> IsDigit(d[i])
    decreases |d|
  {
    if |d| == 0 then 0 else DigitsValue(d[..|d| - 1]) * 10 + DigitValue(d[|d| - 1])
  }

  /** Leading white space dropped. */
  function SkipSpace(s: string): (t: string)
    ensures |t| <= |s|
    ensures |t| > 0 ==> !IsSpace(t[0])
    decreases |s|
  {
    if |s| > 0 && IsSpace(s[0]) then SkipSpace(s[1..]) else s
  }

  /**
   * `atoi`: white space, an optional sign, then the longest run of digits;
   * 0 when there are none. Values beyond `int` are undefined in C and are
   * not bounded here.
   */
  function Atoi(s: string): (n: int)
    ensures |SkipSpace(s)| == 0 ==> n == 0
    ensures n < 0 ==> SkipSpace(s)[0] == '-'
  {
    var t := SkipSpace(s);
    if |t| > 0 && (t[0] == '-' || t[0] == '+') then
      var v: int := DigitsValue(DigitPrefix(t[1..]));
      if t[0] == '-' then -v else v
    else DigitsValue(DigitPrefix(t))
  }

  function DigitChar(d: int): (c: char)
    requires 0 <= d <= 9
    ensures IsDigit(c) && DigitValue(c) == d
  {
    ('0' as int + d) as char
  }

  /** The decimal form of a natural number, without leading zeros. */
  function Itoa(n: nat): (s: string)
    ensures |s| > 0 && forall i :: 0 <= i < |s| ==> IsDigit(s[i])
    decreases n
  {
    if n < 10 then [DigitChar(n)] else Itoa(n / 10) + [DigitChar(n % 10)]
  }

  /** `atoi` reads back what `Itoa` writes. */
  lemma {:induction false} AtoiItoa(n: nat)
    ensures Atoi(Itoa(n)) == n
  {
    var s := Itoa(n);
    DigitPrefixAll(s);
    assert SkipSpace(s) == s;
    ItoaValue(n);
  }

  lemma {:induction false} ItoaValue(n: nat)
    ensures DigitsValue(Itoa(n)) == n
    decreases n
  {
    if n >= 10 {
      var s := Itoa(n);
      assert s[..|s| - 1] == Itoa(n / 10);
      ItoaValue(n / 10);
    }
  }

  lemma {:induction false} DigitPrefixAll(s: string)
    requires forall i :: 0 <= i < |s| ==> IsDigit(s[i])
    ensures DigitPrefix(s) == s
    decreases |s|
  {
    if |s| > 0 {
      DigitPrefixAll(s[1..]);
      assert s == [s[0]] + s[1..];
    }
  }

  // ---------------------------------------------------------------------------
  // The argument check in main
  // ---------------------------------------------------------------------------

  /** How `main` rejects its arguments. */
  datatype ParseError =
    | WrongArgumentCount   // not exactly three positional arguments: usage, exit failure
    | InvalidPin           // a group with a missing pin or a pin of -1
    | TooManyPins          // more than five tokens: `main` writes past its five-element row

  const PINS_PER_GROUP: int := 5

  /**
   * One argument: its tokens read with `atoi` into a row pre-filled with -1;
   * any -1 left (too few tokens, or a literal -1) is an invalid pin. A sixth
   * token would be stored past the row, which C leaves undefined: the model
   * rejects it.
   */
  function ParseGroup(arg: string): (r: Result<seq<int>, ParseError>)
    ensures r.Ok? ==> |r.value| == PINS_PER_GROUP && forall i :: 0 <= i < PINS_PER_GROUP ==> r.value[i] != -1
    ensures r.Ok? <==> |Tokens(arg)| == PINS_PER_GROUP && forall i :: 0 <= i < PINS_PER_GROUP ==> Atoi(Tokens(arg)[i]) != -1
    ensures r.Ok? ==> forall i :: 0 <= i < PINS_PER_GROUP ==> r.value[i] == Atoi(Tokens(arg)[i])
    ensures r == Err(TooManyPins) <==> |Tokens(arg)| > PINS_PER_GROUP
  {
    var ts := Tokens(arg);
    if |ts| > PINS_PER_GROUP then Err(TooManyPins)
    else if |ts| < PINS_PER_GROUP then Err(InvalidPin)   // the unfilled slots still hold -1
    else
      if exists i :: 0 <= i < PINS_PER_GROUP && Atoi(ts[i]) == -1 then Err(InvalidPin)
      else Ok(seq(PINS_PER_GROUP, i requires 0 <= i < PINS_PER_GROUP => Atoi(ts[i])))
  }

  /** The decimal forms of five natural numbers, joined with ':', parse back to them. */
  lemma ParseGroupRoundTrip(pins: seq<nat>, texts: seq<string>)
    requires |pins| == PINS_PER_GROUP && |texts| == |pins|
    requires forall i :: 0 <= i < |pins| ==> texts[i] == Itoa(pins[i])
    ensures ParseGroup(Join(texts)) == Ok(pins)
  {
    assert forall i :: 0 <= i < |texts| ==> |texts[i]| > 0 && ':' !in texts[i];
    TokensOfJoin(texts);
    forall i | 0 <= i < |pins|
      ensures Atoi(texts[i]) == pins[i]
    {
      AtoiItoa(pins[i]);
    }
    var r := ParseGroup(Join(texts));
    assert r.Ok?;
    assert r.value == pins;
  }

  /** The three groups, in argument order. */
  datatype Config = Config(buttons: seq<int>, ra: seq<int>, dec: seq<int>)

  /**
   * The positional arguments of `main`: exactly three, each a valid group;
   * the first failing group decides the error.
   */
  function ParseArgs(args: seq<string>): (r: Result<Config, ParseError>)
    ensures |args| != 3 ==> r == Err(WrongArgumentCount)
    ensures r.Ok? <==> |args| == 3 && ParseGroup(args[0]).Ok? && ParseGroup(args[1]).Ok? && ParseGroup(args[2]).Ok?
    ensures r.Ok? ==> r.value == Config(ParseGroup(args[0]).value, ParseGroup(args[1]).value, ParseGroup(args[2]).value)
  {
    if |args| != 3 then Err(WrongArgumentCount)
    else
      match ParseGroup(args[0])
      case Err(e) => Err(e)
      case Ok(b) =>
        match ParseGroup(args[1])
        case Err(e) => Err(e)
        case Ok(ra) =>
          match ParseGroup(args[2])
          case Err(e) => Err(e)
          case Ok(dec) => Ok(Config(b, ra, dec))
  }

  /** A pin number as the driver's `unsigned` field holds it. */
  function AsUnsigned(p: int): (u: nat)
    ensures InUInt(u) && (u - p) % UINT_MODULUS == 0
    ensures InUInt(p) ==> u == p
  {
    p % UINT_MODULUS
  }

  /** A driver group is ordered direction, step, sleep, MS2, MS1. */
  function DriverOfGroup(g: seq<int>): (d: Driver)
    requires |g| == PINS_PER_GROUP
    ensures (forall i :: 0 <= i < |g| ==> InUInt(g[i])) ==>
              d == Driver(sleep := g[2], direction := g[0], step := g[1], ms1 := g[4], ms2 := g[3])
    ensures InUInt(d.sleep) && InUInt(d.direction) && InUInt(d.step) && InUInt(d.ms1) && InUInt(d.ms2)
  {
    Driver(sleep := AsUnsigned(g[2]), direction := AsUnsigned(g[0]), step := AsUnsigned(g[1]),
           ms1 := AsUnsigned(g[4]), ms2 := AsUnsigned(g[3]))
  }

  lemma JoinFive(ts: seq<string>)
    requires |ts| == 5
    ensures Join(ts) == ts[0] + ":" + (ts[1] + ":" + (ts[2] + ":" + (ts[3] + ":" + ts[4])))
  {
    assert Join(ts[4..]) == ts[4];
    assert Join(ts[3..]) == ts[3] + ":" + ts[4];
    assert Join(ts[2..]) == ts[2] + ":" + (ts[3] + ":" + ts[4]);
    assert Join(ts[1..]) == ts[1] + ":" + (ts[2] + ":" + (ts[3] + ":" + ts[4]));
  }

  /** The documented default button pins. */
  lemma ButtonsDefault()
    ensures ParseGroup("0:22:11:9:10") == Ok([0, 22, 11, 9, 10])
  {
    var ts := ["0", "22", "11", "9", "10"];
    JoinFive(ts);
    assert Join(ts) == "0:22:11:9:10";
    assert Itoa(22) == "22" && Itoa(11) == "11" && Itoa(10) == "10";
    ParseGroupRoundTrip([0, 22, 11, 9, 10], ts);
  }

  /** The documented default RA driver pins. */
  lemma RaDefault()
    ensures ParseGroup("26:19:13:6:5") == Ok([26, 19, 13, 6, 5])
  {
    var ts := ["26", "19", "13", "6", "5"];
    JoinFive(ts);
    assert Join(ts) == "26:19:13:6:5";
    assert Itoa(26) == "26" && Itoa(19) == "19" && Itoa(13) == "13";
    ParseGroupRoundTrip([26, 19, 13, 6, 5], ts);
  }

  /** The documented default DEC driver pins. */
  lemma DecDefault()
    ensures ParseGroup("27:17:4:3:2") == Ok([27, 17, 4, 3, 2])
  {
    var ts := ["27", "17", "4", "3", "2"];
    JoinFive(ts);
    assert Join(ts) == "27:17:4:3:2";
    assert Itoa(27) == "27" && Itoa(17) == "17";
    ParseGroupRoundTrip([27, 17, 4, 3, 2], ts);
  }

  /**
   * The documented default arguments parse to the documented pins, and the
   * two driver groups wire the drivers exactly as the axis API's pin
   * constants do.
   */
  lemma DefaultWiring()
    ensures ParseArgs(["0:22:11:9:10", "26:19:13:6:5", "27:17:4:3:2"])
            == Ok(Config([0, 22, 11, 9, 10], [26, 19, 13, 6, 5], [27, 17, 4, 3, 2]))
    ensures DriverOfGroup([26, 19, 13, 6, 5]) == Driver(13, 26, 19, 5, 6)
    ensures DriverOfGroup([27, 17, 4, 3, 2]) == Driver(4, 27, 17, 2, 3)
  {
    ButtonsDefault();
    RaDefault();
    DecDefault();
  }
}
