/**
 * The case-insensitive token matcher of include/ArgParser.h. Registrations are
 * (lower-cased name, handler) pairs; parsing tests every token of the command
 * line against every registration and fires the handler of each match with the
 * token that follows it. A handler is a value of the caller's choosing; the
 * firings are returned in the order the callbacks would run. The command line
 * itself (CommandLineToArgvW) is an input, and the help listing is returned
 * instead of being shown in a message box.
 */
module ArgParse {

  datatype Option<T> = None | Some(value: T)

  /** A registration: the stored name and its handler. */
  datatype ArgPair<H> = ArgPair(arg: string, handler: H)

  /** One callback invocation: the handler and the value handed to it. */
  datatype Firing<H> = Firing(handler: H, value: string)

  /** towlower on a character in the "C" locale, which is the locale the program runs
   *  in because it never calls setlocale: the ASCII capitals A-Z become small letters,
   *  and every other character, other alphabets' capitals included, is left as it is. */
  function LowerChar(c: char): (r: char)
    ensures !('A' <= r <= 'Z')
    ensures ('a' <= c <= 'z' || !('A' <= c <= 'Z')) ==> r == c
    ensures 'A' <= c <= 'Z' ==> 'a' <= r <= 'z' && r as int - c as int == 32
  {
    if 'A' <= c <= 'Z' then (c as int + 32) as char else c
  }

  /** A string lower-cased character by character. */
  function Lower(s: string): (r: string)
    ensures |r| == |s|
    ensures forall i :: 0 <= i < |r| ==> !('A' <= r[i] <= 'Z')
    decreases |s|
  {
    if s == [] then [] else Lower(s[..|s| - 1]) + [LowerChar(s[|s| - 1])]
  }

  /** The indexwise reading of Lower: character i of the result is character i lower-cased. */
  lemma {:induction false} LowerAt(s: string, i: nat)
    requires i < |s|
    ensures Lower(s)[i] == LowerChar(s[i])
    decreases |s|
  {
    if i < |s| - 1 {
      LowerAt(s[..|s| - 1], i);
    }
  }

  /** Lower-casing twice is lower-casing once. */
  lemma {:induction false} LowerIdempotent(s: string)
    ensures Lower(Lower(s)) == Lower(s)
  {
    forall i | 0 <= i < |s|
      ensures Lower(Lower(s))[i] == Lower(s)[i]
    {
      LowerAt(s, i);
      LowerAt(Lower(s), i);
    }
  }

  /** Two strings that differ only in the case of ASCII letters. */
  predicate CaseEquivalent(a: string, b: string) {
    |a| == |b| && forall i :: 0 <= i < |a| ==> LowerChar(a[i]) == LowerChar(b[i])
  }

  lemma {:induction false} CaseEquivalentLower(a: string, b: string)
    requires CaseEquivalent(a, b)
    ensures Lower(a) == Lower(b)
  {
    forall i | 0 <= i < |a|
      ensures Lower(a)[i] == Lower(b)[i]
    {
      LowerAt(a, i);
      LowerAt(b, i);
    }
  }

  /** Models the in-place loop of the ArgPair constructor and of TestEqual. */
  method LowerCase(s: string) returns (r: string)
    ensures r == Lower(s)
  {
    r := s;
    var i := 0;
    while i < |r|
      invariant 0 <= i <= |r| == |s|
      invariant forall j :: 0 <= j < i ==> r[j] == LowerChar(s[j])
      invariant forall j :: i <= j < |r| ==> r[j] == s[j]
    {
      r := r[i := LowerChar(r[i])];
      i := i + 1;
    }
    forall j | 0 <= j < |s|
      ensures r[j] == Lower(s)[j]
    {
      LowerAt(s, j);
    }
  }

  /** TestEqual's comparison: the stored name against the lower-cased token. */
  predicate Matches<H>(pair: ArgPair<H>, token: string) {
    pair.arg == Lower(token)
  }

  /** The value handed to a callback for the token at position i: the next token,
   *  or the empty string after the last one. */
  function ValueAfter(cmdLine: seq<string>, i: nat): (v: string)
    requires i < |cmdLine|
  {
    if i < |cmdLine| - 1 then cmdLine[i + 1] else ""
  }

  /** The firings for the token at position i, in registration order. */
  function FiringsAt<H>(args: seq<ArgPair<H>>, cmdLine: seq<string>, i: nat): (r: seq<Firing<H>>)
    requires i < |cmdLine|
    ensures |r| <= |args|
    decreases |args|
  {
    if args == [] then []
    else
      var last := args[|args| - 1];
      FiringsAt(args[..|args| - 1], cmdLine, i) +
      (if Matches(last, cmdLine[i]) then [Firing(last.handler, ValueAfter(cmdLine, i))] else [])
  }

  /** The firings for the first n tokens, position by position. */
  function FiringsUpTo<H>(args: seq<ArgPair<H>>, cmdLine: seq<string>, n: nat): (r: seq<Firing<H>>)
    requires n <= |cmdLine|
    decreases n
  {
    if n == 0 then [] else FiringsUpTo(args, cmdLine, n - 1) + FiringsAt(args, cmdLine, n - 1)
  }

  /** Registration k fires f for the token at position i. */
  ghost predicate FiresAt<H>(args: seq<ArgPair<H>>, cmdLine: seq<string>, i: nat, k: nat, f: Firing<H>) {
    i < |cmdLine| && k < |args| && Matches(args[k], cmdLine[i]) &&
    f == Firing(args[k].handler, ValueAfter(cmdLine, i))
  }

  /** Every firing at position i comes from a registration whose name is the lower-cased token. */
  lemma {:induction false} FiringsAtSound<H>(args: seq<ArgPair<H>>, cmdLine: seq<string>, i: nat, f: Firing<H>)
    requires i < |cmdLine| && f in FiringsAt(args, cmdLine, i)
    ensures exists k: nat :: FiresAt(args, cmdLine, i, k, f)
    decreases |args|
  {
    assert args != [];
    var front := args[..|args| - 1];
    if f in FiringsAt(front, cmdLine, i) {
      FiringsAtSound(front, cmdLine, i, f);
      var k: nat :| FiresAt(front, cmdLine, i, k, f);
      assert args[k] == front[k];
      assert FiresAt(args, cmdLine, i, k, f);
    } else {
      assert FiresAt(args, cmdLine, i, |args| - 1, f);
    }
  }

  /** Every registration that matches the token at position i fires there. */
  lemma {:induction false} FiringsAtComplete<H>(args: seq<ArgPair<H>>, cmdLine: seq<string>, i: nat, k: nat)
    requires i < |cmdLine| && k < |args| && Matches(args[k], cmdLine[i])
    ensures Firing(args[k].handler, ValueAfter(cmdLine, i)) in FiringsAt(args, cmdLine, i)
    decreases |args|
  {
    if k < |args| - 1 {
      var front := args[..|args| - 1];
      assert front[k] == args[k];
      FiringsAtComplete(front, cmdLine, i, k);
    }
  }

  /** Soundness over the whole command line: each firing is a match at some position. */
  lemma {:induction false} FiringSound<H>(args: seq<ArgPair<H>>, cmdLine: seq<string>, n: nat, f: Firing<H>)
    requires n <= |cmdLine| && f in FiringsUpTo(args, cmdLine, n)
    ensures exists i: nat, k: nat :: i < n && FiresAt(args, cmdLine, i, k, f)
    decreases n
  {
    assert n != 0;
    var before := FiringsUpTo(args, cmdLine, n - 1);
    assert FiringsUpTo(args, cmdLine, n) == before + FiringsAt(args, cmdLine, n - 1);
    if f in before {
      FiringSound(args, cmdLine, n - 1, f);
      var i: nat, k: nat :| i < n - 1 && FiresAt(args, cmdLine, i, k, f);
      assert i < n;
    } else {
      FiringsAtSound(args, cmdLine, n - 1, f);
      var k: nat :| FiresAt(args, cmdLine, n - 1, k, f);
      assert n - 1 < n;
    }
  }

  /** Completeness: every position, the first included, is tested against every registration. */
  lemma {:induction false} FiringComplete<H>(args: seq<ArgPair<H>>, cmdLine: seq<string>, n: nat, i: nat, k: nat)
    requires i < n <= |cmdLine| && k < |args| && Matches(args[k], cmdLine[i])
    ensures Firing(args[k].handler, ValueAfter(cmdLine, i)) in FiringsUpTo(args, cmdLine, n)
    decreases n
  {
    var f := Firing(args[k].handler, ValueAfter(cmdLine, i));
    var before := FiringsUpTo(args, cmdLine, n - 1);
    var here := FiringsAt(args, cmdLine, n - 1);
    assert FiringsUpTo(args, cmdLine, n) == before + here;
    if i < n - 1 {
      FiringComplete(args, cmdLine, n - 1, i, k);
      assert f in before;
    } else {
      FiringsAtComplete(args, cmdLine, i, k);
      assert f in here;
    }
  }

  /** A registration made under any spelling fires for a token of any other spelling. */
  lemma MatchIgnoresCase<H>(name: string, h: H, token: string)
    requires CaseEquivalent(name, token)
    ensures Matches(ArgPair(Lower(name), h), token)
  {
    CaseEquivalentLower(name, token);
  }

  /** How many times handler h fires. */
  function Count<H(==)>(fired: seq<Firing<H>>, h: H): (c: nat)
    ensures c <= |fired|
    ensures c == 0 <==> forall j :: 0 <= j < |fired| ==> fired[j].handler != h
    ensures c == |fired| <==> forall j :: 0 <= j < |fired| ==> fired[j].handler == h
    decreases |fired|
  {
    if fired == [] then 0
    else Count(fired[..|fired| - 1], h) + (if fired[|fired| - 1].handler == h then 1 else 0)
  }

  /** The bool specialisation of AddArg: each firing of h flips the value, whatever it is given. */
  function Toggled<H(==)>(b: bool, fired: seq<Firing<H>>, h: H): (r: bool)
  {
    if fired == [] then b
    else
      var before := Toggled(b, fired[..|fired| - 1], h);
      if fired[|fired| - 1].handler == h then !before else before
  }

  /** A bool registration ends flipped exactly when it fired an odd number of times. */
  lemma {:induction false} ToggledParity<H>(b: bool, fired: seq<Firing<H>>, h: H)
    ensures Toggled(b, fired, h) == (b != (Count(fired, h) % 2 == 1))
    decreases |fired|
  {
    if fired != [] {
      ToggledParity(b, fired[..|fired| - 1], h);
    }
  }

  /** The names registered, in registration order: the help listing. */
  function Names<H>(args: seq<ArgPair<H>>): (r: seq<string>)
  {
    seq(|args|, k requires 0 <= k < |args| => args[k].arg)
  }

  //---------------------------------------------------------------------------
  // std::stoi, the conversion of the int specialisation of AddArg
  //---------------------------------------------------------------------------

  const IntMin: int := -0x8000_0000
  const IntMax: int := 0x7FFF_FFFF

  /** iswspace in the "C" locale: space, tab, line feed, vertical tab, form feed, return. */
  predicate IsSpace(c: char) {
    c == ' ' || '\t' <= c <= '\r'
  }

  predicate IsDigit(c: char) {
    '0' <= c <= '9'
  }

  /** The string without its leading white space. */
  function SkipSpace(s: string): (r: string)
    ensures r == [] || !IsSpace(r[0])
    ensures |r| <= |s|
  {
    if s != [] && IsSpace(s[0]) then SkipSpace(s[1..]) else s
  }

  /** SkipSpace drops a prefix of the string, and only white space. */
  lemma {:induction false} SkipSpaceDropsSpace(s: string)
    ensures SkipSpace(s) == s[|s| - |SkipSpace(s)|..]
    ensures forall j :: 0 <= j < |s| - |SkipSpace(s)| ==> IsSpace(s[j])
    decreases |s|
  {
    if s != [] && IsSpace(s[0]) {
      SkipSpaceDropsSpace(s[1..]);
      forall j | 0 < j < |s| - |SkipSpace(s)|
        ensures IsSpace(s[j])
      {
        assert s[j] == s[1..][j - 1];
      }
    }
  }

  /** The length of the run of digits the string starts with. */
  function DigitRun(s: string): (n: nat)
    ensures n <= |s|
    ensures n < |s| ==> !IsDigit(s[n])
  {
    if s != [] && IsDigit(s[0]) then 1 + DigitRun(s[1..]) else 0
  }

  /** The run DigitRun measures is made of digits. */
  lemma {:induction false} DigitRunDigits(s: string)
    ensures forall j :: 0 <= j < DigitRun(s) ==> IsDigit(s[j])
    decreases |s|
  {
    if s != [] && IsDigit(s[0]) {
      DigitRunDigits(s[1..]);
      forall j | 0 < j < DigitRun(s)
        ensures IsDigit(s[j])
      {
        assert s[j] == s[1..][j - 1];
      }
    }
  }

  /** The value of one decimal digit. */
  function DigitOf(c: char): nat {
    if IsDigit(c) then c as int - '0' as int else 0
  }

  /** The value of a run of decimal digits, most significant first. */
  function DigitsValue(d: string): nat
    decreases |d|
  {
    if d == [] then 0 else DigitsValue(d[..|d| - 1]) * 10 + DigitOf(d[|d| - 1])
  }

  /** std::stoi(s) with base 10, which calls wcstol (a 32-bit long on this platform): white
   *  space is skipped, an optional sign is read, then the longest run of digits, and
   *  whatever follows the run is ignored. None stands for the two exceptions: invalid_argument
   *  when no digit is there to convert, out_of_range when the value does not fit an int. */
  function StoI(s: string): Option<int> {
    ReadInt(SkipSpace(s))
  }

  /** wcstol after the white space: an optional sign, then the digits. */
  function ReadInt(t: string): Option<int> {
    var signed := t != [] && (t[0] == '-' || t[0] == '+');
    match ReadDigits(if signed then t[1..] else t)
    case None => None
    case Some(magnitude) =>
      var v: int := if signed && t[0] == '-' then -(magnitude as int) else magnitude;
      if IntMin <= v <= IntMax then Some(v) else None
  }

  /** The value of the digits the string starts with, or None when it starts with none. */
  function ReadDigits(u: string): Option<nat> {
    var n := DigitRun(u);
    if n == 0 then None else Some(DigitsValue(u[..n]))
  }

  /** The decimal digits of n, most significant first, without leading zeros. */
  function Decimal(n: nat): (d: string)
    ensures d != [] && forall j :: 0 <= j < |d| ==> IsDigit(d[j])
    decreases n
  {
    if n < 10 then [('0' as int + n) as char] else Decimal(n / 10) + [('0' as int + n % 10) as char]
  }

  lemma {:induction false} DecimalValue(n: nat)
    ensures DigitsValue(Decimal(n)) == n
    decreases n
  {
    if n >= 10 {
      DecimalValue(n / 10);
      assert Decimal(n)[..|Decimal(n)| - 1] == Decimal(n / 10);
    }
  }

  /** A run made only of digits is read to its end. */
  lemma {:induction false} DigitRunAll(d: string)
    requires forall j :: 0 <= j < |d| ==> IsDigit(d[j])
    ensures DigitRun(d) == |d|
    decreases |d|
  {
    if d != [] {
      DigitRunAll(d[1..]);
    }
  }

  /** A string made only of digits is read whole. */
  lemma ReadAllDigits(d: string)
    requires d != [] && forall j :: 0 <= j < |d| ==> IsDigit(d[j])
    ensures ReadDigits(d) == Some(DigitsValue(d))
  {
    DigitRunAll(d);
    assert d[..|d|] == d;
  }

  /** The decimal digits of n read back as n. */
  lemma ReadDecimal(n: nat)
    ensures ReadDigits(Decimal(n)) == Some(n)
  {
    ReadAllDigits(Decimal(n));
    DecimalValue(n);
  }

  /** Digits worth m convert to m exactly when m fits an int. */
  lemma StoIUnsigned(d: string, m: nat)
    requires d != [] && IsDigit(d[0]) && ReadDigits(d) == Some(m)
    ensures StoI(d) == if m <= IntMax then Some(m) else None
  {
    assert SkipSpace(d) == d;
  }

  /** The same digits after a minus sign convert to -m exactly when that fits an int. */
  lemma StoINegated(d: string, m: nat)
    requires ReadDigits(d) == Some(m)
    ensures StoI("-" + d) == if IntMin <= -(m as int) then Some(-(m as int)) else None
  {
    var s := "-" + d;
    assert s[0] == '-' && s[1..] == d;
    assert SkipSpace(s) == s;
  }

  /** stoi reads back every int that it is given in decimal, with a minus sign for the
   *  negative ones. */
  lemma StoIDecimal(v: int)
    requires IntMin <= v <= IntMax
    ensures StoI(if v < 0 then "-" + Decimal(-v) else Decimal(v)) == Some(v)
  {
    if v < 0 {
      ReadDecimal(-v);
      StoINegated(Decimal(-v), -v);
    } else {
      ReadDecimal(v);
      StoIUnsigned(Decimal(v), v);
    }
  }

  /** Neither an empty value nor one whose first character is not white space, a sign or
   *  a digit can be converted: stoi throws invalid_argument. */
  lemma StoIRejects(s: string)
    requires s == [] || !(IsSpace(s[0]) || s[0] == '-' || s[0] == '+' || IsDigit(s[0]))
    ensures StoI(s) == None
  {
  }

  /** Past the int range stoi throws out_of_range. */
  lemma StoIOutOfRange(v: int)
    requires v > IntMax
    ensures StoI(Decimal(v)) == None && StoI("-" + Decimal(v + 1)) == None
  {
    ReadDecimal(v);
    StoIUnsigned(Decimal(v), v);
    ReadDecimal(v + 1);
    StoINegated(Decimal(v + 1), v + 1);
  }

  class ArgParser<H> {
    var args: seq<ArgPair<H>>

    constructor ()
      ensures args == []
    {
      args := [];
    }

    /** Models AddArg (and each typed specialisation, which only chooses the handler):
     *  the name is stored lower-cased. */
    method AddArg(s: string, handler: H)
      modifies this
      ensures args == old(args) + [ArgPair(Lower(s), handler)]
    {
      var name := LowerCase(s);
      args := args + [ArgPair(name, handler)];
    }

    /** Models Parse on the tokens of the command line (position 0 is the program). */
    method Parse(cmdLine: seq<string>) returns (listing: Option<seq<string>>, fired: seq<Firing<H>>)
      ensures listing.Some? <==> |cmdLine| == 2 && cmdLine[1] == "?"
      ensures listing.Some? ==> listing.value == Names(args)
      ensures fired == FiringsUpTo(args, cmdLine, |cmdLine|)
    {
      listing := None;
      if |cmdLine| == 2 && cmdLine[1] == "?" {
        var names: seq<string> := [];
        for k := 0 to |args|
          invariant names == Names(args[..k])
        {
          names := names + [args[k].arg];
        }
        assert args[..|args|] == args;
        listing := Some(names);
      }
      fired := [];
      for i := 0 to |cmdLine|
        invariant fired == FiringsUpTo(args, cmdLine, i)
      {
        var value := if i < |cmdLine| - 1 then cmdLine[i + 1] else "";
        var token := LowerCase(cmdLine[i]);
        var here: seq<Firing<H>> := [];
        for k := 0 to |args|
          invariant here == FiringsAt(args[..k], cmdLine, i)
        {
          assert args[..k + 1][..k] == args[..k];
          if args[k].arg == token {
            here := here + [Firing(args[k].handler, value)];
          }
        }
        assert args[..|args|] == args;
        fired := fired + here;
      }
    }
  }
}
