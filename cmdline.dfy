/**
 * The switch-style command-line parser of include/CmdLine.h. Each argument
 * object consumes the tokens it recognises from a shared list by erasing them
 * in place; the parser runs the non-greedy arguments first and the greedy ones
 * last, each group in registration order. Arguments are held as values by the
 * parser; the typed conversion of a value token (atoi, or the token itself for
 * strings) is left to the reader, so values are kept as tokens.
 */
module CommandLine {

  datatype Option<T> = None | Some(value: T)

  /** How parsing an argument ends: normally, or with the message of the exception thrown. */
  datatype Outcome = Ok | Error(message: string)

  const AfHidden: bv32 := 1
  const AfGreedy: bv32 := 2
  const AfRequired: bv32 := 4

  predicate IsHidden(flags: bv32) { flags & AfHidden != 0 }
  predicate IsGreedy(flags: bv32) { flags & AfGreedy != 0 }
  predicate IsRequired(flags: bv32) { flags & AfRequired != 0 }

  /** The flags are separate bits: setting one leaves the others as they were. */
  lemma SetRequired(flags: bv32)
    ensures (flags | AfRequired) & AfRequired == AfRequired && (flags | AfRequired) & AfGreedy == flags & AfGreedy &&
            (flags | AfRequired) & AfHidden == flags & AfHidden
  {
  }

  lemma SetGreedy(flags: bv32)
    ensures (flags | AfGreedy) & AfGreedy == AfGreedy && (flags | AfGreedy) & AfRequired == flags & AfRequired &&
            (flags | AfGreedy) & AfHidden == flags & AfHidden
  {
  }

  lemma SetBoth(flags: bv32)
    ensures (flags | AfRequired | AfGreedy) & AfRequired == AfRequired &&
            (flags | AfRequired | AfGreedy) & AfGreedy == AfGreedy &&
            (flags | AfRequired | AfGreedy) & AfHidden == flags & AfHidden
  {
  }

  lemma NoFlags()
    ensures !IsHidden(0) && !IsGreedy(0) && !IsRequired(0)
  {
  }

  /** ConcatArgDash: the switch as it appears on the command line. */
  function Dash(sw: string): (r: string)
    ensures |r| == |sw| + 1 && r[0] == '-' && r[1..] == sw
  {
    "-" + sw
  }

  /** The test arg[0] != '-' of the unnamed arguments; an empty token has the
   *  terminating zero there, so it counts as unnamed. */
  predicate Unswitched(token: string) {
    |token| == 0 || token[0] != '-'
  }

  /** The registered argument kinds, with the fields their Parse methods update.
   *  A value of None is one that was never set (no default, not parsed). */
  datatype Argument =
    | SwitchArg(flags: bv32, sw: string, on: bool)
    | ValueArg(flags: bv32, sw: string, value: Option<string>)
    | UnnamedArgs(flags: bv32, min: int, values: seq<string>)
    | UnnamedArg(flags: bv32, value: Option<string>)

  /** The constructors: a switch starts at its default, false unless given. */
  function NewSwitchArg(sw: string, def: bool): (a: Argument)
    ensures a == SwitchArg(0, Dash(sw), def) && !IsRequired(a.flags) && !IsGreedy(a.flags)
  {
    NoFlags();
    SwitchArg(0, Dash(sw), def)
  }

  /** A value argument built without a default is required; one with a default starts there. */
  function NewValueArg(sw: string, def: Option<string>, flags: bv32): (a: Argument)
    ensures a.ValueArg? && a.sw == Dash(sw) && a.value == def
    ensures IsRequired(a.flags) <==> def.None? || IsRequired(flags)
    ensures IsGreedy(a.flags) == IsGreedy(flags) && IsHidden(a.flags) == IsHidden(flags)
  {
    SetRequired(flags);
    if def.None? then ValueArg(flags | AfRequired, Dash(sw), None) else ValueArg(flags, Dash(sw), def)
  }

  /** Unnamed arguments are always greedy. */
  function NewUnnamedArgs(min: int, flags: bv32): (a: Argument)
    ensures a == UnnamedArgs(flags | AfGreedy, min, [])
    ensures IsGreedy(a.flags) && IsRequired(a.flags) == IsRequired(flags) && IsHidden(a.flags) == IsHidden(flags)
  {
    SetGreedy(flags);
    UnnamedArgs(flags | AfGreedy, min, [])
  }

  /** A single unnamed argument is greedy, and required when built without a default. */
  function NewUnnamedArg(def: Option<string>, flags: bv32): (a: Argument)
    ensures a.UnnamedArg? && a.value == def && IsGreedy(a.flags)
    ensures IsRequired(a.flags) <==> def.None? || IsRequired(flags)
    ensures IsHidden(a.flags) == IsHidden(flags)
  {
    SetGreedy(flags);
    SetBoth(flags);
    if def.None? then UnnamedArg(flags | AfRequired | AfGreedy, None) else UnnamedArg(flags | AfGreedy, def)
  }

  //---------------------------------------------------------------------------
  // Reference definitions on token lists
  //---------------------------------------------------------------------------

  /** The list with every token equal to t erased, the others kept in order. */
  function Without(list: seq<string>, t: string): (r: seq<string>)
    ensures |r| <= |list| && t !in r
    decreases |list|
  {
    if list == [] then []
    else Without(list[..|list| - 1], t) + (if list[|list| - 1] == t then [] else [list[|list| - 1]])
  }

  /** How many tokens equal t. */
  function Occurrences(list: seq<string>, t: string): (n: nat)
    ensures n <= |list|
    decreases |list|
  {
    if list == [] then 0
    else Occurrences(list[..|list| - 1], t) + (if list[|list| - 1] == t then 1 else 0)
  }

  /** Erasing t removes exactly its occurrences and keeps every other token. */
  lemma {:induction false} WithoutCounts(list: seq<string>, t: string)
    ensures multiset(Without(list, t)) == multiset(list)[t := 0]
    decreases |list|
  {
    if list != [] {
      var front, last := list[..|list| - 1], list[|list| - 1];
      WithoutCounts(front, t);
      assert list == front + [last];
      var m := multiset(front);
      assert multiset(list) == m + multiset{last};
      if last == t {
        assert (m + multiset{t})[t := 0] == m[t := 0];
      } else {
        assert (m + multiset{last})[t := 0] == m[t := 0] + multiset{last};
      }
    }
  }

  /** Occurrences counts the multiplicity of t. */
  lemma {:induction false} OccurrencesCount(list: seq<string>, t: string)
    ensures Occurrences(list, t) == multiset(list)[t]
    decreases |list|
  {
    if list != [] {
      var front := list[..|list| - 1];
      OccurrencesCount(front, t);
      assert list == front + [list[|list| - 1]];
    }
  }

  /** The position of the first token equal to t. */
  function FirstIndex(list: seq<string>, t: string): (r: Option<nat>)
    ensures r.None? <==> t !in list
    ensures r.Some? ==> r.value < |list| && list[r.value] == t && t !in list[..r.value]
    decreases |list|
  {
    if list == [] then None
    else if list[0] == t then Some(0)
    else
      var tail := FirstIndex(list[1..], t);
      assert list == [list[0]] + list[1..];
      if tail.None? then None
      else
        assert list[..tail.value + 1] == [list[0]] + list[1..][..tail.value];
        Some(tail.value + 1)
  }

  /** The unnamed tokens, in order, and the named ones, in order. */
  function UnswitchedTokens(list: seq<string>): (r: seq<string>)
    ensures |r| <= |list|
    decreases |list|
  {
    if list == [] then []
    else UnswitchedTokens(list[..|list| - 1]) + (if Unswitched(list[|list| - 1]) then [list[|list| - 1]] else [])
  }

  function SwitchedTokens(list: seq<string>): (r: seq<string>)
    ensures |r| <= |list|
    decreases |list|
  {
    if list == [] then []
    else SwitchedTokens(list[..|list| - 1]) + (if Unswitched(list[|list| - 1]) then [] else [list[|list| - 1]])
  }

  /** The two halves partition the list into its unnamed and its named tokens. */
  lemma {:induction false} UnswitchedPartition(list: seq<string>)
    ensures multiset(UnswitchedTokens(list)) + multiset(SwitchedTokens(list)) == multiset(list)
    ensures forall s :: s in UnswitchedTokens(list) ==> Unswitched(s)
    ensures forall s :: s in SwitchedTokens(list) ==> !Unswitched(s)
    decreases |list|
  {
    if list != [] {
      var front := list[..|list| - 1];
      UnswitchedPartition(front);
      assert list == front + [list[|list| - 1]];
    }
  }

  /** The position of the first unnamed token. */
  function FirstUnswitched(list: seq<string>): (r: Option<nat>)
    ensures r.None? <==> forall j :: 0 <= j < |list| ==> !Unswitched(list[j])
    ensures r.Some? ==> r.value < |list| && Unswitched(list[r.value]) &&
                        forall j :: 0 <= j < r.value ==> !Unswitched(list[j])
    decreases |list|
  {
    if list == [] then None
    else if Unswitched(list[0]) then Some(0)
    else
      var tail := FirstUnswitched(list[1..]);
      if tail.None? then None else Some(tail.value + 1)
  }

  /** What one Parse call leaves: the argument's new state, the remaining tokens and how it ended. */
  datatype Parsed = Parsed(arg: Argument, rest: seq<string>, outcome: Outcome)

  /** The reference definition of the Parse method of each argument kind. */
  function ParseSpec(a: Argument, list: seq<string>): (p: Parsed)
  {
    match a
    case SwitchArg(flags, sw, on) =>
      Parsed(SwitchArg(flags, sw, on != (Occurrences(list, sw) % 2 == 1)), Without(list, sw), Ok)
    case ValueArg(flags, sw, _) =>
      var j := FirstIndex(list, sw);
      if j.None? then
        Parsed(a, list, if IsRequired(flags) then Error("Missing required argument.") else Ok)
      else if j.value + 1 < |list| then
        Parsed(ValueArg(flags, sw, Some(list[j.value + 1])), list[..j.value] + list[j.value + 2..], Ok)
      else
        Parsed(a, list[..j.value], Error("Expected argument."))
    case UnnamedArgs(flags, min, _) =>
      var found := UnswitchedTokens(list);
      Parsed(UnnamedArgs(flags, min, found), SwitchedTokens(list),
             if |found| < min then Error("Not enough arguments for command.") else Ok)
    case UnnamedArg(flags, _) =>
      var j := FirstUnswitched(list);
      if j.None? then
        Parsed(a, list, if IsRequired(flags) then Error("Missing required unnamed argument.") else Ok)
      else
        Parsed(UnnamedArg(flags, Some(list[j.value])), list[..j.value] + list[j.value + 1..], Ok)
  }

  /** Same kind, flags, switch and minimum: what parsing may not change. */
  predicate SameShape(a: Argument, b: Argument) {
    match a
    case SwitchArg(flags, sw, _) => b.SwitchArg? && b.flags == flags && b.sw == sw
    case ValueArg(flags, sw, _) => b.ValueArg? && b.flags == flags && b.sw == sw
    case UnnamedArgs(flags, min, _) => b.UnnamedArgs? && b.flags == flags && b.min == min
    case UnnamedArg(flags, _) => b.UnnamedArg? && b.flags == flags
  }

  /** A Parse call keeps the shape of its argument and only ever erases tokens. */
  lemma ParseSpecShrinks(a: Argument, list: seq<string>)
    ensures var p := ParseSpec(a, list);
            SameShape(a, p.arg) && multiset(p.rest) <= multiset(list)
  {
    match a
    case SwitchArg(_, sw, _) =>
      WithoutCounts(list, sw);
    case ValueArg(_, sw, _) =>
      var j := FirstIndex(list, sw);
      if j.Some? {
        if j.value + 1 < |list| {
          assert list == list[..j.value] + list[j.value..j.value + 2] + list[j.value + 2..];
        } else {
          assert list == list[..j.value] + list[j.value..];
        }
      }
    case UnnamedArgs(_, _, _) =>
      UnswitchedPartition(list);
    case UnnamedArg(_, _) =>
      var j := FirstUnswitched(list);
      if j.Some? {
        assert list == list[..j.value] + [list[j.value]] + list[j.value + 1..];
      }
  }

  /** A value argument erases one occurrence of its switch and the value after it; any
   *  later occurrence stays for the other arguments. */
  lemma ValueParseErasesPair(flags: bv32, sw: string, value: Option<string>, list: seq<string>)
    requires sw in list
    ensures var p := ParseSpec(ValueArg(flags, sw, value), list);
            p.outcome.Ok? ==> p.arg.value.Some? && multiset(p.rest) == multiset(list) - multiset{sw, p.arg.value.value}
  {
    var j := FirstIndex(list, sw);
    if j.value + 1 < |list| {
      assert list == list[..j.value] + [sw, list[j.value + 1]] + list[j.value + 2..];
    }
  }

  /** After a switch has been parsed no occurrence remains, so parsing it again changes nothing. */
  lemma SwitchParseIdempotent(flags: bv32, sw: string, on: bool, list: seq<string>)
    ensures var p := ParseSpec(SwitchArg(flags, sw, on), list);
            ParseSpec(p.arg, p.rest) == p
  {
    var p := ParseSpec(SwitchArg(flags, sw, on), list);
    WithoutAbsent(p.rest, sw);
  }

  lemma {:induction false} WithoutAbsent(list: seq<string>, t: string)
    requires t !in list
    ensures Without(list, t) == list && Occurrences(list, t) == 0
    decreases |list|
  {
    if list != [] {
      var front := list[..|list| - 1];
      assert list == front + [list[|list| - 1]];
      WithoutAbsent(front, t);
    }
  }

  //---------------------------------------------------------------------------
  // The Parse methods, erasing from the list in place
  //---------------------------------------------------------------------------

  /** One more token of the list: how erasing and counting extend. */
  lemma WithoutStep(list: seq<string>, k: nat, t: string)
    requires k < |list|
    ensures Without(list[..k + 1], t) == Without(list[..k], t) + (if list[k] == t then [] else [list[k]])
    ensures Occurrences(list[..k + 1], t) == Occurrences(list[..k], t) + (if list[k] == t then 1 else 0)
  {
    assert list[..k + 1][..k] == list[..k];
  }

  /** The loop of SwitchArg::Parse looks at one more token: erased or kept. */
  lemma SwitchStep(args: seq<string>, rest: seq<string>, i: nat, k: nat, t: string)
    requires k <= |args| && i < |rest|
    requires rest[..i] == Without(args[..k], t) && rest[i..] == args[k..]
    ensures k < |args| && rest[i] == args[k]
    ensures (Occurrences(args[..k + 1], t) % 2 == 1) == ((Occurrences(args[..k], t) % 2 == 1) != (args[k] == t))
    ensures rest[i] == t ==> (rest[..i] + rest[i + 1..])[..i] == Without(args[..k + 1], t) &&
                             (rest[..i] + rest[i + 1..])[i..] == args[k + 1..]
    ensures rest[i] != t ==> rest[..i + 1] == Without(args[..k + 1], t) && rest[i + 1..] == args[k + 1..]
  {
    assert rest[i] == rest[i..][0] == args[k..][0];
    WithoutStep(args, k, t);
    OddStep(Occurrences(args[..k], t));
    if rest[i] == t {
      assert rest[i + 1..] == rest[i..][1..];
    } else {
      assert rest[..i + 1] == rest[..i] + [rest[i]];
      assert rest[i + 1..] == rest[i..][1..];
    }
  }

  lemma OddStep(n: nat)
    ensures ((n + 1) % 2 == 1) == !(n % 2 == 1)
  {
  }

  /** Models SwitchArg::Parse: every token equal to the switch is erased and flips 'on'. */
  method ParseSwitch(a: Argument, args: seq<string>) returns (r: Argument, rest: seq<string>)
    requires a.SwitchArg?
    ensures Parsed(r, rest, Ok) == ParseSpec(a, args)
  {
    var on := a.on;
    rest := args;
    var i := 0;
    ghost var k := 0;
    while i < |rest|
      invariant 0 <= k <= |args| && 0 <= i <= |rest|
      invariant rest[..i] == Without(args[..k], a.sw) && rest[i..] == args[k..]
      invariant on == (a.on != (Occurrences(args[..k], a.sw) % 2 == 1))
      decreases |rest| - i
    {
      SwitchStep(args, rest, i, k, a.sw);
      if rest[i] == a.sw {
        on := !on;
        rest := rest[..i] + rest[i + 1..];
      } else {
        i := i + 1;
      }
      k := k + 1;
    }
    assert args[..k] == args;
    assert rest == rest[..i];
    r := SwitchArg(a.flags, a.sw, on);
  }

  /** Models ValueArg::Parse: the first token equal to the switch and the token after it
   *  are erased and the latter becomes the value; a trailing switch is erased and then
   *  reported; an absent switch is an error only for a required argument. */
  method ParseValue(a: Argument, args: seq<string>) returns (r: Argument, rest: seq<string>, outcome: Outcome)
    requires a.ValueArg?
    ensures Parsed(r, rest, outcome) == ParseSpec(a, args)
  {
    rest := args;
    var i := 0;
    while i < |rest|
      invariant 0 <= i <= |rest| && rest == args && a.sw !in args[..i]
    {
      if rest[i] == a.sw {
        rest := rest[..i] + rest[i + 1..];
        if i < |rest| {
          var v := rest[i];
          rest := rest[..i] + rest[i + 1..];
          assert FirstIndex(args, a.sw) == Some(i);
          assert rest == args[..i] + args[i + 2..];
          r := ValueArg(a.flags, a.sw, Some(v));
          outcome := Ok;
          return;
        } else {
          assert FirstIndex(args, a.sw) == Some(i);
          r := a;
          outcome := Error("Expected argument.");
          return;
        }
      } else {
        assert args[..i + 1] == args[..i] + [args[i]];
        i := i + 1;
      }
    }
    assert args[..i] == args;
    r := a;
    outcome := if IsRequired(a.flags) then Error("Missing required argument.") else Ok;
  }

  /** Models UnnamedArgs::Parse: every unnamed token moves, in order, into 'values'; too
   *  few of them is an error. */
  method ParseUnnamedArgs(a: Argument, args: seq<string>) returns (r: Argument, rest: seq<string>, outcome: Outcome)
    requires a.UnnamedArgs?
    ensures Parsed(r, rest, outcome) == ParseSpec(a, args)
  {
    var values: seq<string> := [];
    rest := args;
    var i := 0;
    ghost var k := 0;
    while i < |rest|
      invariant 0 <= k <= |args| && 0 <= i <= |rest|
      invariant rest[..i] == SwitchedTokens(args[..k]) && rest[i..] == args[k..]
      invariant values == UnswitchedTokens(args[..k])
      decreases |rest| - i
    {
      assert args[..k + 1][..k] == args[..k];
      assert rest[i] == args[k];
      if Unswitched(rest[i]) {
        values := values + [rest[i]];
        rest := rest[..i] + rest[i + 1..];
      } else {
        i := i + 1;
      }
      k := k + 1;
    }
    assert args[..k] == args;
    assert rest == rest[..i];
    r := UnnamedArgs(a.flags, a.min, values);
    outcome := if |values| < a.min then Error("Not enough arguments for command.") else Ok;
  }

  /** Models UnnamedArg::Parse: the first unnamed token is erased and becomes the value. */
  method ParseUnnamedArg(a: Argument, args: seq<string>) returns (r: Argument, rest: seq<string>, outcome: Outcome)
    requires a.UnnamedArg?
    ensures Parsed(r, rest, outcome) == ParseSpec(a, args)
  {
    rest := args;
    var i := 0;
    while i < |rest|
      invariant 0 <= i <= |rest| && rest == args
      invariant forall j :: 0 <= j < i ==> !Unswitched(args[j])
    {
      if Unswitched(rest[i]) {
        var v := rest[i];
        rest := rest[..i] + rest[i + 1..];
        r := UnnamedArg(a.flags, Some(v));
        outcome := Ok;
        return;
      } else {
        i := i + 1;
      }
    }
    r := a;
    outcome := if IsRequired(a.flags) then Error("Missing required unnamed argument.") else Ok;
  }

  /** The virtual call Parse on an argument of any kind. */
  method ParseArgument(a: Argument, args: seq<string>) returns (r: Argument, rest: seq<string>, outcome: Outcome)
    ensures Parsed(r, rest, outcome) == ParseSpec(a, args)
  {
    match a
    case SwitchArg(_, _, _) =>
      r, rest := ParseSwitch(a, args);
      outcome := Ok;
    case ValueArg(_, _, _) =>
      r, rest, outcome := ParseValue(a, args);
    case UnnamedArgs(_, _, _) =>
      r, rest, outcome := ParseUnnamedArgs(a, args);
    case UnnamedArg(_, _) =>
      r, rest, outcome := ParseUnnamedArg(a, args);
  }

  //---------------------------------------------------------------------------
  // The parser
  //---------------------------------------------------------------------------

  /** The registered arguments, the remaining tokens and how the pass has gone so far. */
  datatype PassState = PassState(args: seq<Argument>, rest: seq<string>, outcome: Outcome)

  /** One registration-order pass over the first n arguments, parsing those whose greedy
   *  flag is 'greedy' and stopping at the first exception. */
  function Pass(args: seq<Argument>, list: seq<string>, greedy: bool, n: nat): (s: PassState)
    requires n <= |args|
    ensures |s.args| == |args| && s.args[n..] == args[n..]
    decreases n
  {
    if n == 0 then PassState(args, list, Ok)
    else
      var s := Pass(args, list, greedy, n - 1);
      if s.outcome.Error? || IsGreedy(s.args[n - 1].flags) != greedy then s
      else
        var p := ParseSpec(s.args[n - 1], s.rest);
        PassState(s.args[n - 1 := p.arg], p.rest, p.outcome)
  }

  /** What CmdLine::Parse does with the argument list: the non-greedy pass, then, unless
   *  it threw, the greedy pass. */
  function ParseAll(args: seq<Argument>, list: seq<string>): (s: PassState)
    ensures |s.args| == |args|
  {
    var first := Pass(args, list, false, |args|);
    if first.outcome.Error? then first else Pass(first.args, first.rest, true, |args|)
  }

  /** A pass keeps every argument's shape and only ever erases tokens. */
  lemma {:induction false} PassShrinks(args: seq<Argument>, list: seq<string>, greedy: bool, n: nat)
    requires n <= |args|
    ensures var s := Pass(args, list, greedy, n);
            multiset(s.rest) <= multiset(list) && forall k :: 0 <= k < |args| ==> SameShape(args[k], s.args[k])
    decreases n
  {
    if n > 0 {
      PassShrinks(args, list, greedy, n - 1);
      var s := Pass(args, list, greedy, n - 1);
      ParseSpecShrinks(s.args[n - 1], s.rest);
    }
  }

  /** An argument of the other group is left as it was by a pass. */
  lemma {:induction false} PassSkipsOtherGroup(args: seq<Argument>, list: seq<string>, greedy: bool, n: nat, k: nat)
    requires n <= |args| && k < |args| && IsGreedy(args[k].flags) != greedy
    ensures Pass(args, list, greedy, n).args[k] == args[k]
    decreases n
  {
    if n > 0 {
      PassSkipsOtherGroup(args, list, greedy, n - 1, k);
    }
  }

  /** Both passes over the registered arguments keep every argument's shape and only
   *  ever erase tokens. */
  lemma ParseAllShrinks(args: seq<Argument>, list: seq<string>)
    ensures var s := ParseAll(args, list);
            multiset(s.rest) <= multiset(list) && forall k :: 0 <= k < |args| ==> SameShape(args[k], s.args[k])
  {
    PassShrinks(args, list, false, |args|);
    var first := Pass(args, list, false, |args|);
    if first.outcome.Ok? {
      PassShrinks(first.args, first.rest, true, |args|);
      forall k | 0 <= k < |args|
        ensures SameShape(args[k], ParseAll(args, list).args[k])
      {
        SameShapeTransitive(args[k], first.args[k], ParseAll(args, list).args[k]);
      }
    }
  }

  lemma SameShapeTransitive(a: Argument, b: Argument, c: Argument)
    requires SameShape(a, b) && SameShape(b, c)
    ensures SameShape(a, c)
  {
  }

  /** One pass of CmdLine::Parse: a loop over the registered arguments in order. */
  method RunPass(args: seq<Argument>, list: seq<string>, greedy: bool) returns (s: PassState)
    ensures s == Pass(args, list, greedy, |args|)
  {
    var arguments := args;
    var rest := list;
    var outcome := Ok;
    for k := 0 to |args|
      invariant PassState(arguments, rest, outcome) == Pass(args, list, greedy, k)
    {
      if outcome.Ok? && IsGreedy(arguments[k].flags) == greedy {
        var a;
        a, rest, outcome := ParseArgument(arguments[k], rest);
        arguments := arguments[k := a];
      }
    }
    s := PassState(arguments, rest, outcome);
  }

  /** The option '-?' that the parser registers itself, first. */
  function HelpSwitch(): (a: Argument)
    ensures a.SwitchArg? && a.sw == "-?" && !a.on && !IsGreedy(a.flags)
  {
    NewSwitchArg("?", false)
  }

  /** How CmdLine::Parse ends: normally (with the tokens nobody consumed, which it warns
   *  about), by printing the usage and exiting because '-?' was given, or by printing the
   *  usage and rethrowing an argument's exception. */
  datatype Result = Done(unparsed: seq<string>) | ShowHelp | Failed(message: string)

  class CmdLine {
    const desc: string
    const version: string
    var path: Option<string>
    /** The registered arguments, '-?' first. */
    var arguments: seq<Argument>

    ghost predicate Valid()
      reads this
    {
      |arguments| >= 1 && SameShape(HelpSwitch(), arguments[0])
    }

    /** Models the constructor: the help switch registers itself. */
    constructor (desc: string, version: string)
      ensures Valid() && arguments == [HelpSwitch()] && path == None
      ensures this.desc == desc && this.version == version
    {
      this.desc := desc;
      this.version := version;
      path := None;
      arguments := [HelpSwitch()];
    }

    /** Models AddArgument, which each argument's constructor calls. */
    method AddArgument(a: Argument)
      requires Valid()
      modifies this
      ensures Valid() && arguments == old(arguments) + [a] && path == old(path)
    {
      arguments := arguments + [a];
    }

    /** Models Parse: argv[0] is the program path, the rest are the tokens; OnParsed does
     *  nothing for any of the argument kinds. */
    method Parse(argv: seq<string>) returns (result: Result)
      requires Valid() && |argv| >= 1
      modifies this
      ensures Valid() && path == Some(argv[0])
      ensures var s := ParseAll(old(arguments), argv[1..]);
              arguments == s.args &&
              (s.outcome.Error? ==> result == Failed(s.outcome.message)) &&
              (s.outcome.Ok? && arguments[0].on ==> result == ShowHelp) &&
              (s.outcome.Ok? && !arguments[0].on ==> result == Done(s.rest))
      ensures result.Done? ==> multiset(result.unparsed) <= multiset(argv[1..])
    {
      path := Some(argv[0]);
      ghost var initial := arguments;
      var s := RunPass(arguments, argv[1..], false);
      if s.outcome.Ok? {
        s := RunPass(s.args, s.rest, true);
      }
      ParseAllShrinks(initial, argv[1..]);
      arguments := s.args;
      if s.outcome.Error? {
        result := Failed(s.outcome.message);
      } else if arguments[0].on {
        result := ShowHelp;
      } else {
        result := Done(s.rest);
      }
    }
  }
}
