/**
 * The command-line scanner of src/arguments.cpp: registered options with a long
 * name, a one-letter short name and a flag saying whether they take a value; a scan
 * of `argv` that marks options as set, records their values, collects positional
 * arguments and overwrites the '=' of a `--name=value` argument with a NUL.
 * `Logger::warn` becomes an appended warning and `Logger::fatal` an abort outcome.
 */
module Arguments {
  import opened Base

  /** `Argument`: `longName` None is the C null pointer, `value` None an unset value. */
  datatype Argument = Argument(longName: Option<seq<char>>, shortName: char, value: Option<seq<char>>,
                               isSet: bool, hasValue: bool)

  /** The entry `find` and `find_short` return when nothing matches. */
  const DEFAULT: Argument := Argument(None, '\0', None, false, false)

  const UNKNOWN: string := "Unknown argument"
  const NO_VALUE: string := "Argument does not accept a value"
  const MISSING: string := "Missing value for argument"

  /** The state `parse` works on: the options, the positionals, the warnings and `argv`. */
  datatype Scan = Scan(args: seq<Argument>, positional: seq<seq<char>>, warnings: seq<string>, argv: seq<seq<char>>)

  /** One turn of the scanning loop: go on at argument `i`, or abort with a message. */
  datatype StepResult = Next(s: Scan, i: nat) | Abort(msg: string, s: Scan)

  /** How `parse` ends: past the last argument, or at `Logger::fatal`. */
  datatype Outcome = Finished(s: Scan) | Fatal(msg: string, s: Scan)

  /** Every argument is a C string. */
  predicate CStrings(argv: seq<seq<char>>)
  {
    forall j :: 0 <= j < |argv| ==> NoNul(argv[j])
  }

  // ---------------------------------------------------------------- lookup

  /** The first option whose long name is `name`; None for the default entry. */
  function FirstLong(args: seq<Argument>, name: seq<char>): (k: Option<nat>)
    ensures k.Some? ==> k.value < |args| && args[k.value].longName == Some(name)
    ensures k.Some? ==> forall j :: 0 <= j < k.value ==> args[j].longName != Some(name)
    ensures k.None? ==> forall j :: 0 <= j < |args| ==> args[j].longName != Some(name)
  {
    if args == [] then None
    else if args[0].longName == Some(name) then Some(0)
    else match FirstLong(args[1..], name)
      case None => None
      case Some(k) => Some(k + 1)
  }

  /** The first option whose short name is `c`; None for the default entry. */
  function FirstShort(args: seq<Argument>, c: char): (k: Option<nat>)
    ensures k.Some? ==> k.value < |args| && args[k.value].shortName == c
    ensures k.Some? ==> forall j :: 0 <= j < k.value ==> args[j].shortName != c
    ensures k.None? ==> forall j :: 0 <= j < |args| ==> args[j].shortName != c
  {
    if args == [] then None
    else if args[0].shortName == c then Some(0)
    else match FirstShort(args[1..], c)
      case None => None
      case Some(k) => Some(k + 1)
  }

  /** The entry a lookup result designates. */
  function Entry(args: seq<Argument>, k: Option<nat>): Argument
  {
    if k.Some? && k.value < |args| then args[k.value] else DEFAULT
  }

  /** The first '=' at or after index 2, as `strchr(argv[i] + 2, '=')` finds it. */
  function EqualsAt(a: seq<char>): (e: Option<nat>)
    ensures e.Some? ==> 2 <= e.value < |a| && a[e.value] == '='
    ensures e.Some? ==> forall j :: 2 <= j < e.value ==> a[j] != '='
    ensures e.None? ==> forall j :: 2 <= j < |a| ==> a[j] != '='
  {
    EqualsFrom(a, 2)
  }

  function EqualsFrom(a: seq<char>, j: nat): (e: Option<nat>)
    ensures e.Some? ==> j <= e.value < |a| && a[e.value] == '='
    ensures e.Some? ==> forall m :: j <= m < e.value ==> a[m] != '='
    ensures e.None? ==> forall m :: j <= m < |a| ==> a[m] != '='
    decreases |a| - j
  {
    if j >= |a| then None
    else if a[j] == '=' then Some(j)
    else EqualsFrom(a, j + 1)
  }

  // ---------------------------------------------------------------- one argument

  /** The option at `k` marked as set and, when `v` is given, holding value `v`. */
  function Mark(args: seq<Argument>, k: nat, v: Option<seq<char>>): (r: seq<Argument>)
    requires k < |args|
    ensures |r| == |args| && r[k].isSet
    ensures forall j :: 0 <= j < |r| && j != k ==> r[j] == args[j]
  {
    var marked := args[k := args[k].(isSet := true)];
    if v.Some? then marked[k := marked[k].(value := v)] else marked
  }

  /**
   * One turn of the loop of `parse` at argument `i`. A positional is appended; a
   * short (`-c...`) or long (`--name...`) option is looked up and, when known, set,
   * given its value, or aborts for a missing value; unknown options and values given
   * to flags only warn.
   */
  function Step(s: Scan, i: nat): (r: StepResult)
    requires 1 <= i < |s.argv| && CStrings(s.argv)
    ensures r.Next? ==> i < r.i <= i + 2 && r.i <= |s.argv|
    ensures CStrings(r.s.argv) && |r.s.argv| == |s.argv|
    ensures Kept(s.args, r.s.args)
  {
    var a := s.argv[i];
    if At(a, 0) != '-' then
      Next(s.(positional := s.positional + [a]), i + 1)
    else if At(a, 1) != '-' then
      var k := FirstShort(s.args, At(a, 1));
      if k.None? || At(a, 1) == '\0' then
        Next(s.(warnings := s.warnings + [UNKNOWN]), i + 1)
      else if s.args[k.value].hasValue then
        if At(a, 2) == '=' then
          Next(s.(args := Mark(s.args, k.value, Some(a[3..]))), i + 1)
        else if At(a, 2) == '\0' then
          if i + 1 >= |s.argv| then Abort(MISSING, s.(args := Mark(s.args, k.value, None)))
          else Next(s.(args := Mark(s.args, k.value, Some(s.argv[i + 1]))), i + 2)
        else
          Next(s.(args := Mark(s.args, k.value, Some(a[2..]))), i + 1)
      else if At(a, 2) != '\0' then
        Next(s.(args := Mark(s.args, k.value, None), warnings := s.warnings + [NO_VALUE]), i + 1)
      else
        Next(s.(args := Mark(s.args, k.value, None)), i + 1)
    else
      var e := EqualsAt(a);
      var name := if e.Some? then a[2..e.value] else a[2..];
      var argv := if e.Some? then s.argv[i := a[..e.value]] else s.argv;
      var k := FirstLong(s.args, name);
      if k.None? then
        Next(s.(argv := argv, warnings := s.warnings + [UNKNOWN]), i + 1)
      else if s.args[k.value].hasValue then
        if e.Some? then
          Next(s.(args := Mark(s.args, k.value, Some(a[e.value + 1..])), argv := argv), i + 1)
        else if i + 1 >= |s.argv| then
          Abort(MISSING, s.(args := Mark(s.args, k.value, None)))
        else
          Next(s.(args := Mark(s.args, k.value, Some(s.argv[i + 1]))), i + 2)
      else if e.Some? then
        Next(s.(args := Mark(s.args, k.value, None), argv := argv, warnings := s.warnings + [NO_VALUE]), i + 1)
      else
        Next(s.(args := Mark(s.args, k.value, None)), i + 1)
  }

  /**
   * The scan changes options only by setting them and giving them values: names,
   * short names and `has_value` stay, and a set option stays set.
   */
  predicate Kept(before: seq<Argument>, after: seq<Argument>)
  {
    |after| == |before| &&
    forall j :: 0 <= j < |before| ==>
      after[j].longName == before[j].longName && after[j].shortName == before[j].shortName &&
      after[j].hasValue == before[j].hasValue && (before[j].isSet ==> after[j].isSet)
  }

  /** The loop of `parse` from argument `i` to the end or to the first abort. */
  function Run(s: Scan, i: nat): (r: Outcome)
    requires 1 <= i && CStrings(s.argv)
    ensures Kept(s.args, r.s.args)
    decreases |s.argv| - i
  {
    if i >= |s.argv| then Finished(s)
    else match Step(s, i)
      case Next(t, j) => Run(t, j)
      case Abort(m, t) => Fatal(m, t)
  }

  // ---------------------------------------------------------------- properties of the scan

  /** Arguments not starting with '-' are appended to the positionals, in order. */
  lemma {:induction false} OnlyPositionals(s: Scan, i: nat)
    requires 1 <= i <= |s.argv| && CStrings(s.argv)
    requires forall j :: i <= j < |s.argv| ==> At(s.argv[j], 0) != '-'
    ensures Run(s, i) == Finished(s.(positional := s.positional + s.argv[i..]))
    decreases |s.argv| - i
  {
    if i < |s.argv| {
      var t := s.(positional := s.positional + [s.argv[i]]);
      assert Step(s, i) == Next(t, i + 1);
      OnlyPositionals(t, i + 1);
      assert s.argv[i..] == [s.argv[i]] + s.argv[i + 1..];
    }
  }

  /** An unknown short option only warns: nothing else changes and the scan goes on. */
  lemma UnknownShortSkipped(s: Scan, i: nat)
    requires 1 <= i < |s.argv| && CStrings(s.argv)
    requires At(s.argv[i], 0) == '-' && At(s.argv[i], 1) != '-'
    requires FirstShort(s.args, At(s.argv[i], 1)).None?
    ensures Step(s, i) == Next(s.(warnings := s.warnings + [UNKNOWN]), i + 1)
  {
  }

  /**
   * A known short option taking a value takes it from the text after `-c=`, else
   * from the next argument when the token is exactly `-c`, else from the text after
   * `-c`; a missing next argument aborts.
   */
  lemma ShortValue(s: Scan, i: nat)
    requires 1 <= i < |s.argv| && CStrings(s.argv)
    requires At(s.argv[i], 0) == '-' && At(s.argv[i], 1) != '-' && At(s.argv[i], 1) != '\0'
    requires FirstShort(s.args, At(s.argv[i], 1)).Some?
    requires s.args[FirstShort(s.args, At(s.argv[i], 1)).value].hasValue
    ensures var a, k := s.argv[i], FirstShort(s.args, At(s.argv[i], 1)).value;
      Step(s, i) ==
        if At(a, 2) == '=' then Next(s.(args := Mark(s.args, k, Some(a[3..]))), i + 1)
        else if |a| == 2 && i + 1 < |s.argv| then Next(s.(args := Mark(s.args, k, Some(s.argv[i + 1]))), i + 2)
        else if |a| == 2 then Abort(MISSING, s.(args := Mark(s.args, k, None)))
        else Next(s.(args := Mark(s.args, k, Some(s.argv[i][2..]))), i + 1)
  {
    assert At(s.argv[i], 2) == '\0' <==> |s.argv[i]| == 2;
  }

  /**
   * A known short option that takes no value is set; any text after `-c`, such as
   * `-c=value`, is dropped with a warning.
   */
  lemma ShortFlag(s: Scan, i: nat)
    requires 1 <= i < |s.argv| && CStrings(s.argv)
    requires At(s.argv[i], 0) == '-' && At(s.argv[i], 1) != '-' && At(s.argv[i], 1) != '\0'
    requires FirstShort(s.args, At(s.argv[i], 1)).Some?
    requires !s.args[FirstShort(s.args, At(s.argv[i], 1)).value].hasValue
    ensures var k := FirstShort(s.args, At(s.argv[i], 1)).value;
      Step(s, i) ==
        if |s.argv[i]| > 2 then Next(s.(args := Mark(s.args, k, None), warnings := s.warnings + [NO_VALUE]), i + 1)
        else Next(s.(args := Mark(s.args, k, None)), i + 1)
  {
    assert At(s.argv[i], 2) == '\0' <==> |s.argv[i]| == 2;
  }

  /**
   * A known long option given as `--name=value` is looked up by the text before the
   * first '=', takes the text after it as its value when it takes one, and leaves
   * `argv[i]` cut at the '='.
   */
  lemma LongWithEquals(s: Scan, i: nat, e: nat)
    requires 1 <= i < |s.argv| && CStrings(s.argv)
    requires At(s.argv[i], 0) == '-' && At(s.argv[i], 1) == '-'
    requires EqualsAt(s.argv[i]) == Some(e)
    requires FirstLong(s.args, s.argv[i][2..e]).Some?
    ensures var k := FirstLong(s.args, s.argv[i][2..e]).value;
      Step(s, i) == Next(s.(argv := s.argv[i := s.argv[i][..e]],
                            args := Mark(s.args, k, if s.args[k].hasValue then Some(s.argv[i][e + 1..]) else None),
                            warnings := if s.args[k].hasValue then s.warnings else s.warnings + [NO_VALUE]), i + 1)
  {
  }

  /** A value-taking long option without '=' takes the next argument as its value and skips it. */
  lemma LongNextValue(s: Scan, i: nat)
    requires 1 <= i && i + 1 < |s.argv| && CStrings(s.argv)
    requires At(s.argv[i], 0) == '-' && At(s.argv[i], 1) == '-'
    requires EqualsAt(s.argv[i]).None?
    requires FirstLong(s.args, s.argv[i][2..]).Some?
    requires s.args[FirstLong(s.args, s.argv[i][2..]).value].hasValue
    ensures var k := FirstLong(s.args, s.argv[i][2..]).value;
      Step(s, i) == Next(s.(args := Mark(s.args, k, Some(s.argv[i + 1]))), i + 2)
  {
  }

  /** A value-taking long option without '=' as the last argument aborts. */
  lemma LongMissingValue(s: Scan)
    requires |s.argv| >= 2 && CStrings(s.argv)
    requires At(s.argv[|s.argv| - 1], 0) == '-' && At(s.argv[|s.argv| - 1], 1) == '-'
    requires EqualsAt(s.argv[|s.argv| - 1]).None?
    requires FirstLong(s.args, s.argv[|s.argv| - 1][2..]).Some?
    requires s.args[FirstLong(s.args, s.argv[|s.argv| - 1][2..]).value].hasValue
    ensures Run(s, |s.argv| - 1).Fatal? && Run(s, |s.argv| - 1).msg == MISSING
  {
  }

  // ---------------------------------------------------------------- the parser object

  class ArgumentParser {
    var args: seq<Argument>
    var positional: seq<seq<char>>
    /** What the scan passed to `Logger::warn`, in order. */
    var warnings: seq<string>

    constructor ()
      ensures args == [] && positional == [] && warnings == []
    {
      args := [];
      positional := [];
      warnings := [];
    }

    /** The parser's state together with `argv`, as the scan sees it. */
    function ScanOf(argv: array<seq<char>>): Scan
      reads this, argv
    {
      Scan(args, positional, warnings, argv[..])
    }

    /** `add`: registers an option, unset and without a value, after the others. */
    method Add(longName: Option<seq<char>>, shortName: char, hasValue: bool)
      modifies this
      ensures args == old(args) + [Argument(longName, shortName, None, false, hasValue)]
      ensures positional == old(positional) && warnings == old(warnings)
    {
      args := args + [Argument(longName, shortName, None, false, hasValue)];
    }

    /** `find`: the first option with long name `name`, None standing for the default entry. */
    method Find(name: seq<char>) returns (k: Option<nat>)
      ensures k == FirstLong(args, name)
    {
      var j := 0;
      while j < |args|
        invariant 0 <= j <= |args|
        invariant FirstLong(args, name) == (match FirstLong(args[j..], name)
                                              case None => None
                                              case Some(m) => Some(m + j))
      {
        if args[j].longName == Some(name) {
          return Some(j);
        }
        assert args[j..][1..] == args[j + 1..];
        j := j + 1;
      }
      return None;
    }

    /** `find_short`: the first option with short name `c`, None standing for the default entry. */
    method FindShort(c: char) returns (k: Option<nat>)
      ensures k == FirstShort(args, c)
    {
      var j := 0;
      while j < |args|
        invariant 0 <= j <= |args|
        invariant FirstShort(args, c) == (match FirstShort(args[j..], c)
                                            case None => None
                                            case Some(m) => Some(m + j))
      {
        if args[j].shortName == c {
          return Some(j);
        }
        assert args[j..][1..] == args[j + 1..];
        j := j + 1;
      }
      return None;
    }

    /** `get`: the value of the option named `name`, or the default entry's (none). */
    method Get(name: seq<char>) returns (v: Option<seq<char>>)
      ensures v == Entry(args, FirstLong(args, name)).value
      ensures FirstLong(args, name).None? ==> v.None?
    {
      var k := Find(name);
      return Entry(args, k).value;
    }

    /** `is_set`: whether the option named `name` was seen; false for unknown names. */
    method IsSet(name: seq<char>) returns (b: bool)
      ensures b == Entry(args, FirstLong(args, name)).isSet
      ensures FirstLong(args, name).None? ==> !b
    {
      var k := Find(name);
      return Entry(args, k).isSet;
    }

    /** The loop body of `parse` for a short option `-c...` at `argv[i]`. */
    method ShortOption(argv: array<seq<char>>, i: nat) returns (next: nat, fatal: Option<string>)
      requires 1 <= i < argv.Length && CStrings(argv[..])
      requires At(argv[i], 0) == '-' && At(argv[i], 1) != '-'
      modifies this
      ensures var r := Step(old(ScanOf(argv)), i);
        ScanOf(argv) == r.s && (fatal.Some? <==> r.Abort?) && (r.Abort? ==> fatal == Some(r.msg)) &&
        (r.Next? ==> next == r.i)
    {
      var a := argv[i];
      var k := FindShort(At(a, 1));
      if k.None? || At(a, 1) == '\0' {
        warnings := warnings + [UNKNOWN];
        return i + 1, None;
      }
      next := i + 1;
      if args[k.value].hasValue {
        if At(a, 2) == '=' {
          args := Mark(args, k.value, Some(a[3..]));
        } else if At(a, 2) == '\0' {
          if i + 1 >= argv.Length {
            args := Mark(args, k.value, None);
            return i, Some(MISSING);
          }
          args := Mark(args, k.value, Some(argv[i + 1]));
          next := i + 2;
        } else {
          args := Mark(args, k.value, Some(a[2..]));
        }
      } else {
        args := Mark(args, k.value, None);
        if At(a, 2) != '\0' {
          warnings := warnings + [NO_VALUE];
        }
      }
      fatal := None;
    }

    /** The loop body of `parse` for a long option `--name...` at `argv[i]`. */
    method LongOption(argv: array<seq<char>>, i: nat) returns (next: nat, fatal: Option<string>)
      requires 1 <= i < argv.Length && CStrings(argv[..])
      requires At(argv[i], 0) == '-' && At(argv[i], 1) == '-'
      modifies this, argv
      ensures var r := Step(old(ScanOf(argv)), i);
        ScanOf(argv) == r.s && (fatal.Some? <==> r.Abort?) && (r.Abort? ==> fatal == Some(r.msg)) &&
        (r.Next? ==> next == r.i)
    {
      var a := argv[i];
      var e := EqualsAt(a);
      var name := a[2..];
      if e.Some? {
        name := a[2..e.value];
        argv[i] := a[..e.value];
      }
      var k := Find(name);
      if k.None? {
        warnings := warnings + [UNKNOWN];
        return i + 1, None;
      }
      next := i + 1;
      if args[k.value].hasValue {
        if e.Some? {
          args := Mark(args, k.value, Some(a[e.value + 1..]));
        } else {
          if i + 1 >= argv.Length {
            args := Mark(args, k.value, None);
            return i, Some(MISSING);
          }
          args := Mark(args, k.value, Some(argv[i + 1]));
          next := i + 2;
        }
      } else {
        args := Mark(args, k.value, None);
        if e.Some? {
          warnings := warnings + [NO_VALUE];
        }
      }
      fatal := None;
    }

    /**
     * `parse(argc, argv)`: scans `argv[1..]`, updating the options, positionals and
     * warnings and cutting `--name=value` arguments at their '=', exactly as `Run`
     * describes; returns the abort message when `Logger::fatal` ends the scan.
     */
    method Parse(argv: array<seq<char>>) returns (fatal: Option<string>)
      requires CStrings(argv[..])
      modifies this, argv
      ensures var r := Run(old(ScanOf(argv)), 1);
        ScanOf(argv) == r.s && (fatal.Some? <==> r.Fatal?) && (r.Fatal? ==> fatal == Some(r.msg))
    {
      var i := 1;
      while i < argv.Length
        invariant 1 <= i && CStrings(argv[..])
        invariant Run(ScanOf(argv), i) == Run(old(ScanOf(argv)), 1)
      {
        ghost var before := ScanOf(argv);
        var next: nat;
        if At(argv[i], 0) != '-' {
          positional := positional + [argv[i]];
          next := i + 1;
        } else if At(argv[i], 1) != '-' {
          next, fatal := ShortOption(argv, i);
          if fatal.Some? {
            return;
          }
        } else {
          next, fatal := LongOption(argv, i);
          if fatal.Some? {
            return;
          }
        }
        assert Step(before, i) == Next(ScanOf(argv), next);
        i := next;
      }
      return None;
    }
  }
}
