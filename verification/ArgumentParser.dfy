/**
 * The command-line parser of internal/cli/parser.go: `Parse` and `ExtractGethCompatibleArgs`, two
 * scanners written independently of each other, and `BuildNodeArgs`, which merges in defaults.
 */
module ArgumentParser {
  import opened Sequences

  const WEMIXVISOR_FLAGS: set<string> := {"--home", "--name", "--network", "--debug", "--json", "--quiet"}
  const COMMANDS: set<string> := {"start", "stop", "restart", "status", "logs", "version", "init", "run"}

  datatype ParsedArgs = ParsedArgs(command: string, wemixvisorOpts: map<string, string>, nodeArgs: seq<string>)

  datatype ParseResult =
    | Parsed(args: ParsedArgs)
    | NoCommand
    | UnknownCommand
    | NodeArgsNotAccepted

  // ------------------------------------------------------------------ tokens

  function BeforeEquals(arg: string): string {
    if arg == [] || arg[0] == '=' then [] else [arg[0]] + BeforeEquals(arg[1..])
  }

  function AfterEquals(arg: string): string {
    if arg == [] then [] else if arg[0] == '=' then arg[1..] else AfterEquals(arg[1..])
  }

  lemma {:induction false} SplitAtEquals(arg: string)
    ensures '=' !in BeforeEquals(arg)
    ensures '=' in arg ==> arg == BeforeEquals(arg) + "=" + AfterEquals(arg)
    ensures '=' !in arg ==> BeforeEquals(arg) == arg
  {
    if arg != [] {
      SplitAtEquals(arg[1..]);
      assert arg == [arg[0]] + arg[1..];
    }
  }

  predicate IsFlag(arg: string) {
    BeforeEquals(arg) in WEMIXVISOR_FLAGS
  }

  predicate IsCommand(arg: string) {
    arg in COMMANDS
  }

  predicate Dashed(arg: string) {
    "-" <= arg
  }

  /** The flag takes the token behind it as its value. */
  predicate TakesNext(rest: seq<string>)
    requires rest != []
  {
    '=' !in rest[0] && |rest| > 1 && !Dashed(rest[1])
  }

  /** The value of the flag at the head of `rest`. */
  function ValueOf(rest: seq<string>): string
    requires rest != []
  {
    if '=' in rest[0] then AfterEquals(rest[0]) else if TakesNext(rest) then rest[1] else "true"
  }

  lemma {:induction false} BeforeEqualsPrefix(arg: string)
    ensures BeforeEquals(arg) <= arg
  {
    if arg != [] && arg[0] != '=' {
      BeforeEqualsPrefix(arg[1..]);
    }
  }

  /** The two kinds of special tokens cannot be confused: flags are dashed, commands and flag values are not. */
  lemma {:induction false} FlagsAreDashed(arg: string)
    requires IsFlag(arg)
    ensures Dashed(arg) && !IsCommand(arg)
  {
    BeforeEqualsPrefix(arg);
    var flag := BeforeEquals(arg);
    assert forall f :: f in WEMIXVISOR_FLAGS ==> f[0] == '-';
    assert arg[0] == flag[0] == '-';
    assert forall c :: c in COMMANDS ==> c[0] != '-';
  }

  // ------------------------------------------------------------------ what the scanners compute

  /** The loop of Parse on the tokens behind the command. */
  function ScanOpts(rest: seq<string>): map<string, string> {
    if rest == [] then map[]
    else if IsFlag(rest[0]) then
      map[BeforeEquals(rest[0]) := ValueOf(rest)] + ScanOpts(if TakesNext(rest) then rest[2..] else rest[1..])
    else ScanOpts(rest[1..])
  }

  function ScanNodeArgs(rest: seq<string>): seq<string> {
    if rest == [] then []
    else if IsFlag(rest[0]) then ScanNodeArgs(if TakesNext(rest) then rest[2..] else rest[1..])
    else [rest[0]] + ScanNodeArgs(rest[1..])
  }

  predicate RejectsNodeArgs(command: string) {
    command == "stop" || command == "status"
  }

  function ParseResultOf(args: seq<string>): ParseResult {
    if args == [] then NoCommand
    else if !IsCommand(args[0]) then UnknownCommand
    else
      var nodeArgs := ScanNodeArgs(args[1..]);
      if RejectsNodeArgs(args[0]) && nodeArgs != [] then NodeArgsNotAccepted
      else Parsed(ParsedArgs(args[0], ScanOpts(args[1..]), nodeArgs))
  }

  /** The loop of ExtractGethCompatibleArgs. */
  function Extract(args: seq<string>): seq<string> {
    if args == [] then []
    else if IsCommand(args[0]) then Extract(args[1..])
    else if IsFlag(args[0]) then Extract(if TakesNext(args) then args[2..] else args[1..])
    else [args[0]] + Extract(args[1..])
  }

  // ------------------------------------------------------------------ the scanners agree

  function NotCommand(): string -> bool {
    (arg: string) => !IsCommand(arg)
  }

  lemma {:induction false} ScannersAgreeFrom(rest: seq<string>)
    ensures Extract(rest) == Filter(ScanNodeArgs(rest), NotCommand())
  {
    if rest != [] {
      if IsFlag(rest[0]) {
        FlagsAreDashed(rest[0]);
        ScannersAgreeFrom(if TakesNext(rest) then rest[2..] else rest[1..]);
      } else {
        ScannersAgreeFrom(rest[1..]);
      }
    }
  }

  /** Whenever Parse succeeds, Extract yields its node arguments without the command words. */
  lemma {:induction false} ScannersAgree(args: seq<string>)
    requires ParseResultOf(args).Parsed?
    ensures Extract(args) == Filter(ParseResultOf(args).args.nodeArgs, NotCommand())
  {
    ScannersAgreeFrom(args[1..]);
  }

  ghost predicate FlagFree(args: seq<string>) {
    forall i :: 0 <= i < |args| ==> !IsFlag(args[i])
  }

  lemma {:induction false} ScanFlagFree(rest: seq<string>)
    ensures FlagFree(ScanNodeArgs(rest)) && IsSubsequence(ScanNodeArgs(rest), rest)
  {
    if rest != [] {
      assert [rest[0]] + rest[1..] == rest;
      if IsFlag(rest[0]) && TakesNext(rest) {
        ScanFlagFree(rest[2..]);
        SubsequenceConsRight(ScanNodeArgs(rest[2..]), rest[2..], rest[1]);
        assert [rest[1]] + rest[2..] == rest[1..];
        SubsequenceConsRight(ScanNodeArgs(rest[2..]), rest[1..], rest[0]);
      } else {
        ScanFlagFree(rest[1..]);
        SubsequenceConsRight(ScanNodeArgs(rest[1..]), rest[1..], rest[0]);
        SubsequenceConsBoth(ScanNodeArgs(rest[1..]), rest[1..], rest[0]);
      }
    }
  }

  /** Node arguments are passed through in order, and none of them is a wemixvisor flag. */
  lemma {:induction false} NodeArgsPassThrough(args: seq<string>)
    requires ParseResultOf(args).Parsed?
    ensures var nodeArgs := ParseResultOf(args).args.nodeArgs;
            FlagFree(nodeArgs) && IsSubsequence(nodeArgs, args)
  {
    ScanFlagFree(args[1..]);
    SubsequenceConsRight(ScanNodeArgs(args[1..]), args[1..], args[0]);
    assert [args[0]] + args[1..] == args;
  }

  /** The two spellings of a flag: alone, and with a value behind an equals sign. */
  predicate HoldsFlag(arg: string, flag: string) {
    arg == flag || flag + "=" <= arg
  }

  lemma {:induction false} BeforeEqualsIff(arg: string, flag: string)
    requires '=' !in flag
    ensures BeforeEquals(arg) == flag <==> HoldsFlag(arg, flag)
  {
    SplitAtEquals(arg);
    BeforeEqualsPrefix(arg);
    if flag + "=" <= arg {
      BeforeOfPrefix(flag, arg[|flag| + 1..]);
      assert arg == flag + "=" + arg[|flag| + 1..];
    }
    if BeforeEquals(arg) == flag && '=' in arg {
      assert arg == flag + "=" + AfterEquals(arg);
    }
  }

  lemma {:induction false} BeforeOfPrefix(flag: string, value: string)
    requires '=' !in flag
    ensures BeforeEquals(flag + "=" + value) == flag && AfterEquals(flag + "=" + value) == value
  {
    var arg := flag + "=" + value;
    if flag == "" {
      assert arg[0] == '=' && arg[1..] == value;
    } else {
      assert arg[0] == flag[0] && arg[1..] == flag[1..] + "=" + value;
      BeforeOfPrefix(flag[1..], value);
    }
  }

  /** Exactly these six flags, in either spelling, are wemixvisor's own. */
  lemma {:induction false} FlagForms(arg: string)
    ensures IsFlag(arg) <==>
              || HoldsFlag(arg, "--home") || HoldsFlag(arg, "--name") || HoldsFlag(arg, "--network")
              || HoldsFlag(arg, "--debug") || HoldsFlag(arg, "--json") || HoldsFlag(arg, "--quiet")
  {
    BeforeEqualsIff(arg, "--home");
    BeforeEqualsIff(arg, "--name");
    BeforeEqualsIff(arg, "--network");
    BeforeEqualsIff(arg, "--debug");
    BeforeEqualsIff(arg, "--json");
    BeforeEqualsIff(arg, "--quiet");
  }

  /**
   * The outcomes of Parse, spelled out: the first token must be one of the eight commands, and only `stop` and
   * `status` refuse arguments that are left for the node.
   */
  lemma {:induction false} ParseOutcomes(args: seq<string>)
    ensures var known := args != []
                && (args[0] == "start" || args[0] == "stop" || args[0] == "restart" || args[0] == "status"
                    || args[0] == "logs" || args[0] == "version" || args[0] == "init" || args[0] == "run");
            var refused := known && (args[0] == "stop" || args[0] == "status") && PassedThrough(None, args[1..]) != [];
            var result := ParseResultOf(args);
            && (result == NoCommand <==> args == [])
            && (result == UnknownCommand <==> args != [] && !known)
            && (result == NodeArgsNotAccepted <==> refused)
            && (result.Parsed? <==> known && !refused)
            && (result.Parsed? ==>
                  result.args.command == args[0] && result.args.nodeArgs == PassedThrough(None, args[1..]))
  {
    if args != [] {
      NodeArgsAreLocal(None, args[1..]);
    }
  }

  /** `x` right behind `prev` is a flag's value. */
  predicate IsValue(prev: Option<string>, x: string) {
    prev.Some? && IsFlag(prev.value) && '=' !in prev.value && (x == "" || x[0] != '-')
  }

  /** Reference: a token is passed through or not depending on itself and the token before it only. */
  function PassedThrough(prev: Option<string>, rest: seq<string>): seq<string>
    decreases rest
  {
    if rest == [] then []
    else (if IsFlag(rest[0]) || IsValue(prev, rest[0]) then [] else [rest[0]]) + PassedThrough(Some(rest[0]), rest[1..])
  }

  /** No token is swallowed or kept by accident: the scan is the context-free reference. */
  lemma {:induction false} NodeArgsAreLocal(prev: Option<string>, rest: seq<string>)
    requires rest != [] ==> !IsValue(prev, rest[0])
    ensures ScanNodeArgs(rest) == PassedThrough(prev, rest)
    decreases rest
  {
    if rest != [] {
      if IsFlag(rest[0]) && TakesNext(rest) {
        if IsFlag(rest[1]) {
          FlagsAreDashed(rest[1]);
        }
        assert rest[1..][1..] == rest[2..];
        NodeArgsAreLocal(Some(rest[1]), rest[2..]);
        assert PassedThrough(Some(rest[0]), rest[1..]) == PassedThrough(Some(rest[1]), rest[2..]);
      } else {
        NodeArgsAreLocal(Some(rest[0]), rest[1..]);
      }
    }
  }

  lemma {:induction false} ScanOfFlagFree(rest: seq<string>)
    requires FlagFree(rest)
    ensures ScanNodeArgs(rest) == rest && ScanOpts(rest) == map[]
  {
    if rest != [] {
      ScanOfFlagFree(rest[1..]);
    }
  }

  /** Parsing the command and the node arguments again gives the same node arguments and no options. */
  lemma {:induction false} ReparseIsStable(args: seq<string>)
    requires ParseResultOf(args).Parsed?
    ensures var p := ParseResultOf(args).args;
            ParseResultOf([p.command] + p.nodeArgs) == Parsed(ParsedArgs(p.command, map[], p.nodeArgs))
  {
    var p := ParseResultOf(args).args;
    ScanFlagFree(args[1..]);
    assert ([p.command] + p.nodeArgs)[1..] == p.nodeArgs;
    ScanOfFlagFree(p.nodeArgs);
  }

  lemma {:induction false} ExtractOfClean(args: seq<string>)
    requires FlagFree(args) && forall i :: 0 <= i < |args| ==> !IsCommand(args[i])
    ensures Extract(args) == args
  {
    if args != [] {
      ExtractOfClean(args[1..]);
    }
  }

  lemma {:induction false} ExtractIdempotent(args: seq<string>)
    ensures Extract(Extract(args)) == Extract(args)
  {
    ScannersAgreeFrom(args);
    ScanFlagFree(args);
    var nodeArgs := ScanNodeArgs(args);
    FilterMembers(nodeArgs, NotCommand());
    forall i | 0 <= i < |Extract(args)|
      ensures !IsFlag(Extract(args)[i]) && !IsCommand(Extract(args)[i])
    {
      assert Extract(args)[i] in nodeArgs;
      var j :| 0 <= j < |nodeArgs| && nodeArgs[j] == Extract(args)[i];
    }
    ExtractOfClean(Extract(args));
  }

  // ------------------------------------------------------------------ options

  predicate Sets(arg: string, key: string) {
    IsFlag(arg) && BeforeEquals(arg) == key
  }

  /** What the scan continues with. */
  function Tail(rest: seq<string>): seq<string>
    requires rest != []
  {
    if IsFlag(rest[0]) && TakesNext(rest) then rest[2..] else rest[1..]
  }

  /** A skipped value is no flag, so skipping it loses no occurrence. */
  lemma {:induction false} TailKeepsFlags(rest: seq<string>, j: nat)
    requires 0 < j < |rest| && IsFlag(rest[j])
    ensures var skip := |rest| - |Tail(rest)|;
            skip <= j && Tail(rest)[j - skip] == rest[j] && Tail(rest)[j - skip..] == rest[j..]
  {
    FlagsAreDashed(rest[j]);
  }

  /** An option is set exactly if its flag occurs. */
  lemma {:induction false} OptionsOccur(rest: seq<string>, key: string)
    ensures key in ScanOpts(rest) <==> exists i :: 0 <= i < |rest| && Sets(rest[i], key)
  {
    if rest != [] {
      OptionsOccur(Tail(rest), key);
      var skip := |rest| - |Tail(rest)|;
      forall i | 0 < i < |rest| && Sets(rest[i], key)
        ensures skip <= i && Sets(Tail(rest)[i - skip], key)
      {
        TailKeepsFlags(rest, i);
      }
      forall i | 0 <= i < |Tail(rest)| && Sets(Tail(rest)[i], key)
        ensures Sets(rest[i + skip], key)
      {
      }
    }
  }

  /** An option holds the value of the last occurrence of its flag. */
  lemma {:induction false} OptionsHoldLast(rest: seq<string>, i: nat)
    requires i < |rest| && IsFlag(rest[i])
    requires forall j :: i < j < |rest| ==> !Sets(rest[j], BeforeEquals(rest[i]))
    ensures BeforeEquals(rest[i]) in ScanOpts(rest) && ScanOpts(rest)[BeforeEquals(rest[i])] == ValueOf(rest[i..])
  {
    var key, tail := BeforeEquals(rest[i]), Tail(rest);
    var skip := |rest| - |tail|;
    assert forall j :: 0 <= j < |tail| ==> tail[j] == rest[j + skip];
    if i == 0 {
      OptionsOccur(tail, key);
      assert rest[0..] == rest;
    } else {
      TailKeepsFlags(rest, i);
      OptionsHoldLast(tail, i - skip);
    }
  }

  /**
   * The value of an option, spelled out: what stands behind the equals sign of its last occurrence; otherwise the
   * next token, unless there is none or it starts with a dash; and then `true`.
   */
  lemma {:induction false} OptionMeans(rest: seq<string>, i: nat, flag: string)
    requires i < |rest| && IsFlag(flag) && '=' !in flag && HoldsFlag(rest[i], flag)
    requires forall j :: i < j < |rest| ==> !HoldsFlag(rest[j], flag)
    ensures flag in ScanOpts(rest)
    ensures ScanOpts(rest)[flag] ==
              if rest[i] != flag then rest[i][|flag| + 1..]
              else if i + 1 < |rest| && !("-" <= rest[i + 1]) then rest[i + 1]
              else "true"
  {
    BeforeEqualsIff(rest[i], flag);
    SplitAtEquals(flag);
    assert BeforeEquals(flag) == flag;
    forall j | i < j < |rest|
      ensures !Sets(rest[j], BeforeEquals(rest[i]))
    {
      BeforeEqualsIff(rest[j], flag);
    }
    OptionsHoldLast(rest, i);
    assert rest[i..][0] == rest[i] && (i + 1 < |rest| ==> rest[i..][1] == rest[i + 1]);
    if rest[i] != flag {
      assert rest[i] == flag + "=" + rest[i][|flag| + 1..];
      BeforeOfPrefix(flag, rest[i][|flag| + 1..]);
      assert rest[i][|flag|] == '=';
    }
  }

  // ------------------------------------------------------------------ the loops

  /** One turn of Parse's loop on a flag, and on anything else. */
  lemma {:induction false} ParseStep(rest: seq<string>, opts: map<string, string>, nodeArgs: seq<string>)
    requires rest != []
    ensures IsFlag(rest[0]) ==>
              && opts[BeforeEquals(rest[0]) := ValueOf(rest)] + ScanOpts(Tail(rest)) == opts + ScanOpts(rest)
              && ScanNodeArgs(Tail(rest)) == ScanNodeArgs(rest)
    ensures !IsFlag(rest[0]) ==>
              && ScanOpts(Tail(rest)) == ScanOpts(rest)
              && (nodeArgs + [rest[0]]) + ScanNodeArgs(Tail(rest)) == nodeArgs + ScanNodeArgs(rest)
  {
  }

  method Parse(args: seq<string>) returns (result: ParseResult)
    ensures result == ParseResultOf(args)
  {
    if |args| == 0 {
      return NoCommand;
    }
    var command := args[0];
    if command !in COMMANDS {
      return UnknownCommand;
    }
    var opts, nodeArgs := ScanLoop(args);
    if RejectsNodeArgs(command) && |nodeArgs| > 0 {
      return NodeArgsNotAccepted;
    }
    return Parsed(ParsedArgs(command, opts, nodeArgs));
  }

  /** The loop of Parse. */
  method ScanLoop(args: seq<string>) returns (opts: map<string, string>, nodeArgs: seq<string>)
    requires args != []
    ensures opts == ScanOpts(args[1..]) && nodeArgs == ScanNodeArgs(args[1..])
  {
    opts, nodeArgs := map[], [];
    var i := 1;
    while i < |args|
      invariant 1 <= i <= |args|
      invariant opts + ScanOpts(args[i..]) == ScanOpts(args[1..])
      invariant nodeArgs + ScanNodeArgs(args[i..]) == ScanNodeArgs(args[1..])
    {
      var arg := args[i];
      ghost var rest := args[i..];
      ParseStep(rest, opts, nodeArgs);
      SplitAtEquals(arg);
      assert rest[0] == arg && rest[1..] == args[i + 1..] && (|rest| > 1 ==> rest[2..] == args[i + 2..]);
      if IsFlag(arg) {
        if '=' in arg {
          opts := opts[BeforeEquals(arg) := AfterEquals(arg)];
        } else if i + 1 < |args| && !Dashed(args[i + 1]) {
          opts := opts[arg := args[i + 1]];
          i := i + 1;
        } else {
          opts := opts[arg := "true"];
        }
      } else {
        nodeArgs := nodeArgs + [arg];
      }
      i := i + 1;
    }
    assert args[i..] == [] && opts + map[] == opts;
  }

  method ExtractGethCompatibleArgs(args: seq<string>) returns (gethArgs: seq<string>)
    ensures gethArgs == Extract(args)
  {
    gethArgs := [];
    var i := 0;
    assert args[0..] == args;
    while i < |args|
      invariant 0 <= i <= |args|
      invariant gethArgs + Extract(args[i..]) == Extract(args)
    {
      var arg := args[i];
      assert args[i..][1..] == args[i + 1..];
      if IsCommand(arg) {
        i := i + 1;
      } else if IsFlag(arg) {
        i := i + 1;
        if '=' !in arg && i < |args| && !Dashed(args[i]) {
          assert args[i - 1..][2..] == args[i + 1..];
          i := i + 1;
        }
      } else {
        gethArgs := gethArgs + [arg];
        i := i + 1;
      }
    }
    assert args[i..] == [];
  }

  // ------------------------------------------------------------------ defaults

  predicate ContainsFlag(args: seq<string>, flag: string) {
    exists i :: 0 <= i < |args| && HoldsFlag(args[i], flag)
  }

  /** The bytewise order of sort.Strings. */
  predicate StringLeq(a: string, b: string) {
    a == [] || (b != [] && (a[0] < b[0] || (a[0] == b[0] && StringLeq(a[1..], b[1..]))))
  }

  lemma {:induction false} StringLeqTotal(a: string, b: string)
    ensures StringLeq(a, b) || StringLeq(b, a)
    ensures StringLeq(a, b) && StringLeq(b, a) ==> a == b
  {
    if a != [] && b != [] {
      StringLeqTotal(a[1..], b[1..]);
      assert a == [a[0]] + a[1..] && b == [b[0]] + b[1..];
    }
  }

  lemma SharedPrefix(a: string, b: string, i: nat)
    requires 0 < i <= |a| && i <= |b| && a[..i] == b[..i]
    ensures a[0] == b[0]
  {
    assert a[..i][0] == b[..i][0];
  }

  /** The order spelled out: a prefix comes first, and otherwise the first character that differs decides. */
  lemma {:induction false} StringLeqMeans(a: string, b: string)
    ensures StringLeq(a, b) <==>
              a <= b || exists i :: 0 <= i < |a| && i < |b| && a[..i] == b[..i] && a[i] < b[i]
  {
    if a != [] && b != [] {
      StringLeqMeans(a[1..], b[1..]);
      if a[0] == b[0] {
        assert a <= b <==> a[1..] <= b[1..] by {
          assert a == [a[0]] + a[1..] && b == [b[0]] + b[1..];
        }
        if i :| 0 <= i < |a[1..]| && i < |b[1..]| && a[1..][..i] == b[1..][..i] && a[1..][i] < b[1..][i] {
          assert a[..i + 1] == [a[0]] + a[1..][..i] && b[..i + 1] == [b[0]] + b[1..][..i];
          assert a[i + 1] < b[i + 1];
        }
        if i :| 0 <= i < |a| && i < |b| && a[..i] == b[..i] && a[i] < b[i] {
          assert a[1..][..i - 1] == a[..i][1..] && b[1..][..i - 1] == b[..i][1..];
          assert a[1..][i - 1] < b[1..][i - 1];
        }
      } else {
        if a[0] < b[0] {
          assert a[..0] == b[..0];
        }
        if i :| 0 <= i < |a| && i < |b| && a[..i] == b[..i] && a[i] < b[i] {
          if i > 0 {
            SharedPrefix(a, b, i);
          }
        }
      }
    }
  }

  lemma {:induction false} StringLeqTransitive(a: string, b: string, c: string)
    requires StringLeq(a, b) && StringLeq(b, c)
    ensures StringLeq(a, c)
  {
    if a != [] && a[0] == b[0] == c[0] {
      StringLeqTransitive(a[1..], b[1..], c[1..]);
    }
  }

  ghost predicate Ascending(keys: seq<string>) {
    Distinct(keys) && SortedBy(keys, StringLeq)
  }

  /** The defaults of these keys, as arguments; an empty value stands for a flag without one. */
  function Expand(keys: seq<string>, defaults: map<string, string>): seq<string>
    requires forall i :: 0 <= i < |keys| ==> keys[i] in defaults
  {
    if keys == [] then []
    else
      Expand(DropLast(keys), defaults)
        + if defaults[Last(keys)] != "" then [Last(keys), defaults[Last(keys)]] else [Last(keys)]
  }

  ghost function MissingKeys(nodeArgs: seq<string>, defaults: map<string, string>): set<string> {
    set key | key in defaults && !ContainsFlag(nodeArgs, key)
  }

  /** The user's arguments, then the defaults for the flags they do not contain, in ascending order. */
  ghost predicate IsMerge(nodeArgs: seq<string>, defaults: map<string, string>, args: seq<string>) {
    exists keys: seq<string> :: MergedWith(nodeArgs, defaults, keys, args)
  }

  ghost predicate MergedWith(
      nodeArgs: seq<string>, defaults: map<string, string>, keys: seq<string>, args: seq<string>) {
    && Ascending(keys) && (forall i :: 0 <= i < |keys| ==> keys[i] in defaults)
    && ToSet(keys) == MissingKeys(nodeArgs, defaults)
    && args == nodeArgs + Expand(keys, defaults)
  }

  lemma {:induction false} AscendingUnique(a: seq<string>, b: seq<string>)
    requires Ascending(a) && Ascending(b) && ToSet(a) == ToSet(b)
    ensures a == b
  {
    assert (a != [] ==> a[0] in ToSet(a)) && (b != [] ==> b[0] in ToSet(b));
    if a != [] {
      var i :| 0 <= i < |b| && b[i] == a[0];
      var j :| 0 <= j < |a| && a[j] == b[0];
      StringLeqTotal(a[0], b[0]);
      assert a[0] == b[0];
      forall x
        ensures x in ToSet(a[1..]) <==> x in ToSet(b[1..])
      {
        assert x in ToSet(a) <==> x in ToSet(b);
        assert a == [a[0]] + a[1..] && b == [b[0]] + b[1..];
        assert a[0] !in a[1..] && b[0] !in b[1..];
      }
      AscendingUnique(a[1..], b[1..]);
      assert a == [a[0]] + a[1..] && b == [b[0]] + b[1..];
    }
  }

  /** The order in which the map of defaults is visited does not matter. */
  lemma {:induction false} MergeUnique(
      nodeArgs: seq<string>, defaults: map<string, string>, a: seq<string>, b: seq<string>)
    requires IsMerge(nodeArgs, defaults, a) && IsMerge(nodeArgs, defaults, b)
    ensures a == b
  {
    var ka :| MergedWith(nodeArgs, defaults, ka, a);
    var kb :| MergedWith(nodeArgs, defaults, kb, b);
    AscendingUnique(ka, kb);
  }

  lemma {:induction false} ExpandContains(keys: seq<string>, defaults: map<string, string>, key: string)
    requires (forall i :: 0 <= i < |keys| ==> keys[i] in defaults) && key in keys
    ensures key in Expand(keys, defaults)
  {
    if Last(keys) != key {
      assert key in DropLast(keys) by {
        var i :| 0 <= i < |keys| && keys[i] == key;
        assert DropLast(keys)[i] == key;
      }
      ExpandContains(DropLast(keys), defaults, key);
    }
  }

  /** After merging every default's flag is present, so merging again adds nothing. */
  lemma {:induction false} MergeIdempotent(nodeArgs: seq<string>, defaults: map<string, string>, args: seq<string>)
    requires IsMerge(nodeArgs, defaults, args)
    ensures nodeArgs <= args
    ensures forall key :: key in defaults ==> ContainsFlag(args, key)
    ensures forall again :: IsMerge(args, defaults, again) <==> again == args
  {
    var keys :| MergedWith(nodeArgs, defaults, keys, args);
    forall key | key in defaults
      ensures ContainsFlag(args, key)
    {
      if ContainsFlag(nodeArgs, key) {
        var i :| 0 <= i < |nodeArgs| && HoldsFlag(nodeArgs[i], key);
        assert args[i] == nodeArgs[i];
      } else {
        assert key in ToSet(keys);
        ExpandContains(keys, defaults, key);
        assert key in args;
        var i :| 0 <= i < |args| && args[i] == key;
        assert HoldsFlag(args[i], key);
      }
    }
    assert MissingKeys(args, defaults) == {};
    assert MergedWith(args, defaults, [], args);
    forall again | IsMerge(args, defaults, again)
      ensures again == args
    {
      MergeUnique(args, defaults, again, args);
    }
  }

  lemma {:induction false} ExpandSame(keys: seq<string>, defaults: map<string, string>, fewer: map<string, string>)
    requires forall i :: 0 <= i < |keys| ==>
        keys[i] in defaults && keys[i] in fewer && fewer[keys[i]] == defaults[keys[i]]
    ensures Expand(keys, fewer) == Expand(keys, defaults)
  {
    if keys != [] {
      ExpandSame(DropLast(keys), defaults, fewer);
    }
  }

  lemma {:induction false} WithoutLast(keys: seq<string>, key: string)
    requires keys != []
    ensures Without(keys, key) == Without(DropLast(keys), key) + (if Last(keys) == key then [] else [Last(keys)])
  {
    if |keys| > 1 {
      WithoutLast(keys[1..], key);
      assert DropLast(keys[1..]) == DropLast(keys)[1..];
    } else {
      assert keys[1..] == [] && DropLast(keys) == [];
    }
  }

  lemma {:induction false} ExpandShorter(keys: seq<string>, defaults: map<string, string>, key: string)
    requires (forall i :: 0 <= i < |keys| ==> keys[i] in defaults) && Distinct(keys) && key in keys
    ensures forall i :: 0 <= i < |Without(keys, key)| ==> Without(keys, key)[i] in defaults - {key}
    ensures |Expand(Without(keys, key), defaults - {key})| < |Expand(keys, defaults)|
  {
    WithoutMembers(keys, key);
    WithoutLast(keys, key);
    var rest := DropLast(keys);
    if Last(keys) == key {
      assert key !in rest;
      WithoutMembers(rest, key);
      assert Without(keys, key) == rest;
      ExpandSame(rest, defaults, defaults - {key});
    } else {
      assert key in rest by {
        var i :| 0 <= i < |keys| && keys[i] == key;
        assert rest[i] == key;
      }
      ExpandShorter(rest, defaults, key);
      assert DropLast(Without(keys, key)) == Without(rest, key);
    }
  }

  lemma {:induction false} WithoutAscending(keys: seq<string>, key: string)
    requires Ascending(keys)
    ensures Ascending(Without(keys, key)) && ToSet(Without(keys, key)) == ToSet(keys) - {key}
  {
    WithoutMembers(keys, key);
    WithoutDistinct(keys, key);
    if keys != [] {
      WithoutAscending(keys[1..], key);
      var rest := Without(keys[1..], key);
      WithoutMembers(keys[1..], key);
      if keys[0] != key {
        forall j | 0 <= j < |rest|
          ensures StringLeq(keys[0], rest[j])
        {
          assert rest[j] in keys[1..];
        }
      }
    }
  }

  /** Without defaults nothing is added. */
  lemma {:induction false} MergeNone(nodeArgs: seq<string>, args: seq<string>)
    ensures IsMerge(nodeArgs, map[], args) <==> args == nodeArgs
  {
    assert MissingKeys(nodeArgs, map[]) == {};
    assert nodeArgs + [] == nodeArgs;
    if args == nodeArgs {
      assert MergedWith(nodeArgs, map[], [], args);
    }
    if IsMerge(nodeArgs, map[], args) {
      var keys :| MergedWith(nodeArgs, map[], keys, args);
      assert keys == [];
    }
  }

  /**
   * One more default, behind all the others in the order of keys: it adds its flag, and its value unless that is
   * empty, exactly if no user argument is the flag or starts with the flag and an equals sign.
   */
  lemma {:induction false} MergeOneMore(
      nodeArgs: seq<string>, defaults: map<string, string>, args: seq<string>, key: string, value: string)
    requires IsMerge(nodeArgs, defaults, args) && key !in defaults
    requires forall k :: k in defaults ==> StringLeq(k, key)
    ensures var given := exists i :: 0 <= i < |nodeArgs| && (nodeArgs[i] == key || key + "=" <= nodeArgs[i]);
            IsMerge(nodeArgs, defaults[key := value],
                    args + if given then [] else if value == "" then [key] else [key, value])
  {
    var keys :| MergedWith(nodeArgs, defaults, keys, args);
    var more := defaults[key := value];
    ContainsMeans(nodeArgs, key);
    if ContainsFlag(nodeArgs, key) {
      MergedGiven(nodeArgs, defaults, keys, args, key, value);
      assert args + [] == args;
    } else {
      MergedMissing(nodeArgs, defaults, keys, args, key, value);
    }
  }

  lemma ContainsMeans(args: seq<string>, flag: string)
    ensures ContainsFlag(args, flag)
       <==> exists i :: 0 <= i < |args| && (args[i] == flag || flag + "=" <= args[i])
  {
    assert forall i :: 0 <= i < |args| ==> (HoldsFlag(args[i], flag) <==> args[i] == flag || flag + "=" <= args[i]);
  }

  lemma {:induction false} MergedGiven(
      nodeArgs: seq<string>, defaults: map<string, string>, keys: seq<string>, args: seq<string>,
      key: string, value: string)
    requires MergedWith(nodeArgs, defaults, keys, args) && key !in defaults && ContainsFlag(nodeArgs, key)
    ensures MergedWith(nodeArgs, defaults[key := value], keys, args)
  {
    ExpandSame(keys, defaults, defaults[key := value]);
    assert MissingKeys(nodeArgs, defaults[key := value]) == MissingKeys(nodeArgs, defaults);
  }

  lemma {:induction false} MergedMissing(
      nodeArgs: seq<string>, defaults: map<string, string>, keys: seq<string>, args: seq<string>,
      key: string, value: string)
    requires MergedWith(nodeArgs, defaults, keys, args) && key !in defaults && !ContainsFlag(nodeArgs, key)
    requires forall k :: k in defaults ==> StringLeq(k, key)
    ensures MergedWith(nodeArgs, defaults[key := value], keys + [key],
                       args + if value == "" then [key] else [key, value])
  {
    var more, all := defaults[key := value], keys + [key];
    var added := if value == "" then [key] else [key, value];
    AscendingAppend(keys, key, defaults);
    MissingOneMore(nodeArgs, defaults, key, value);
    ExpandOneMore(keys, defaults, key, value);
    AppendLast(nodeArgs, Expand(keys, defaults), added);
    assert Expand(all, more) == Expand(keys, defaults) + added;
  }

  lemma AppendLast(a: seq<string>, b: seq<string>, c: seq<string>)
    ensures (a + b) + c == a + (b + c)
  {
  }

  lemma MissingOneMore(nodeArgs: seq<string>, defaults: map<string, string>, key: string, value: string)
    requires key !in defaults && !ContainsFlag(nodeArgs, key)
    ensures MissingKeys(nodeArgs, defaults[key := value]) == MissingKeys(nodeArgs, defaults) + {key}
  {
  }

  lemma {:induction false} ExpandOneMore(keys: seq<string>, defaults: map<string, string>, key: string, value: string)
    requires (forall i :: 0 <= i < |keys| ==> keys[i] in defaults) && key !in defaults
    ensures forall i :: 0 <= i < |keys + [key]| ==> (keys + [key])[i] in defaults[key := value]
    ensures Expand(keys + [key], defaults[key := value])
         == Expand(keys, defaults) + if value == "" then [key] else [key, value]
  {
    var all := keys + [key];
    ExpandSame(keys, defaults, defaults[key := value]);
    assert DropLast(all) == keys && Last(all) == key;
  }

  lemma {:induction false} AscendingAppend(keys: seq<string>, key: string, defaults: map<string, string>)
    requires Ascending(keys) && forall i :: 0 <= i < |keys| ==> keys[i] in defaults
    requires key !in defaults && forall k :: k in defaults ==> StringLeq(k, key)
    ensures Ascending(keys + [key]) && ToSet(keys + [key]) == ToSet(keys) + {key}
  {
  }

  /** Dropping a default leaves the result alone exactly if the user gave its flag, in either spelling. */
  lemma {:induction false} NoDefaultOverrides(
      nodeArgs: seq<string>, defaults: map<string, string>, args: seq<string>, key: string)
    requires IsMerge(nodeArgs, defaults, args) && key in defaults
    ensures IsMerge(nodeArgs, defaults - {key}, args) <==> ContainsFlag(nodeArgs, key)
  {
    var keys :| MergedWith(nodeArgs, defaults, keys, args);
    var fewer := defaults - {key};
    if ContainsFlag(nodeArgs, key) {
      assert MissingKeys(nodeArgs, fewer) == MissingKeys(nodeArgs, defaults);
      assert forall i :: 0 <= i < |keys| ==> keys[i] in ToSet(keys);
      ExpandSame(keys, defaults, fewer);
      assert MergedWith(nodeArgs, fewer, keys, args);
    } else if IsMerge(nodeArgs, fewer, args) {
      var less :| MergedWith(nodeArgs, fewer, less, args);
      assert key in ToSet(keys) && MissingKeys(nodeArgs, fewer) == MissingKeys(nodeArgs, defaults) - {key};
      WithoutAscending(keys, key);
      AscendingUnique(less, Without(keys, key));
      ExpandShorter(keys, defaults, key);
      assert false;
    }
  }

  method BuildNodeArgs(nodeArgs: seq<string>, defaults: map<string, string>) returns (args: seq<string>)
    ensures IsMerge(nodeArgs, defaults, args)
  {
    args := nodeArgs;
    var keys := CollectMissing(nodeArgs, defaults);
    ghost var collected := keys;
    assert TotalOrder(StringLeq) by {
      StringOrderTotal();
    }
    keys := SortBy(keys, StringLeq);
    Permutation(collected, keys);
    assert ToSet(keys) == ToSet(collected);
    assert forall i :: 0 <= i < |keys| ==> keys[i] in ToSet(keys);
    for i := 0 to |keys|
      invariant args == nodeArgs + Expand(keys[..i], defaults)
    {
      var value := defaults[keys[i]];
      assert DropLast(keys[..i + 1]) == keys[..i];
      if value != "" {
        args := args + [keys[i], value];
      } else {
        args := args + [keys[i]];
      }
    }
    assert keys[..|keys|] == keys;
    assert MergedWith(nodeArgs, defaults, keys, args);
  }

  lemma {:induction false} StringOrderTotal()
    ensures TotalOrder(StringLeq)
  {
    forall a, b
      ensures StringLeq(a, b) || StringLeq(b, a)
    {
      StringLeqTotal(a, b);
    }
    forall a, b, c | StringLeq(a, b) && StringLeq(b, c)
      ensures StringLeq(a, c)
    {
      StringLeqTransitive(a, b, c);
    }
  }

  /** The first loop of BuildNodeArgs; the map is visited in any order. */
  method CollectMissing(nodeArgs: seq<string>, defaults: map<string, string>) returns (keys: seq<string>)
    ensures Distinct(keys) && ToSet(keys) == MissingKeys(nodeArgs, defaults)
  {
    keys := [];
    var rest := defaults.Keys;
    while rest != {}
      invariant rest <= defaults.Keys
      invariant Distinct(keys)
      invariant forall key :: key in keys <==> key in defaults && key !in rest && !ContainsFlag(nodeArgs, key)
      decreases rest
    {
      var key :| key in rest;
      var present := HasFlag(nodeArgs, key);
      if !present {
        keys := keys + [key];
      }
      rest := rest - {key};
    }
  }

  /** containsFlag. */
  method HasFlag(args: seq<string>, flag: string) returns (found: bool)
    ensures found <==> ContainsFlag(args, flag)
  {
    for i := 0 to |args|
      invariant forall j :: 0 <= j < i ==> !HoldsFlag(args[j], flag)
    {
      if args[i] == flag || flag + "=" <= args[i] {
        assert HoldsFlag(args[i], flag);
        return true;
      }
    }
    return false;
  }
}
