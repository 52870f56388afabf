/** The command-line scanner of src/cli.ts (`parseArgs`), with the argument
    list (`process.argv.slice(2)`) passed in. */
module Cli {
  import opened Wrappers
  import opened Text

  datatype CliArgs = CliArgs(help: bool, version: bool, configPath: Option<string>)

  const Defaults := CliArgs(false, false, None)

  predicate IsHelpFlag(a: string) { a == "--help" || a == "-h" }
  predicate IsVersionFlag(a: string) { a == "--version" || a == "-v" }
  /** `--config`/`-c`, whose value is the next argument. */
  predicate IsConfigFlag(a: string) { a == "--config" || a == "-c" }
  /** `--config=X`. */
  predicate IsConfigAssign(a: string) { |a| >= 9 && a[..9] == "--config=" }

  /** The position the scan reads after a flag at `i`: a `--config` or `-c`
      consumes the argument after it as well. */
  function Next(args: seq<string>, i: nat): (n: nat)
    requires i < |args|
    ensures n > i
  {
    if IsConfigFlag(args[i]) then i + 2 else i + 1
  }

  /** The config path an option at `i` gives: the next argument (`undefined`
      past the end), or the text between the first and second `=`. */
  function ConfigValue(args: seq<string>, i: nat): (r: Option<string>)
    requires i < |args| && (IsConfigFlag(args[i]) || IsConfigAssign(args[i]))
  {
    if IsConfigFlag(args[i]) then (if i + 1 < |args| then Some(args[i + 1]) else None)
    else
      var parts := Split(args[i], '=');
      assert args[i][8] == '=';
      assert |parts| > 1 by {
        assert '=' in args[i];
      }
      Some(parts[1])
  }

  /** The scan from position `i` with the result built so far. */
  function Scan(args: seq<string>, i: nat, acc: CliArgs): CliArgs
    decreases |args| - i
  {
    if i >= |args| then acc
    else
      var a := args[i];
      var acc' :=
        if IsHelpFlag(a) then acc.(help := true)
        else if IsVersionFlag(a) then acc.(version := true)
        else if IsConfigFlag(a) || IsConfigAssign(a) then acc.(configPath := ConfigValue(args, i))
        else acc;
      Scan(args, Next(args, i), acc')
  }

  /** `parseArgs`: one pass over the arguments in which a `--config`/`-c`
      advances the index past its value. */
  method ParseArgs(args: seq<string>) returns (result: CliArgs)
    ensures result == Scan(args, 0, Defaults)
  {
    result := Defaults;
    var i := 0;
    while i < |args|
      invariant 0 <= i <= |args| + 1
      invariant Scan(args, 0, Defaults) == Scan(args, i, result)
      decreases |args| - i
    {
      var arg := args[i];
      if IsHelpFlag(arg) {
        result := result.(help := true);
      } else if IsVersionFlag(arg) {
        result := result.(version := true);
      } else if IsConfigFlag(arg) {
        i := i + 1;
        result := result.(configPath := if i < |args| then Some(args[i]) else None);
      } else if IsConfigAssign(arg) {
        result := result.(configPath := ConfigValue(args, i));
      }
      i := i + 1;
    }
  }

  /** The positions the scan from `i` reads as options. */
  predicate Visits(args: seq<string>, i: nat, j: nat)
    ensures Visits(args, i, j) ==> i <= j < |args|
    decreases |args| - i
  {
    i < |args| && (j == i || Visits(args, Next(args, i), j))
  }

  /** The help and version flags are set iff such a flag is read as an option
      somewhere, and they are never cleared. */
  lemma {:induction false} FlagsIffSeen(args: seq<string>, i: nat, acc: CliArgs)
    ensures Scan(args, i, acc).help <==> acc.help || exists j: nat :: Visits(args, i, j) && IsHelpFlag(args[j])
    ensures Scan(args, i, acc).version <==> acc.version || exists j: nat :: Visits(args, i, j) && IsVersionFlag(args[j])
    decreases |args| - i
  {
    if i < |args| {
      var a := args[i];
      var acc' :=
        if IsHelpFlag(a) then acc.(help := true)
        else if IsVersionFlag(a) then acc.(version := true)
        else if IsConfigFlag(a) || IsConfigAssign(a) then acc.(configPath := ConfigValue(args, i))
        else acc;
      var n := Next(args, i);
      FlagsIffSeen(args, n, acc');
      forall j: nat | Visits(args, i, j) && j != i ensures Visits(args, n, j) { }
      forall j: nat | Visits(args, n, j) ensures Visits(args, i, j) { }
    } else {
      forall j: nat | Visits(args, i, j) ensures false { }
    }
  }

  /** The argument after `--config` or `-c` is consumed as its value and is
      never itself read as an option. */
  lemma {:induction false} ValueNeverReadAsOption(args: seq<string>, i: nat, j: nat)
    requires Visits(args, i, j) && IsConfigFlag(args[j])
    ensures !Visits(args, i, j + 1)
    decreases |args| - i
  {
    if Visits(args, i, j + 1) && i != j {
      ValueNeverReadAsOption(args, Next(args, i), j);
    }
  }

  /** With no config option read from `i` on, the path stays as it was. */
  lemma {:induction false} NoLaterConfig(args: seq<string>, i: nat, acc: CliArgs)
    requires forall k: nat :: Visits(args, i, k) ==> !IsConfigFlag(args[k]) && !IsConfigAssign(args[k])
    ensures Scan(args, i, acc).configPath == acc.configPath
    decreases |args| - i
  {
    if i < |args| {
      var a := args[i];
      var acc' :=
        if IsHelpFlag(a) then acc.(help := true)
        else if IsVersionFlag(a) then acc.(version := true)
        else acc;
      var n := Next(args, i);
      forall k: nat | Visits(args, n, k) ensures !IsConfigFlag(args[k]) && !IsConfigAssign(args[k]) {
        assert Visits(args, i, k);
      }
      NoLaterConfig(args, n, acc');
    }
  }

  /** The last config option read decides the path: a later one overrides
      an earlier one. */
  lemma {:induction false} LastConfigWins(args: seq<string>, i: nat, acc: CliArgs, j: nat)
    requires Visits(args, i, j) && (IsConfigFlag(args[j]) || IsConfigAssign(args[j]))
    requires forall k: nat :: Visits(args, i, k) && k > j ==> !IsConfigFlag(args[k]) && !IsConfigAssign(args[k])
    ensures Scan(args, i, acc).configPath == ConfigValue(args, j)
    decreases |args| - i
  {
    var a := args[i];
    var acc' :=
      if IsHelpFlag(a) then acc.(help := true)
      else if IsVersionFlag(a) then acc.(version := true)
      else if IsConfigFlag(a) || IsConfigAssign(a) then acc.(configPath := ConfigValue(args, i))
      else acc;
    var n := Next(args, i);
    assert Scan(args, i, acc) == Scan(args, n, acc');
    if j == i {
      assert IsConfigAssign(a) ==> a[2] == 'c';
      assert !IsHelpFlag(a) && !IsVersionFlag(a);
      forall k: nat | Visits(args, n, k) ensures !IsConfigFlag(args[k]) && !IsConfigAssign(args[k]) {
        assert Visits(args, i, k);
      }
      NoLaterConfig(args, n, acc');
    } else {
      forall k: nat | Visits(args, n, k) && k > j ensures !IsConfigFlag(args[k]) && !IsConfigAssign(args[k]) {
        assert Visits(args, i, k);
      }
      LastConfigWins(args, n, acc', j);
    }
  }

  /** `--config=X` gives `X` when `X` holds no `=`, and `--config=` the empty path. */
  lemma ConfigAssignValue(args: seq<string>, i: nat, v: string)
    requires i < |args| && args[i] == "--config=" + v && '=' !in v
    ensures ConfigValue(args, i) == Some(v)
  {
    assert args[i] == "--config" + ['='] + v;
    SplitAtFirst("--config", v, '=');
  }

  /** Arguments the scanner does not know are skipped. */
  lemma UnknownSkipped(args: seq<string>, i: nat, acc: CliArgs)
    requires i < |args|
    requires !IsHelpFlag(args[i]) && !IsVersionFlag(args[i]) && !IsConfigFlag(args[i]) && !IsConfigAssign(args[i])
    ensures Scan(args, i, acc) == Scan(args, i + 1, acc)
  {
  }
}
