/** How the command line of chaos-ctrl is taken apart: splitCommandArgs
    (cmd/chaos-ctrl/main.go). Global flags may stand before or after the command. */
module CommandArgs {

  datatype Triple = Triple(globals: seq<string>, command: string, commandArgs: seq<string>)

  // ----- Classifying one argument -----

  predicate IsCommand(arg: string) {
    arg == "apply" || arg == "status" || arg == "delete" || arg == "list" || arg == "version"
  }

  function TrimDashes(s: string): string { if |s| > 0 && s[0] == '-' then TrimDashes(s[1..]) else s }

  /** The part before the first equals sign, or everything. */
  function BeforeEquals(s: string): string {
    if |s| == 0 || s[0] == '=' then "" else [s[0]] + BeforeEquals(s[1..])
  }

  predicate IsGlobalFlag(arg: string) {
    var name := BeforeEquals(TrimDashes(arg));
    (name == "namespace" || name == "kubeconfig" || name == "context" || name == "output" || name == "o") &&
    |arg| > 0 && arg[0] == '-'
  }

  lemma FlagsAreNoCommands(arg: string)
    ensures !(IsCommand(arg) && IsGlobalFlag(arg))
  {
    if IsCommand(arg) {
      assert arg[0] in {'a', 's', 'd', 'l', 'v'};
    }
  }

  // ----- The split -----

  /** After the command: global flags with their values, and the rest. */
  function SplitAfter(args: seq<string>): (seq<string>, seq<string>) {
    if |args| == 0 then ([], [])
    else if !IsGlobalFlag(args[0]) then
      var (g, c) := SplitAfter(args[1..]); (g, [args[0]] + c)
    else if '=' in args[0] || |args| == 1 then
      var (g, c) := SplitAfter(args[1..]); ([args[0]] + g, c)
    else
      var (g, c) := SplitAfter(args[2..]); ([args[0], args[1]] + g, c)
  }

  function Split(args: seq<string>): Triple {
    if |args| == 0 then Triple([], "", [])
    else if IsCommand(args[0]) then
      var (g, c) := SplitAfter(args[1..]); Triple(g, args[0], c)
    else
      var t := Split(args[1..]); t.(globals := [args[0]] + t.globals)
  }

  /** What is left to split, together with what has been taken apart so far. */
  function Rest(globals: seq<string>, command: string, commandArgs: seq<string>, args: seq<string>): Triple {
    if command == "" then
      var t := Split(args); Triple(globals + t.globals, t.command, commandArgs + t.commandArgs)
    else
      var (g, c) := SplitAfter(args); Triple(globals + g, command, commandArgs + c)
  }

  lemma TakeCommand(g: seq<string>, args: seq<string>)
    requires |args| > 0 && IsCommand(args[0])
    ensures args[0] != "" && Rest(g, "", [], args) == Rest(g, args[0], [], args[1..])
  {
  }

  lemma TakeGlobal(g: seq<string>, command: string, c: seq<string>, args: seq<string>)
    requires |args| > 0
    requires if command == "" then !IsCommand(args[0]) else IsGlobalFlag(args[0]) && ('=' in args[0] || |args| == 1)
    ensures Rest(g, command, c, args) == Rest(g + [args[0]], command, c, args[1..])
  {
    hide IsCommand, IsGlobalFlag;
    var more := if command == "" then Split(args[1..]).globals else SplitAfter(args[1..]).0;
    assert g + ([args[0]] + more) == (g + [args[0]]) + more;
  }

  lemma TakePair(g: seq<string>, command: string, c: seq<string>, args: seq<string>)
    requires |args| > 1 && command != "" && IsGlobalFlag(args[0]) && '=' !in args[0]
    ensures Rest(g, command, c, args) == Rest(g + [args[0]] + [args[1]], command, c, args[2..])
  {
    hide IsCommand, IsGlobalFlag;
    var more := SplitAfter(args[2..]).0;
    assert g + ([args[0], args[1]] + more) == (g + [args[0]] + [args[1]]) + more;
  }

  lemma TakeArg(g: seq<string>, command: string, c: seq<string>, args: seq<string>)
    requires |args| > 0 && command != "" && !IsGlobalFlag(args[0])
    ensures Rest(g, command, c, args) == Rest(g, command, c + [args[0]], args[1..])
  {
    hide IsCommand, IsGlobalFlag;
    var more := SplitAfter(args[1..]).1;
    assert c + ([args[0]] + more) == (c + [args[0]]) + more;
  }

  /** splitCommandArgs. */
  method SplitCommandArgs(args: seq<string>) returns (t: Triple)
    ensures t == Split(args)
  {
    var globals, command, commandArgs := [], "", [];
    var i := 0;
    assert args[0..] == args && Rest([], "", [], args) == Split(args);
    while i < |args|
      invariant 0 <= i <= |args|
      invariant command == "" ==> commandArgs == []
      invariant Rest(globals, command, commandArgs, args[i..]) == Split(args)
    {
      hide IsCommand, IsGlobalFlag, Rest, Split, SplitAfter;
      var arg := args[i];
      assert args[i..][1..] == args[i + 1..];
      if command == "" {
        if IsCommand(arg) {
          TakeCommand(globals, args[i..]);
          command := arg;
        } else {
          TakeGlobal(globals, command, commandArgs, args[i..]);
          globals := globals + [arg];
        }
      } else if IsGlobalFlag(arg) {
        if '=' !in arg && i + 1 < |args| {
          assert args[i..][2..] == args[i + 2..];
          TakePair(globals, command, commandArgs, args[i..]);
          globals := globals + [arg];
          i := i + 1;
          globals := globals + [args[i]];
        } else {
          TakeGlobal(globals, command, commandArgs, args[i..]);
          globals := globals + [arg];
        }
      } else {
        TakeArg(globals, command, commandArgs, args[i..]);
        commandArgs := commandArgs + [arg];
      }
      i := i + 1;
    }
    t := Triple(globals, command, commandArgs);
    assert args[i..] == [] && Rest(globals, command, commandArgs, []) == t;
  }

  // ----- A partition in order -----

  datatype Role = Global | Command | CommandArg

  function Pick(args: seq<string>, roles: seq<Role>, role: Role): seq<string>
    requires |args| == |roles|
  {
    if |args| == 0 then []
    else (if roles[0] == role then [args[0]] else []) + Pick(args[1..], roles[1..], role)
  }

  lemma PickCons(a: string, r: Role, args: seq<string>, roles: seq<Role>, role: Role)
    requires |args| == |roles|
    ensures Pick([a] + args, [r] + roles, role) == (if r == role then [a] else []) + Pick(args, roles, role)
  {
    assert ([a] + args)[1..] == args && ([r] + roles)[1..] == roles;
  }

  lemma {:induction false} RolesAfter(args: seq<string>) returns (roles: seq<Role>)
    ensures |roles| == |args| && Command !in roles
    ensures Pick(args, roles, Global) == SplitAfter(args).0 && Pick(args, roles, CommandArg) == SplitAfter(args).1
    ensures Pick(args, roles, Command) == []
  {
    if |args| == 0 {
      roles := [];
    } else {
      assert args == [args[0]] + args[1..];
      if IsGlobalFlag(args[0]) && '=' !in args[0] && |args| > 1 {
        var rest := RolesAfter(args[2..]);
        roles := [Global] + ([Global] + rest);
        assert args[1..] == [args[1]] + args[2..];
        forall role: Role
          ensures Pick(args, roles, role) ==
                  (if role == Global then [args[0], args[1]] else []) + Pick(args[2..], rest, role)
        {
          PickCons(args[0], Global, args[1..], [Global] + rest, role);
          PickCons(args[1], Global, args[2..], rest, role);
        }
      } else {
        var rest := RolesAfter(args[1..]);
        var r := if IsGlobalFlag(args[0]) then Global else CommandArg;
        roles := [r] + rest;
        forall role: Role
          ensures Pick(args, roles, role) == (if r == role then [args[0]] else []) + Pick(args[1..], rest, role)
        {
          PickCons(args[0], r, args[1..], rest, role);
        }
      }
    }
  }

  /** The three parts together are the whole input, each in input order; the command
      is the first command word, everything before it is global, and there is no
      command exactly when there is no command word. */
  lemma {:induction false} SplitIsPartition(args: seq<string>) returns (roles: seq<Role>)
    ensures var t := Split(args);
            && |roles| == |args|
            && Pick(args, roles, Global) == t.globals
            && Pick(args, roles, Command) == (if t.command == "" then [] else [t.command])
            && Pick(args, roles, CommandArg) == t.commandArgs
    ensures forall i :: 0 <= i < |roles| && roles[i] == Command ==>
              IsCommand(args[i]) && forall j :: 0 <= j < i ==> !IsCommand(args[j]) && roles[j] == Global
    ensures Split(args).command == "" <==> forall i :: 0 <= i < |args| ==> !IsCommand(args[i])
  {
    if |args| == 0 {
      roles := [];
    } else {
      assert args == [args[0]] + args[1..];
      var rest;
      var r;
      if IsCommand(args[0]) {
        rest := RolesAfter(args[1..]);
        r := Command;
      } else {
        rest := SplitIsPartition(args[1..]);
        r := Global;
      }
      roles := [r] + rest;
      forall role: Role
        ensures Pick(args, roles, role) == (if r == role then [args[0]] else []) + Pick(args[1..], rest, role)
      {
        PickCons(args[0], r, args[1..], rest, role);
      }
    }
  }

  /** No global flag is left among the command's own arguments. */
  lemma {:induction false} AfterHasNoFlags(args: seq<string>)
    ensures forall a :: a in SplitAfter(args).1 ==> !IsGlobalFlag(a)
    ensures |SplitAfter(args).0| > 0 ==> IsGlobalFlag(SplitAfter(args).0[0])
  {
    if |args| == 0 {
    } else {
      AfterHasNoFlags(args[1..]);
      if |args| > 1 {
        AfterHasNoFlags(args[2..]);
      }
    }
  }

  lemma {:induction false} CommandArgsHaveNoGlobalFlag(args: seq<string>)
    ensures forall a :: a in Split(args).commandArgs ==> !IsGlobalFlag(a)
  {
    if |args| == 0 {
    } else {
      if IsCommand(args[0]) {
        AfterHasNoFlags(args[1..]);
      } else {
        CommandArgsHaveNoGlobalFlag(args[1..]);
      }
    }
  }

  // ----- Splitting again -----

  lemma {:induction false} SplitAfterPlain(args: seq<string>)
    requires forall a :: a in args ==> !IsGlobalFlag(a)
    ensures SplitAfter(args) == ([], args)
  {
    if |args| == 0 {
    } else {
      SplitAfterPlain(args[1..]);
      assert args == [args[0]] + args[1..];
    }
  }

  /** Words before the first command word are global whatever they are. */
  lemma {:induction false} SplitPrefix(prefix: seq<string>, command: string, rest: seq<string>)
    requires IsCommand(command) && forall a :: a in prefix ==> !IsCommand(a)
    ensures Split(prefix + [command] + rest) ==
            Triple(prefix + SplitAfter(rest).0, command, SplitAfter(rest).1)
  {
    var args := prefix + [command] + rest;
    if |prefix| == 0 {
      assert args[1..] == rest;
      assert prefix + SplitAfter(rest).0 == SplitAfter(rest).0;
    } else {
      assert args[1..] == prefix[1..] + [command] + rest;
      SplitPrefix(prefix[1..], command, rest);
      assert [prefix[0]] + (prefix[1..] + SplitAfter(rest).0) == prefix + SplitAfter(rest).0;
    }
  }

  function Rejoined(t: Triple): seq<string> { t.globals + [t.command] + t.commandArgs }

  lemma ResplitKeeps(t: Triple)
    requires IsCommand(t.command) && forall a :: a in t.commandArgs ==> !IsGlobalFlag(a)
    requires forall g :: g in t.globals ==> !IsCommand(g)
    ensures Split(Rejoined(t)) == t
  {
    hide IsCommand, IsGlobalFlag, Split;
    SplitPrefix(t.globals, t.command, t.commandArgs);
    SplitAfterPlain(t.commandArgs);
    assert t.globals + [] == t.globals;
  }

  lemma ResplitChanges(t: Triple)
    requires exists g :: g in t.globals && IsCommand(g)
    ensures Split(Rejoined(t)) != t
  {
    hide IsCommand, IsGlobalFlag, Split, SplitAfter;
    var p := FirstCommand(t.globals);
    var rest := t.globals[p + 1..] + [t.command] + t.commandArgs;
    assert Rejoined(t) == t.globals[..p] + [t.globals[p]] + rest;
    SplitPrefix(t.globals[..p], t.globals[p], rest);
    AfterHasNoFlags(rest);
    FlagsAreNoCommands(t.globals[p]);
    var g := SplitAfter(rest).0;
    if |g| > 0 {
      assert (t.globals[..p] + g)[p] == g[0] != t.globals[p];
    } else {
      assert |t.globals[..p] + g| == p;
    }
  }

  /** Putting the parts back together with the globals first and splitting again
      gives the same parts exactly when no global argument is a command word. */
  lemma ResplitIsStable(args: seq<string>)
    requires Split(args).command != ""
    ensures var t := Split(args); Split(Rejoined(t)) == t <==> forall g :: g in t.globals ==> !IsCommand(g)
  {
    CommandIsWord(args);
    CommandArgsHaveNoGlobalFlag(args);
    hide IsCommand, IsGlobalFlag, Split, Rejoined;
    var t := Split(args);
    if forall g :: g in t.globals ==> !IsCommand(g) {
      ResplitKeeps(t);
    } else {
      ResplitChanges(t);
    }
  }

  lemma {:induction false} CommandIsWord(args: seq<string>)
    requires Split(args).command != ""
    ensures IsCommand(Split(args).command)
  {
    if |args| == 0 || IsCommand(args[0]) {
    } else {
      CommandIsWord(args[1..]);
    }
  }

  lemma {:induction false} FirstCommand(gs: seq<string>) returns (p: nat)
    requires exists g :: g in gs && IsCommand(g)
    ensures p < |gs| && IsCommand(gs[p]) && forall a :: a in gs[..p] ==> !IsCommand(a)
  {
    if IsCommand(gs[0]) {
      p := 0;
    } else {
      var q := FirstCommand(gs[1..]);
      p := q + 1;
      assert gs[..p] == [gs[0]] + gs[1..][..q];
    }
  }

  /** An input for which splitting again gives something else: the value of a global
      flag is a command word, and comes to stand before the command. */
  lemma ResplitCanChange()
    ensures Split(["status", "-o", "apply"]) == Triple(["-o", "apply"], "status", [])
    ensures Split(Rejoined(Split(["status", "-o", "apply"]))) != Split(["status", "-o", "apply"])
  {
    var args := ["status", "-o", "apply"];
    assert TrimDashes("-o") == "o" && BeforeEquals("o") == "o" && IsGlobalFlag("-o");
    assert args[1..] == ["-o", "apply"];
    assert "apply" in Split(args).globals;
    ResplitIsStable(args);
  }

  function Dashes(k: nat): string { if k == 0 then "" else "-" + Dashes(k - 1) }

  const FLAG_NAMES: set<string> := {"namespace", "kubeconfig", "context", "output", "o"}

  /** The command words. */
  lemma CommandWords(arg: string)
    ensures IsCommand(arg) <==> arg in {"apply", "status", "delete", "list", "version"}
  {
  }

  lemma {:induction false} TrimmedDashes(k: nat, name: string)
    requires name == "" || name[0] != '-'
    ensures TrimDashes(Dashes(k) + name) == name
  {
    if k == 0 {
      assert Dashes(0) + name == name;
    } else {
      TrimmedDashes(k - 1, name);
      assert (Dashes(k) + name)[1..] == Dashes(k - 1) + name;
    }
  }

  lemma {:induction false} DashesTrimmed(arg: string) returns (k: nat)
    ensures arg == Dashes(k) + TrimDashes(arg) && (k > 0 <==> arg != "" && arg[0] == '-')
    ensures TrimDashes(arg) == "" || TrimDashes(arg)[0] != '-'
  {
    if arg == "" || arg[0] != '-' {
      k := 0;
      assert Dashes(0) + arg == arg;
    } else {
      var n := DashesTrimmed(arg[1..]);
      k := n + 1;
      assert arg == "-" + arg[1..];
      assert "-" + (Dashes(n) + TrimDashes(arg[1..])) == ("-" + Dashes(n)) + TrimDashes(arg[1..]);
    }
  }

  lemma {:induction false} CutAtEquals(name: string, value: string)
    requires '=' !in name
    ensures BeforeEquals(name) == name && BeforeEquals(name + "=" + value) == name
  {
    if name == "" {
      assert (name + "=" + value)[0] == '=';
    } else {
      CutAtEquals(name[1..], value);
      assert (name + "=" + value)[1..] == name[1..] + "=" + value;
      assert name == [name[0]] + name[1..];
    }
  }

  lemma OneMoreChar(head: string, name: string, value: string)
    ensures head + (name + "=" + value) == head + name + "=" + value
  {
  }

  lemma {:induction false} EqualsCut(s: string) returns (value: string)
    ensures '=' !in BeforeEquals(s)
    ensures s == BeforeEquals(s) || s == BeforeEquals(s) + "=" + value
  {
    if s == "" || s[0] == '=' {
      value := if s == "" then "" else s[1..];
      assert s != "" ==> s == "" + "=" + s[1..];
    } else {
      value := EqualsCut(s[1..]);
      var head, name := [s[0]], BeforeEquals(s[1..]);
      assert s == head + s[1..] && BeforeEquals(s) == head + name;
      hide BeforeEquals;
      OneMoreChar(head, name, value);
    }
  }

  ghost predicate IsFlagOf(arg: string, k: nat, name: string, value: string) {
    k > 0 && name in FLAG_NAMES && (arg == Dashes(k) + name || arg == Dashes(k) + (name + "=" + value))
  }

  lemma FlagNames(name: string)
    ensures name in FLAG_NAMES ==> name != "" && name[0] != '-' && '=' !in name
  {
  }

  /** The global flags: one or more dashes, one of the five names, and perhaps a value
      after an equals sign. */
  lemma GlobalFlags(arg: string)
    ensures IsGlobalFlag(arg) <==> exists k: nat, name: string, value: string :: IsFlagOf(arg, k, name, value)
  {
    if IsGlobalFlag(arg) {
      var k := DashesTrimmed(arg);
      var value := EqualsCut(TrimDashes(arg));
      assert IsFlagOf(arg, k, BeforeEquals(TrimDashes(arg)), value);
    }
    if k: nat, name: string, value: string :| IsFlagOf(arg, k, name, value) {
      FlagNames(name);
      TrimmedDashes(k, name);
      TrimmedDashes(k, name + "=" + value);
      CutAtEquals(name, value);
      assert arg[0] == '-';
    }
  }

  /** Where an argument after the command goes: a global flag to the globals, with the
      next argument unless it carries its value itself or is the last one, and any other
      argument to the command. */
  lemma AfterTheCommand(arg: string, next: string, rest: seq<string>)
    ensures IsGlobalFlag(arg) && '=' !in arg ==>
              SplitAfter([arg, next] + rest) == ([arg, next] + SplitAfter(rest).0, SplitAfter(rest).1)
    ensures IsGlobalFlag(arg) && '=' in arg ==>
              SplitAfter([arg] + rest) == ([arg] + SplitAfter(rest).0, SplitAfter(rest).1)
    ensures IsGlobalFlag(arg) ==> SplitAfter([arg]) == ([arg], [])
    ensures !IsGlobalFlag(arg) ==> SplitAfter([arg] + rest) == (SplitAfter(rest).0, [arg] + SplitAfter(rest).1)
  {
    hide IsGlobalFlag;
    assert ([arg, next] + rest)[2..] == rest && ([arg] + rest)[1..] == rest && [arg][1..] == [];
    assert [arg] + [] == [arg];
  }

  /** Where an argument before the command goes. */
  lemma UpToTheCommand(arg: string, rest: seq<string>)
    ensures IsCommand(arg) ==> Split([arg] + rest) == Triple(SplitAfter(rest).0, arg, SplitAfter(rest).1)
    ensures !IsCommand(arg) ==> Split([arg] + rest) == Split(rest).(globals := [arg] + Split(rest).globals)
  {
    hide IsCommand, IsGlobalFlag;
    assert ([arg] + rest)[1..] == rest;
  }
}
