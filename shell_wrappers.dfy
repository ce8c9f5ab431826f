/** The generator of shell wrapper functions (`tools/dbusxml2sh.py`): the
    methods of an introspection document are collected into a table, in
    first-seen order, with one argument list per overload, and each list
    becomes a shell function calling `dbus-send`. The XML document is taken
    already parsed: a method is its name and its arguments. */
module ShellWrappers {
  import opened Wrappers
  import opened Decimal
  import opened Text

  /** `typecode_to_str`: the name `dbus-send` uses for a basic type code. */
  function TypeCodeStr(code: string): Option<string>
  {
    if code == "y" then Some("byte")
    else if code == "b" then Some("boolean")
    else if code == "n" then Some("int16")
    else if code == "q" then Some("uint16")
    else if code == "i" then Some("int32")
    else if code == "u" then Some("uint32")
    else if code == "x" then Some("int64")
    else if code == "t" then Some("uint64")
    else if code == "d" then Some("double")
    else if code == "h" then Some("unix_fd")
    else if code == "s" then Some("string")
    else None
  }

  /** The type code `dbus-send` names `name`, the inverse table. */
  function CodeOfName(name: string): Option<string>
  {
    if name == "byte" then Some("y")
    else if name == "boolean" then Some("b")
    else if name == "int16" then Some("n")
    else if name == "uint16" then Some("q")
    else if name == "int32" then Some("i")
    else if name == "uint32" then Some("u")
    else if name == "int64" then Some("x")
    else if name == "uint64" then Some("t")
    else if name == "double" then Some("d")
    else if name == "unix_fd" then Some("h")
    else if name == "string" then Some("s")
    else None
  }

  /** The code table is one-to-one: a code maps to a name exactly when that
      name maps back to the code, so no two codes share a name. */
  lemma TypeCodeRoundTrip(code: string, name: string)
    ensures TypeCodeStr(code) == Some(name) <==> CodeOfName(name) == Some(code)
  {
  }

  lemma TypeCodeInjective(a: string, b: string)
    requires TypeCodeStr(a).Some? && TypeCodeStr(a) == TypeCodeStr(b)
    ensures a == b
  {
    TypeCodeRoundTrip(a, TypeCodeStr(a).value);
    TypeCodeRoundTrip(b, TypeCodeStr(a).value);
  }

  /** The type as an f-string renders it: an unknown code prints `None`. */
  function TypeText(code: string): string
  {
    match TypeCodeStr(code)
    case Some(name) => name
    case None => "None"
  }

  datatype Arg = Arg(direction: string, typeCode: string)
  datatype MethodNode = MethodNode(name: string, args: seq<Arg>)

  /** An entry of the method table: the destination part of the command and
      one argument list per overload. */
  datatype Entry = Entry(cmd: string, argLists: seq<seq<string>>)

  /** One argument of the command line: its type and positional parameter. */
  function ArgStr(a: Arg, index: nat): string
  {
    TypeText(a.typeCode) + ":\"$" + FormatNat(index) + "\""
  }

  function InArgs(args: seq<Arg>): seq<Arg>
  {
    if |args| == 0 then []
    else InArgs(args[..|args| - 1]) + (if args[|args| - 1].direction == "in" then [args[|args| - 1]] else [])
  }

  /** The argument strings of a method: its `in` arguments only, numbered
      from 1 in order. */
  function InArgStrs(args: seq<Arg>): seq<string>
  {
    if |args| == 0 then []
    else
      var prev := InArgStrs(args[..|args| - 1]);
      var a := args[|args| - 1];
      if a.direction == "in" then prev + [ArgStr(a, |prev| + 1)] else prev
  }

  /** The `k`-th argument string is the `k`-th `in` argument with parameter
      `$k+1`: only inputs appear, and they are numbered consecutively. */
  lemma {:induction false} InArgStrsNumbered(args: seq<Arg>)
    ensures |InArgStrs(args)| == |InArgs(args)|
    ensures forall k :: 0 <= k < |InArgs(args)| ==> InArgStrs(args)[k] == ArgStr(InArgs(args)[k], k + 1)
    ensures forall a :: a in InArgs(args) ==> a in args && a.direction == "in"
  {
    if |args| > 0 {
      var n := |args| - 1;
      var init := args[..n];
      InArgStrsNumbered(init);
      assert forall a :: a in init ==> a in args by {
        forall a | a in init ensures a in args {
          var j :| 0 <= j < n && init[j] == a;
          assert args[j] == a;
        }
      }
      if args[n].direction == "in" {
        assert InArgs(args) == InArgs(init) + [args[n]];
        assert InArgStrs(args) == InArgStrs(init) + [ArgStr(args[n], |InArgs(init)| + 1)];
      } else {
        assert InArgs(args) == InArgs(init) && InArgStrs(args) == InArgStrs(init);
      }
    }
  }

  /** The destination, object path and member of a method's command. */
  function MethodCmd(iface: string, obj: string, name: string): string
  {
    "--dest=" + iface + " " + obj + " " + iface + "." + name
  }

  /** How later overloads are named: as written, every one gets the literal
      suffix `_{i}`; intended, the suffix `_` and its index. */
  datatype Naming = AsWritten | Intended

  function FnName(name: string, i: nat, naming: Naming): string
  {
    "ndb_" + name + (if i == 0 then "" else match naming case AsWritten => "_{i}" case Intended => "_" + FormatNat(i))
  }

  /** The arguments of a command line, each preceded by a space. */
  function Joined(argList: seq<string>): string
  {
    if |argList| == 0 then "" else Joined(argList[..|argList| - 1]) + " " + argList[|argList| - 1]
  }

  function CmdLine(commonCmd: string, cmd: string, argList: seq<string>): string
  {
    commonCmd + " " + cmd + Joined(argList)
  }

  function FuncText(fnName: string, cmdLine: string): string
  {
    fnName + "()\n{\n    " + cmdLine + "\n    return 0\n}\n\n"
  }

  /** The functions for the first `|argLists|` overloads of one method. */
  function MethodFuncs(commonCmd: string, name: string, cmd: string, argLists: seq<seq<string>>, naming: Naming): seq<string>
  {
    if |argLists| == 0 then []
    else
      var i := |argLists| - 1;
      MethodFuncs(commonCmd, name, cmd, argLists[..i], naming) + [FuncText(FnName(name, i, naming), CmdLine(commonCmd, cmd, argLists[i]))]
  }

  /** One function per overload, in order, the `i`-th named for `i` and
      calling the command with the `i`-th argument list. */
  lemma {:induction false} MethodFuncsShape(commonCmd: string, name: string, cmd: string, argLists: seq<seq<string>>, naming: Naming)
    ensures |MethodFuncs(commonCmd, name, cmd, argLists, naming)| == |argLists|
    ensures forall i :: 0 <= i < |argLists| ==>
      MethodFuncs(commonCmd, name, cmd, argLists, naming)[i] == FuncText(FnName(name, i, naming), CmdLine(commonCmd, cmd, argLists[i]))
  {
    if |argLists| > 0 {
      var n := |argLists| - 1;
      MethodFuncsShape(commonCmd, name, cmd, argLists[..n], naming);
    }
  }

  /** The functions of every method, in table order. */
  function AllFuncs(commonCmd: string, order: seq<string>, entries: map<string, Entry>, naming: Naming): seq<string>
    requires forall k :: 0 <= k < |order| ==> order[k] in entries
  {
    if |order| == 0 then []
    else
      var e := entries[order[|order| - 1]];
      AllFuncs(commonCmd, order[..|order| - 1], entries, naming) + MethodFuncs(commonCmd, order[|order| - 1], e.cmd, e.argLists, naming)
  }

  function Concat(parts: seq<string>): string
  {
    if |parts| == 0 then "" else Concat(parts[..|parts| - 1]) + parts[|parts| - 1]
  }

  const Header: string := "#!/bin/sh\n\n# Shell function wrappers for dbus-send and dbus-monitor\n\n"

  /** The whole script: the header and then every function. */
  function Script(commonCmd: string, order: seq<string>, entries: map<string, Entry>, naming: Naming): string
    requires forall k :: 0 <= k < |order| ==> order[k] in entries
  {
    Header + Concat(AllFuncs(commonCmd, order, entries, naming))
  }

  /** As written, the second and third overloads of any method get the same
      function name, so the shell keeps only the later of the two. */
  lemma DuplicateFunctionNames(commonCmd: string, name: string, cmd: string, argLists: seq<seq<string>>)
    requires |argLists| >= 3
    ensures FnName(name, 1, AsWritten) == FnName(name, 2, AsWritten)
    ensures |MethodFuncs(commonCmd, name, cmd, argLists, AsWritten)| == |argLists|
    ensures StartsWith(MethodFuncs(commonCmd, name, cmd, argLists, AsWritten)[1], FnName(name, 1, AsWritten) + "()")
    ensures StartsWith(MethodFuncs(commonCmd, name, cmd, argLists, AsWritten)[2], FnName(name, 1, AsWritten) + "()")
  {
    MethodFuncsShape(commonCmd, name, cmd, argLists, AsWritten);
    var f := FnName(name, 1, AsWritten);
    var c1 := CmdLine(commonCmd, cmd, argLists[1]);
    var c2 := CmdLine(commonCmd, cmd, argLists[2]);
    assert FuncText(f, c1)[..|f + "()"|] == f + "()";
    assert FuncText(f, c2)[..|f + "()"|] == f + "()";
  }

  /** With the intended suffix, the overloads of a method get pairwise
      different function names. */
  lemma IntendedNamesDistinct(name: string, i: nat, j: nat)
    requires i != j
    ensures FnName(name, i, Intended) != FnName(name, j, Intended)
  {
    var p := "ndb_" + name;
    if i > 0 && j > 0 && |FormatNat(i)| == |FormatNat(j)| {
      if FnName(name, i, Intended) == FnName(name, j, Intended) {
        assert FnName(name, i, Intended) == p + "_" + FormatNat(i);
        var s := FnName(name, i, Intended);
        assert s[|p| + 1..] == FormatNat(i);
        assert FnName(name, j, Intended)[|p| + 1..] == FormatNat(j);
        ValueOfFormat(i);
        ValueOfFormat(j);
      }
    }
  }

  /** The method table of the generator: the common `dbus-send` prefix and
      the entries, in the order their names were first seen. */
  class MethodTable {
    const commonCmd: string
    var order: seq<string>
    var entries: map<string, Entry>

    /** Every listed name has exactly one entry, every entry is listed, and
      every entry has at least one argument list. */
    ghost predicate Valid()
      reads this
    {
      (forall i, j :: 0 <= i < j < |order| ==> order[i] != order[j])
      && (forall k :: 0 <= k < |order| ==> order[k] in entries)
      && (forall n :: n in entries ==> n in order && |entries[n].argLists| >= 1)
    }

    /** The table `main` starts from, for the `system` or `session` bus. */
    constructor (bus: string)
      ensures commonCmd == "dbus-send --" + bus + " --print-reply --type=\"method_call\""
      ensures order == [] && entries == map[]
      ensures Valid()
    {
      commonCmd := "dbus-send --" + bus + " --print-reply --type=\"method_call\"";
      order := [];
      entries := map[];
    }

    /** `process_method`: the first method of a name creates its entry with
      one argument list; a later one of the same name (an overload) adds an
      argument list and keeps the command. */
    method ProcessMethod(m: MethodNode, iface: string, obj: string)
      requires Valid()
      modifies this
      ensures Valid()
      ensures old(m.name in entries) ==>
        order == old(order)
        && entries == old(entries)[m.name := Entry(old(entries)[m.name].cmd, old(entries)[m.name].argLists + [InArgStrs(m.args)])]
      ensures old(m.name !in entries) ==>
        order == old(order) + [m.name]
        && entries == old(entries)[m.name := Entry(MethodCmd(iface, obj, m.name), [InArgStrs(m.args)])]
    {
      var argList := RenderArgs(m.args);
      if m.name in entries {
        var e := entries[m.name];
        entries := entries[m.name := Entry(e.cmd, e.argLists + [argList])];
      } else {
        entries := entries[m.name := Entry(MethodCmd(iface, obj, m.name), [argList])];
        order := order + [m.name];
      }
    }

    /** `create_shell_str`: the header followed by one function per argument
      list of every entry, in table order. */
    method CreateShellStr(naming: Naming) returns (script: string)
      requires Valid()
      ensures script == Script(commonCmd, order, entries, naming)
    {
      var funcs: seq<string> := [];
      for k := 0 to |order|
        invariant funcs == AllFuncs(commonCmd, order[..k], entries, naming)
      {
        assert order[..k + 1][..k] == order[..k];
        var name := order[k];
        var e := entries[name];
        var fs := MethodFunctions(commonCmd, name, e, naming);
        funcs := funcs + fs;
      }
      assert order[..|order|] == order;
      script := AppendFuncs(Header, funcs);
    }
  }

  /** The last loop of `create_shell_str`: every function appended to the
    script in order. */
  method AppendFuncs(script0: string, funcs: seq<string>) returns (script: string)
    ensures script == script0 + Concat(funcs)
  {
    script := script0;
    for j := 0 to |funcs|
      invariant script == script0 + Concat(funcs[..j])
    {
      assert funcs[..j + 1][..j] == funcs[..j];
      script := script + funcs[j];
    }
    assert funcs[..|funcs|] == funcs;
  }

  /** The argument loop of `process_method`: renders the `in` arguments with
    a running index from 1. */
  method RenderArgs(args: seq<Arg>) returns (argList: seq<string>)
    ensures argList == InArgStrs(args)
  {
    argList := [];
    var index := 1;
    for k := 0 to |args|
      invariant argList == InArgStrs(args[..k])
      invariant index == |argList| + 1
    {
      assert args[..k + 1][..k] == args[..k];
      if args[k].direction == "in" {
        argList := argList + [TypeText(args[k].typeCode) + ":\"$" + FormatNat(index) + "\""];
        index := index + 1;
      }
    }
    assert args[..|args|] == args;
  }

  /** The inner loops of `create_shell_str` for one entry. */
  method MethodFunctions(commonCmd: string, name: string, e: Entry, naming: Naming) returns (fs: seq<string>)
    ensures fs == MethodFuncs(commonCmd, name, e.cmd, e.argLists, naming)
  {
    fs := [];
    for i := 0 to |e.argLists|
      invariant fs == MethodFuncs(commonCmd, name, e.cmd, e.argLists[..i], naming)
    {
      assert e.argLists[..i + 1][..i] == e.argLists[..i];
      var fnName := "ndb_" + name;
      if i > 0 {
        fnName := fnName + match naming case AsWritten => "_{i}" case Intended => "_" + FormatNat(i);
      }
      var cmd := commonCmd + " " + e.cmd;
      var argList := e.argLists[i];
      for j := 0 to |argList|
        invariant cmd == CmdLine(commonCmd, e.cmd, argList[..j])
      {
        assert argList[..j + 1][..j] == argList[..j];
        cmd := cmd + " " + argList[j];
      }
      assert argList[..|argList|] == argList;
      assert fnName == FnName(name, i, naming);
      assert cmd == CmdLine(commonCmd, e.cmd, e.argLists[i]);
      fs := fs + [FuncText(fnName, cmd)];
    }
    assert e.argLists[..|e.argLists|] == e.argLists;
  }
}
