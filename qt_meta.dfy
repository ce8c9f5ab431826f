/** The pieces of Qt's meta-object system that both Qt command-line tools
    read: the methods of the D-Bus proxy with their kind, name and parameters,
    and the case-insensitive boolean spelling both tools accept. */
module QtMeta {
  import opened Wrappers
  import opened Text
  import GoStrconv

  datatype MethodKind = Method | Signal | Slot | Constructor

  /** The `QMetaType` ids the tools distinguish; every other type keeps its name. */
  datatype MetaType = IntType | BoolType | DoubleType | QStringType | OtherType(typeName: string)

  datatype Param = Param(name: string, typ: MetaType)

  datatype MetaMethod = MetaMethod(name: string, kind: MethodKind, params: seq<Param>)

  /** Methods below `methodOffset` belong to base classes and are not searched. */
  datatype MetaObject = MetaObject(methodOffset: nat, methods: seq<MetaMethod>)

  predicate WellFormed(mo: MetaObject)
  {
    mo.methodOffset <= |mo.methods|
  }

  /** `QMetaType::typeName`. */
  function TypeName(t: MetaType): string
  {
    match t
    case IntType => "int"
    case BoolType => "bool"
    case DoubleType => "double"
    case QStringType => "QString"
    case OtherType(n) => n
  }

  function TypeList(ps: seq<Param>): string
  {
    if |ps| == 0 then ""
    else if |ps| == 1 then TypeName(ps[0].typ)
    else TypeName(ps[0].typ) + "," + TypeList(ps[1..])
  }

  /** `QMetaMethod::methodSignature`: `name(type,type)`. */
  function Signature(m: MetaMethod): string
  {
    m.name + "(" + TypeList(m.params) + ")"
  }

  /** A method the tools may call with `argc` arguments: same name, a plain
      method or a slot, and exactly `argc` parameters. */
  predicate Invokable(m: MetaMethod, name: string, argc: nat)
  {
    m.name == name && (m.kind == Method || m.kind == Slot) && |m.params| == argc
  }

  /** The first invokable method at or after `from`, or -1. */
  function FirstInvokable(mo: MetaObject, name: string, argc: nat, from: nat): (r: int)
    requires from <= |mo.methods|
    ensures r == -1 <==> forall i :: from <= i < |mo.methods| ==> !Invokable(mo.methods[i], name, argc)
    ensures r != -1 ==> from <= r < |mo.methods| && Invokable(mo.methods[r], name, argc)
    ensures r != -1 ==> forall i :: from <= i < r ==> !Invokable(mo.methods[i], name, argc)
    decreases |mo.methods| - from
  {
    if from == |mo.methods| then -1
    else if Invokable(mo.methods[from], name, argc) then from
    else FirstInvokable(mo, name, argc, from + 1)
  }

  /** `QString::compare(…, Qt::CaseInsensitive)` against `true`, `t`, `false`
      and `f`. */
  function QtBool(token: string): (r: Option<bool>)
  {
    if EqualsIgnoreCase(token, "true") || EqualsIgnoreCase(token, "t") then Some(true)
    else if EqualsIgnoreCase(token, "false") || EqualsIgnoreCase(token, "f") then Some(false)
    else None
  }

  lemma {:induction false} ToLowerIdempotent(s: string)
    ensures ToLower(ToLower(s)) == ToLower(s)
  {
    var l := ToLower(s);
    assert forall k :: 0 <= k < |s| ==> LowerChar(l[k]) == l[k];
  }

  /** Case never matters to the Qt spelling, and exactly four lower-case
      words are accepted. */
  lemma QtBoolIgnoresCase(token: string)
    ensures QtBool(token) == QtBool(ToLower(token))
    ensures QtBool(token).Some? <==> ToLower(token) in ["true", "t", "false", "f"]
  {
    ToLowerIdempotent(token);
  }

  /** Where both Go's `ParseBool` and the Qt spelling accept a token they read
      the same truth value. */
  lemma QtBoolAgreesWithGo(token: string)
    ensures QtBool(token).Some? && GoStrconv.ParseBool(token).Some? ==> QtBool(token) == GoStrconv.ParseBool(token)
  {
    if GoStrconv.ParseBool(token).Some? {
      assert token in ["1", "t", "T", "TRUE", "true", "True", "0", "f", "F", "FALSE", "false", "False"];
    }
  }

  /** Each accepts words the other refuses: mixed case only Qt, digits only
      Go. */
  lemma QtBoolDiffersFromGo()
    ensures QtBool("tRuE") == Some(true) && GoStrconv.ParseBool("tRuE").None?
    ensures QtBool("1").None? && GoStrconv.ParseBool("1") == Some(true)
  {
    var s := "tRuE";
    assert forall k :: 0 <= k < |s| ==> LowerChar(s[k]) == "true"[k];
    assert ToLower(s) == "true";
  }
}
