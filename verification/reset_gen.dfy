/** The Reset-method generator (cmd/reset/main.go): from the fields of a struct type marked
    for generation it collects field descriptions, and from those it writes a `Reset()` method
    that returns every field to its zero state.

    Only what follows the parse is modelled: the Go syntax tree of a field type is given as an
    `Expr`, and the generated text is returned rather than written to a file. */
module ResetGenerator {
  import opened Wrappers

  /** The parts of a Go type expression (go/ast) the generator distinguishes. `Other` stands for
      every other node, including the literal length of an array type. */
  datatype Expr =
    | Ident(name: string)
    | Star(x: Expr)
    | ArrayType(len: Option<Expr>, elt: Expr)
    | MapType(key: Expr, value: Expr)
    | Selector(x: Expr, sel: string)
    | StructType(fields: seq<AstField>)
    | Other

  /** One line of a struct type: its declared names (none for an embedded field) and its type. */
  datatype AstField = AstField(names: seq<string>, typ: Expr)

  /** FieldInfo: what the generator needs to know of one field. */
  datatype FieldInfo = FieldInfo(
    Name: string,
    Type: string,
    IsPtr: bool,
    IsSlice: bool,
    IsMap: bool,
    IsStruct: bool,
    IsAnonymousStruct: bool,
    AnonymousFields: seq<FieldInfo>)

  /** StructInfo: a struct marked for generation, with the package it belongs to. */
  datatype StructInfo = StructInfo(Package: string, Name: string, Fields: seq<FieldInfo>, File: string)

  /** The number of nodes of a type expression, the measure the recursive extraction descends. */
  function ExprSize(e: Expr): nat
    decreases e
  {
    match e
    case Ident(_) => 1
    case Star(x) => 1 + ExprSize(x)
    case ArrayType(len, elt) => 1 + (if len.Some? then ExprSize(len.value) else 0) + ExprSize(elt)
    case MapType(k, v) => 1 + ExprSize(k) + ExprSize(v)
    case Selector(x, _) => 1 + ExprSize(x)
    case StructType(fs) => 1 + FieldsSize(fs)
    case Other => 1
  }

  function FieldsSize(fs: seq<AstField>): nat
    decreases fs
  {
    if fs == [] then 0 else FieldsSize(fs[..|fs| - 1]) + ExprSize(fs[|fs| - 1].typ)
  }

  /** Every field's type is smaller than the list it is part of. */
  lemma {:induction false} FieldSizeBound(fs: seq<AstField>, i: nat)
    requires i < |fs|
    ensures ExprSize(fs[i].typ) <= FieldsSize(fs)
  {
    if i < |fs| - 1 {
      FieldSizeBound(fs[..|fs| - 1], i);
    }
  }

  /** getBaseType: the type with every pointer layer removed. */
  function GetBaseType(e: Expr): (r: Expr)
    ensures !r.Star?
    ensures !e.Star? ==> r == e
    ensures ExprSize(r) <= ExprSize(e)
  {
    if e.Star? then GetBaseType(e.x) else e
  }

  /** The number of pointer layers getBaseType removes. */
  function PointerDepth(e: Expr): nat
  {
    if e.Star? then 1 + PointerDepth(e.x) else 0
  }

  function Stars(n: nat): string
  {
    if n == 0 then "" else "*" + Stars(n - 1)
  }

  /** getTypeString: Go syntax for identifiers, pointers, slices, arrays, maps and qualified
      names; "unknown" for anything else (an array's literal length included). */
  function GetTypeString(e: Expr): string
  {
    match e
    case Ident(name) => name
    case Star(x) => "*" + GetTypeString(x)
    case ArrayType(len, elt) =>
      if len.None? then "[]" + GetTypeString(elt)
      else "[" + GetTypeString(len.value) + "]" + GetTypeString(elt)
    case MapType(k, v) => "map[" + GetTypeString(k) + "]" + GetTypeString(v)
    case Selector(x, sel) => GetTypeString(x) + "." + sel
    case _ => "unknown"
  }

  /** A type's string is its base type's string behind one star per pointer layer. */
  lemma {:induction false} TypeStringOfPointers(e: Expr)
    ensures GetTypeString(e) == Stars(PointerDepth(e)) + GetTypeString(GetBaseType(e))
  {
    if e.Star? {
      TypeStringOfPointers(e.x);
    }
  }

  /** strings.TrimPrefix(s, "*"): at most one leading star removed. */
  function TrimStar(s: string): (r: string)
    ensures |s| > 0 && s[0] == '*' ==> r == s[1..]
    ensures !(|s| > 0 && s[0] == '*') ==> r == s
  {
    if |s| > 0 && s[0] == '*' then s[1..] else s
  }

  /** Trimming the star of a pointer type's string gives the string of the pointee. */
  lemma PointeeTypeString(x: Expr)
    ensures TrimStar(GetTypeString(Star(x))) == GetTypeString(x)
  {
    assert GetTypeString(Star(x)) == "*" + GetTypeString(x);
  }

  /** isPointerType: a pointer at the top level only. */
  predicate IsPointerType(e: Expr)
  {
    e.Star?
  }

  /** isSliceType: an array type without a length. */
  predicate IsSliceType(e: Expr)
  {
    e.ArrayType? && e.len.None?
  }

  predicate IsMapType(e: Expr)
  {
    e.MapType?
  }

  /** The predeclared numeric type names (byte and rune included), whose zero value is 0. */
  const NumericTypes: set<string> := {
    "int", "int8", "int16", "int32", "int64",
    "uint", "uint8", "uint16", "uint32", "uint64", "uintptr",
    "float32", "float64", "complex64", "complex128", "byte", "rune"}

  /** The predeclared type names isStructType rules out. */
  const BuiltinTypes: set<string> := NumericTypes + {"string", "bool"}

  /** isStructType: after removing pointers, a struct literal or an identifier that does not
      name a predeclared type. */
  predicate IsStructType(e: Expr)
  {
    var base := GetBaseType(e);
    base.StructType? || (base.Ident? && base.name !in BuiltinTypes)
  }

  /** Pointers make no difference to isStructType. */
  lemma StructTypeThroughPointers(x: Expr)
    ensures IsStructType(Star(x)) <==> IsStructType(x)
  {
  }

  /** getZeroValue: the Go literal of the zero value of the type named by the string, after
      removing one leading star. */
  function GetZeroValue(typeStr: string): string
  {
    var t := TrimStar(typeStr);
    if t in NumericTypes then "0"
    else if t == "string" then "\"\""
    else if t == "bool" then "false"
    else t + "{}"
  }

  /** For a named type, the zero value is a composite literal exactly when isStructType takes
      the name for a struct: the two use the same list of predeclared types. */
  lemma ZeroValueAgreesWithStructCheck(name: string)
    requires !(|name| > 0 && name[0] == '*')
    ensures IsStructType(Ident(name)) <==> GetZeroValue(name) == name + "{}"
  {
    var z := GetZeroValue(name);
    if name in BuiltinTypes {
      var lit := name + "{}";
      assert lit[|lit| - 1] == '}';
      assert z == "0" || z == "\"\"" || z == "false";
      assert z[|z| - 1] != '}';
    }
  }

  /** The description of a field of type `typ` before its name is filled in. */
  function BaseInfo(typ: Expr, anonymousFields: seq<FieldInfo>): FieldInfo
  {
    var base := GetBaseType(typ);
    FieldInfo("", GetTypeString(typ), IsPointerType(typ), IsSliceType(base), IsMapType(base),
              IsStructType(base), base.StructType?, anonymousFields)
  }

  /** The descriptions of one line of a struct type: one per declared name, in order, or a
      single unnamed one for an embedded field. */
  function InfosOf(f: AstField): (infos: seq<FieldInfo>)
    decreases f
    ensures f.names == [] ==> |infos| == 1 && infos[0].Name == ""
    ensures f.names != [] ==> |infos| == |f.names| && forall k | 0 <= k < |infos| :: infos[k].Name == f.names[k]
  {
    var info := BaseInfo(f.typ, AnonymousFieldsOf(f.typ));
    if f.names == [] then [info] else seq(|f.names|, k requires 0 <= k < |f.names| => info.(Name := f.names[k]))
  }

  /** The descriptions of the fields of a struct type, line after line. */
  function FieldsOf(fs: seq<AstField>): seq<FieldInfo>
    decreases fs
  {
    if fs == [] then [] else FieldsOf(fs[..|fs| - 1]) + InfosOf(fs[|fs| - 1])
  }

  /** The descriptions of the fields of the struct a type is, after removing pointers. */
  function AnonymousFieldsOf(e: Expr): seq<FieldInfo>
    decreases e
  {
    match e
    case Star(x) => AnonymousFieldsOf(x)
    case StructType(fs) => FieldsOf(fs)
    case _ => []
  }

  lemma {:induction false} AnonymousFieldsOfBase(e: Expr)
    ensures AnonymousFieldsOf(e) ==
      (if GetBaseType(e).StructType? then FieldsOf(GetBaseType(e).fields) else [])
  {
    if e.Star? {
      AnonymousFieldsOfBase(e.x);
    }
  }

  /** A description whose flags agree with each other: at most one of slice, map and struct,
      nested fields only for an anonymous struct, which is a struct; and so on inside. */
  predicate Consistent(f: FieldInfo)
    decreases f
  {
    && !(f.IsSlice && f.IsMap) && !(f.IsSlice && f.IsStruct) && !(f.IsMap && f.IsStruct)
    && (f.IsAnonymousStruct ==> f.IsStruct)
    && (!f.IsAnonymousStruct ==> f.AnonymousFields == [])
    && forall i | 0 <= i < |f.AnonymousFields| :: Consistent(f.AnonymousFields[i])
  }

  /** Every description extractFields produces, at any depth, is consistent. */
  lemma {:induction false} FieldsOfConsistent(fs: seq<AstField>)
    decreases fs
    ensures forall i | 0 <= i < |FieldsOf(fs)| :: Consistent(FieldsOf(fs)[i])
  {
    if fs != [] {
      var f := fs[|fs| - 1];
      FieldsOfConsistent(fs[..|fs| - 1]);
      AnonymousFieldsConsistent(f.typ);
      AnonymousFieldsOfBase(f.typ);
    }
  }

  lemma {:induction false} AnonymousFieldsConsistent(e: Expr)
    decreases e
    ensures forall i | 0 <= i < |AnonymousFieldsOf(e)| :: Consistent(AnonymousFieldsOf(e)[i])
  {
    match e
    case Star(x) => AnonymousFieldsConsistent(x);
    case StructType(fs) => FieldsOfConsistent(fs);
    case _ =>
  }

  /** extractFields: walks the lines of a struct type, descending into anonymous struct types,
      and lists one description per declared name (or one per embedded field). */
  method ExtractFields(fs: seq<AstField>) returns (fields: seq<FieldInfo>)
    decreases FieldsSize(fs)
    ensures fields == FieldsOf(fs)
  {
    fields := [];
    for i := 0 to |fs|
      invariant fields == FieldsOf(fs[..i])
    {
      var field := fs[i];
      var fieldType := GetTypeString(field.typ);
      var baseType := GetBaseType(field.typ);
      var anonymousFields := [];
      if baseType.StructType? {
        FieldSizeBound(fs, i);
        anonymousFields := ExtractFields(baseType.fields);
      }
      AnonymousFieldsOfBase(field.typ);
      var fieldInfo := FieldInfo("", fieldType, IsPointerType(field.typ), IsSliceType(baseType),
                                 IsMapType(baseType), IsStructType(baseType), baseType.StructType?, anonymousFields);
      var lineFields := ExpandNames(field, fieldInfo);
      assert fs[..i + 1][..i] == fs[..i];
      fields := fields + lineFields;
    }
    assert fs[..|fs|] == fs;
  }

  /** The inner loop of extractFields: one copy of the description per declared name. */
  method ExpandNames(field: AstField, fieldInfo: FieldInfo) returns (lineFields: seq<FieldInfo>)
    requires fieldInfo == BaseInfo(field.typ, AnonymousFieldsOf(field.typ))
    ensures lineFields == InfosOf(field)
  {
    if |field.names| == 0 {
      return [fieldInfo];
    }
    lineFields := [];
    for j := 0 to |field.names|
      invariant lineFields == seq(j, k requires 0 <= k < j => fieldInfo.(Name := field.names[k]))
    {
      lineFields := lineFields + [fieldInfo.(Name := field.names[j])];
    }
  }

  /** strings.Builder: text appended piece by piece. */
  class Builder {
    var text: string

    constructor()
      ensures text == ""
    {
      text := "";
    }

    method WriteString(s: string)
      modifies this
      ensures text == old(text) + s
    {
      text := text + s;
    }
  }

  /** The statement that resets a named struct field by its own Reset method when it has one,
      and by its zero composite literal otherwise. `target` is the value the Reset check is
      applied to and `typ` the struct type. Each parenthesised piece is one WriteString. */
  function ResetterCall(indent: string, target: string, assign: string, typ: string): string
  {
    (indent + "if resetter, ok := interface{}(" + target + ").(interface{ Reset() }); ok {\n")
    + (indent + "\tresetter.Reset()\n")
    + (indent + "} else {\n")
    + (indent + "\t" + assign + " = " + typ + "{}\n")
    + (indent + "}\n")
  }

  /** The lines generateResetForFields writes for one field, reached as `prefix.Name`, at the
      given indentation; nothing for an unnamed (embedded) field. A pointer field is reset
      inside a nil check. */
  function FieldReset(f: FieldInfo, prefix: string, indent: string): string
    decreases f, 1
  {
    if f.Name == "" then ""
    else
      var n := prefix + "." + f.Name;
      if f.IsPtr then (indent + "if " + n + " != nil {\n") + PointeeReset(f, n, indent) + (indent + "}\n")
      else if f.IsSlice then indent + n + " = " + n + "[:0]\n"
      else if f.IsMap then indent + "clear(" + n + ")\n"
      else if f.IsStruct then
        (if f.IsAnonymousStruct then FieldsReset(f.AnonymousFields, n, indent)
         else ResetterCall(indent, "&" + n, n, f.Type))
      else indent + n + " = " + GetZeroValue(f.Type) + "\n"
  }

  /** What generateResetForFields writes inside the nil check of the pointer field `n`: the
      pointee is truncated, cleared, reset field by field, reset by its Reset method or set to
      its zero value. */
  function PointeeReset(f: FieldInfo, n: string, indent: string): string
    decreases f, 0
  {
    if f.IsSlice then indent + "\t*" + n + " = (*" + n + ")[:0]\n"
    else if f.IsMap then indent + "\tclear(*" + n + ")\n"
    else if f.IsStruct then
      (if f.IsAnonymousStruct then FieldsReset(f.AnonymousFields, "*" + n, indent + "\t")
       else ResetterCall(indent + "\t", n, "*" + n, TrimStar(f.Type)))
    else indent + "\t*" + n + " = " + GetZeroValue(TrimStar(f.Type)) + "\n"
  }

  /** The lines generateResetForFields writes for a list of fields, one field after another. */
  function FieldsReset(fs: seq<FieldInfo>, prefix: string, indent: string): string
    decreases fs
  {
    if fs == [] then "" else FieldsReset(fs[..|fs| - 1], prefix, indent) + FieldReset(fs[|fs| - 1], prefix, indent)
  }

  /** Unnamed fields produce nothing, at any depth. */
  lemma UnnamedFieldsSkipped(fs: seq<FieldInfo>, f: FieldInfo, prefix: string, indent: string)
    requires f.Name == ""
    ensures FieldsReset(fs + [f], prefix, indent) == FieldsReset(fs, prefix, indent)
  {
    assert (fs + [f])[..|fs|] == fs;
  }

  /** The opening of a generated method: the receiver and the nil guard. */
  function MethodHeader(name: string): string
  {
    "func (rs *" + name + ") Reset() {\n" + "\tif rs == nil {\n" + "\t\treturn\n" + "\t}\n\n"
  }

  /** The lines generateResetMethod writes for one top-level field, spelled as in its own loop. */
  function TopFieldReset(f: FieldInfo): string
  {
    if f.Name == "" then ""
    else
      var n := "rs." + f.Name;
      if f.IsPtr then ("\tif " + n + " != nil {\n") + TopPointeeReset(f, n) + "\t}\n"
      else if f.IsSlice then "\t" + n + " = " + n + "[:0]\n"
      else if f.IsMap then "\tclear(" + n + ")\n"
      else if f.IsStruct then
        (if f.IsAnonymousStruct then FieldsReset(f.AnonymousFields, n, "\t")
         else (("\t" + "if resetter, ok := interface{}(" + "&" + n + ").(interface{ Reset() }); ok {\n")
               + "\t\tresetter.Reset()\n" + "\t} else {\n"
               + ("\t\t" + n + " = " + f.Type + "{}\n") + "\t}\n"))
      else "\t" + n + " = " + GetZeroValue(f.Type) + "\n"
  }

  /** What generateResetMethod's own loop writes inside the nil check of the pointer field `n`. */
  function TopPointeeReset(f: FieldInfo, n: string): string
  {
    if f.IsSlice then "\t\t*" + n + " = (*" + n + ")[:0]\n"
    else if f.IsMap then "\t\tclear(*" + n + ")\n"
    else if f.IsStruct then
      (if f.IsAnonymousStruct then FieldsReset(f.AnonymousFields, "*" + n, "\t\t")
       else (("\t\t" + "if resetter, ok := interface{}(" + n + ").(interface{ Reset() }); ok {\n")
             + "\t\t\tresetter.Reset()\n" + "\t\t} else {\n"
             + ("\t\t\t*" + n + " = " + TrimStar(f.Type) + "{}\n") + "\t\t}\n"))
    else "\t\t*" + n + " = " + GetZeroValue(TrimStar(f.Type)) + "\n"
  }

  function TopFieldsReset(fs: seq<FieldInfo>): string
  {
    if fs == [] then "" else TopFieldsReset(fs[..|fs| - 1]) + TopFieldReset(fs[|fs| - 1])
  }

  /** generateResetMethod's text for a struct: the header, the statements generateResetForFields
      would write for the receiver `rs` at one tab, and the closing brace. */
  function ResetMethodText(s: StructInfo): string
  {
    MethodHeader(s.Name) + FieldsReset(s.Fields, "rs", "\t") + "}\n"
  }

  /** generateResetMethod's own loop writes exactly what generateResetForFields writes for the
      receiver `rs` at one tab. */
  lemma TopFieldIsNested(f: FieldInfo)
    ensures TopFieldReset(f) == FieldReset(f, "rs", "\t")
  {
    if f.Name != "" {
      var n := "rs." + f.Name;
      assert "rs" + "." + f.Name == n;
      if f.IsPtr {
        assert "\t" + "if " + n == "\tif " + n;
        assert "\t" + "}\n" == "\t}\n";
        TopPointeeIsNested(f, n);
      } else if !f.IsSlice && !f.IsMap && f.IsStruct && !f.IsAnonymousStruct {
        ResetterCallAtOneTab(n, f.Type);
      }
    }
  }

  /** Inside the nil check the two generators agree too, the nested one at "\t" + "\t". */
  lemma TopPointeeIsNested(f: FieldInfo, n: string)
    ensures TopPointeeReset(f, n) == PointeeReset(f, n, "\t")
  {
    if f.IsSlice {
      assert "\t" + "\t*" + n == "\t\t*" + n;
    } else if f.IsMap {
      assert "\t" + "\tclear(*" + n == "\t\tclear(*" + n;
    } else if f.IsStruct && f.IsAnonymousStruct {
      assert "\t" + "\t" == "\t\t";
    } else if f.IsStruct {
      ResetterCallAtTwoTabs(n, TrimStar(f.Type));
    } else {
      assert "\t" + "\t*" + n == "\t\t*" + n;
    }
  }

  /** The Reset call for a named struct field, spelled as generateResetMethod writes it. */
  lemma ResetterCallAtOneTab(n: string, typ: string)
    ensures ResetterCall("\t", "&" + n, n, typ)
      == ("\t" + "if resetter, ok := interface{}(" + "&" + n + ").(interface{ Reset() }); ok {\n")
         + "\t\tresetter.Reset()\n" + "\t} else {\n" + ("\t\t" + n + " = " + typ + "{}\n") + "\t}\n"
  {
    assert "\t" + "\tresetter.Reset()\n" == "\t\tresetter.Reset()\n";
    assert "\t" + "} else {\n" == "\t} else {\n";
    assert "\t" + "\t" == "\t\t";
    assert "\t" + "}\n" == "\t}\n";
  }

  /** The Reset call through a pointer to a named struct, spelled as generateResetMethod
      writes it. */
  lemma ResetterCallAtTwoTabs(n: string, typ: string)
    ensures ResetterCall("\t" + "\t", n, "*" + n, typ)
      == ("\t\t" + "if resetter, ok := interface{}(" + n + ").(interface{ Reset() }); ok {\n")
         + "\t\t\tresetter.Reset()\n" + "\t\t} else {\n" + ("\t\t\t*" + n + " = " + typ + "{}\n") + "\t\t}\n"
  {
    var i2 := "\t" + "\t";
    assert i2 == "\t\t";
    assert i2 + "\tresetter.Reset()\n" == "\t\t\tresetter.Reset()\n";
    assert i2 + "} else {\n" == "\t\t} else {\n";
    assert i2 + "\t" + "*" + n == "\t\t\t*" + n;
    assert i2 + "}\n" == "\t\t}\n";
  }

  lemma {:induction false} TopFieldsAreNested(fs: seq<FieldInfo>)
    ensures TopFieldsReset(fs) == FieldsReset(fs, "rs", "\t")
  {
    if fs != [] {
      TopFieldsAreNested(fs[..|fs| - 1]);
      TopFieldIsNested(fs[|fs| - 1]);
    }
  }

  /** A generated method opens with the receiver and the nil guard, resets the fields as the
      nested generator does for `rs`, and closes with a brace. */
  lemma ResetMethodShape(s: StructInfo)
    ensures ResetMethodText(s) == MethodHeader(s.Name) + TopFieldsReset(s.Fields) + "}\n"
    ensures MethodHeader(s.Name) <= ResetMethodText(s)
  {
    TopFieldsAreNested(s.Fields);
  }

  /** Writing pieces one after another appends their concatenation. */
  lemma Append2(o: string, p1: string, p2: string)
    ensures o + p1 + p2 == o + (p1 + p2)
  {
  }

  lemma Append3(o: string, p1: string, p2: string, p3: string)
    ensures o + p1 + p2 + p3 == o + (p1 + p2 + p3)
  {
  }

  lemma Append4(o: string, p1: string, p2: string, p3: string, p4: string)
    ensures o + p1 + p2 + p3 + p4 == o + (p1 + p2 + p3 + p4)
  {
  }

  lemma Append5(o: string, p1: string, p2: string, p3: string, p4: string, p5: string)
    ensures o + p1 + p2 + p3 + p4 + p5 == o + (p1 + p2 + p3 + p4 + p5)
  {
  }

  /** One more field of a list adds its own statements, and nothing when it is unnamed. */
  lemma FieldsResetStep(fields: seq<FieldInfo>, i: nat, prefix: string, indent: string)
    requires i < |fields|
    ensures FieldsReset(fields[..i + 1], prefix, indent) == FieldsReset(fields[..i], prefix, indent) + FieldReset(fields[i], prefix, indent)
    ensures fields[i].Name == "" ==> FieldsReset(fields[..i + 1], prefix, indent) == FieldsReset(fields[..i], prefix, indent)
  {
    assert fields[..i + 1][..i] == fields[..i];
  }

  /** generateResetForFields: appends the reset statements of each named field, in order. */
  method GenerateResetForFields(b: Builder, fields: seq<FieldInfo>, prefix: string, indent: string)
    modifies b
    decreases fields
    ensures b.text == old(b.text) + FieldsReset(fields, prefix, indent)
  {
    for i := 0 to |fields|
      invariant b.text == old(b.text) + FieldsReset(fields[..i], prefix, indent)
    {
      GenerateFieldReset(b, fields[i], prefix, indent);
      FieldsResetStep(fields, i, prefix, indent);
      Append2(old(b.text), FieldsReset(fields[..i], prefix, indent), FieldReset(fields[i], prefix, indent));
    }
    assert fields[..|fields|] == fields;
  }

  /** One turn of generateResetForFields' loop; an unnamed field is skipped. */
  method GenerateFieldReset(b: Builder, field: FieldInfo, prefix: string, indent: string)
    modifies b
    decreases field, 1
    ensures b.text == old(b.text) + FieldReset(field, prefix, indent)
  {
    if field.Name == "" {
      return;
    }
    var fieldName := prefix + "." + field.Name;
    if field.IsPtr {
      var open, close := indent + "if " + fieldName + " != nil {\n", indent + "}\n";
      b.WriteString(open);
      GeneratePointeeReset(b, field, fieldName, indent);
      b.WriteString(close);
      Append3(old(b.text), open, PointeeReset(field, fieldName, indent), close);
    } else if field.IsSlice {
      b.WriteString(indent + fieldName + " = " + fieldName + "[:0]\n");
    } else if field.IsMap {
      b.WriteString(indent + "clear(" + fieldName + ")\n");
    } else if field.IsStruct {
      if field.IsAnonymousStruct {
        GenerateResetForFields(b, field.AnonymousFields, fieldName, indent);
      } else {
        GenerateResetterCall(b, indent, "&" + fieldName, fieldName, field.Type);
      }
    } else {
      var zeroValue := GetZeroValue(field.Type);
      b.WriteString(indent + fieldName + " = " + zeroValue + "\n");
    }
  }

  /** The writes of generateResetForFields between a pointer field's nil check and its
      closing brace. */
  method GeneratePointeeReset(b: Builder, field: FieldInfo, fieldName: string, indent: string)
    modifies b
    decreases field, 0
    ensures b.text == old(b.text) + PointeeReset(field, fieldName, indent)
  {
    if field.IsSlice {
      b.WriteString(indent + "\t*" + fieldName + " = (*" + fieldName + ")[:0]\n");
    } else if field.IsMap {
      b.WriteString(indent + "\tclear(*" + fieldName + ")\n");
    } else if field.IsStruct {
      if field.IsAnonymousStruct {
        GenerateResetForFields(b, field.AnonymousFields, "*" + fieldName, indent + "\t");
      } else {
        GenerateResetterCall(b, indent + "\t", fieldName, "*" + fieldName, TrimStar(field.Type));
      }
    } else {
      var zeroValue := GetZeroValue(TrimStar(field.Type));
      b.WriteString(indent + "\t*" + fieldName + " = " + zeroValue + "\n");
    }
  }

  /** The five writes of the Reset-or-zero statement for a named struct field. */
  method GenerateResetterCall(b: Builder, indent: string, target: string, assign: string, typ: string)
    modifies b
    ensures b.text == old(b.text) + ResetterCall(indent, target, assign, typ)
  {
    var p1 := indent + "if resetter, ok := interface{}(" + target + ").(interface{ Reset() }); ok {\n";
    var p2 := indent + "\tresetter.Reset()\n";
    var p3 := indent + "} else {\n";
    var p4 := indent + "\t" + assign + " = " + typ + "{}\n";
    var p5 := indent + "}\n";
    b.WriteString(p1);
    b.WriteString(p2);
    b.WriteString(p3);
    b.WriteString(p4);
    b.WriteString(p5);
    Append5(old(b.text), p1, p2, p3, p4, p5);
  }

  /** generateResetMethod: the header, the top-level loop over the fields and the closing
      brace. The text is the nested generator's output for the receiver `rs` at one tab,
      framed by the header. */
  method GenerateResetMethod(s: StructInfo) returns (text: string)
    ensures text == ResetMethodText(s)
  {
    var b := new Builder();
    GenerateMethodHeader(b, s.Name);
    assert b.text == MethodHeader(s.Name);
    GenerateTopFieldsReset(b, s.Fields);
    b.WriteString("}\n");
    text := b.text;
  }

  /** The four header writes of generateResetMethod. */
  method GenerateMethodHeader(b: Builder, name: string)
    modifies b
    ensures b.text == old(b.text) + MethodHeader(name)
  {
    var receiver := "func (rs *" + name + ") Reset() {\n";
    b.WriteString(receiver);
    b.WriteString("\tif rs == nil {\n");
    b.WriteString("\t\treturn\n");
    b.WriteString("\t}\n\n");
    Append4(old(b.text), receiver, "\tif rs == nil {\n", "\t\treturn\n", "\t}\n\n");
  }

  /** The loop of generateResetMethod over the fields of the struct, skipping unnamed ones:
      it writes what generateResetForFields writes for `rs` at one tab. */
  method GenerateTopFieldsReset(b: Builder, fields: seq<FieldInfo>)
    modifies b
    ensures b.text == old(b.text) + FieldsReset(fields, "rs", "\t")
  {
    for i := 0 to |fields|
      invariant b.text == old(b.text) + FieldsReset(fields[..i], "rs", "\t")
    {
      GenerateTopFieldReset(b, fields[i]);
      FieldsResetStep(fields, i, "rs", "\t");
      Append2(old(b.text), FieldsReset(fields[..i], "rs", "\t"), FieldReset(fields[i], "rs", "\t"));
    }
    assert fields[..|fields|] == fields;
  }

  /** One turn of generateResetMethod's own loop; an unnamed field is skipped. Its literal spelling
      writes what generateResetForFields writes for `rs` at one tab. */
  method GenerateTopFieldReset(b: Builder, field: FieldInfo)
    modifies b
    ensures b.text == old(b.text) + FieldReset(field, "rs", "\t")
  {
    if field.Name == "" {
      return;
    }
    WriteTopFieldReset(b, field);
    TopFieldIsNested(field);
  }

  /** The writes of one turn of generateResetMethod's own loop. */
  method WriteTopFieldReset(b: Builder, field: FieldInfo)
    requires field.Name != ""
    modifies b
    ensures b.text == old(b.text) + TopFieldReset(field)
  {
    var fieldName := "rs." + field.Name;
    if field.IsPtr {
      var open, close := "\tif " + fieldName + " != nil {\n", "\t}\n";
      b.WriteString(open);
      GenerateTopPointeeReset(b, field, fieldName);
      b.WriteString(close);
      Append3(old(b.text), open, TopPointeeReset(field, fieldName), close);
    } else if field.IsSlice {
      b.WriteString("\t" + fieldName + " = " + fieldName + "[:0]\n");
    } else if field.IsMap {
      b.WriteString("\tclear(" + fieldName + ")\n");
    } else if field.IsStruct {
      if field.IsAnonymousStruct {
        GenerateResetForFields(b, field.AnonymousFields, fieldName, "\t");
      } else {
        var p1 := "\t" + "if resetter, ok := interface{}(" + "&" + fieldName + ").(interface{ Reset() }); ok {\n";
        var p4 := "\t\t" + fieldName + " = " + field.Type + "{}\n";
        b.WriteString(p1);
        b.WriteString("\t\tresetter.Reset()\n");
        b.WriteString("\t} else {\n");
        b.WriteString(p4);
        b.WriteString("\t}\n");
        Append5(old(b.text), p1, "\t\tresetter.Reset()\n", "\t} else {\n", p4, "\t}\n");
      }
    } else {
      var zeroValue := GetZeroValue(field.Type);
      b.WriteString("\t" + fieldName + " = " + zeroValue + "\n");
    }
  }

  /** The writes of generateResetMethod's own loop inside a pointer field's nil check. */
  method GenerateTopPointeeReset(b: Builder, field: FieldInfo, fieldName: string)
    modifies b
    ensures b.text == old(b.text) + TopPointeeReset(field, fieldName)
  {
    if field.IsSlice {
      b.WriteString("\t\t*" + fieldName + " = (*" + fieldName + ")[:0]\n");
    } else if field.IsMap {
      b.WriteString("\t\tclear(*" + fieldName + ")\n");
    } else if field.IsStruct {
      if field.IsAnonymousStruct {
        GenerateResetForFields(b, field.AnonymousFields, "*" + fieldName, "\t\t");
      } else {
        var p1 := "\t\t" + "if resetter, ok := interface{}(" + fieldName + ").(interface{ Reset() }); ok {\n";
        var p4 := "\t\t\t*" + fieldName + " = " + TrimStar(field.Type) + "{}\n";
        b.WriteString(p1);
        b.WriteString("\t\t\tresetter.Reset()\n");
        b.WriteString("\t\t} else {\n");
        b.WriteString(p4);
        b.WriteString("\t\t}\n");
        Append5(old(b.text), p1, "\t\t\tresetter.Reset()\n", "\t\t} else {\n", p4, "\t\t}\n");
      }
    } else {
      var zeroValue := GetZeroValue(TrimStar(field.Type));
      b.WriteString("\t\t*" + fieldName + " = " + zeroValue + "\n");
    }
  }

  /** The opening of a generated file: the generated-code marker, the go:generate directive
      and the package clause of the first struct. */
  function FileHeader(packageName: string): (header: string)
    ensures |header| > 0
  {
    "// Code generated by reset tool. DO NOT EDIT.\n"
    + "//go:generate go run github.com/Alexey-zaliznuak/shortener/cmd/reset\n\n"
    + "package " + packageName + "\n\n"
  }

  /** Texts, each followed by an empty line, in order. */
  function Blocks(texts: seq<string>): string
  {
    if texts == [] then "" else Blocks(texts[..|texts| - 1]) + texts[|texts| - 1] + "\n"
  }

  /** Blocks of two lists are laid out independently: the text of the concatenation is the
      concatenation of the texts. */
  lemma {:induction false} BlocksAppend(xs: seq<string>, ys: seq<string>)
    ensures Blocks(xs + ys) == Blocks(xs) + Blocks(ys)
    decreases |ys|
  {
    if ys == [] {
      assert xs + ys == xs;
    } else {
      var zs := ys[..|ys| - 1];
      assert (xs + ys)[..|xs + ys| - 1] == xs + zs;
      BlocksAppend(xs, zs);
    }
  }

  /** One more text adds its block. */
  lemma BlocksStep(texts: seq<string>, i: nat)
    requires i < |texts|
    ensures Blocks(texts[..i + 1]) == Blocks(texts[..i]) + texts[i] + "\n"
  {
    assert texts[..i + 1][..i] == texts[..i];
  }

  /** Blocks laid out around the i-th: those before it, the i-th with its empty line, and
      those after it. */
  lemma BlocksAround(texts: seq<string>, i: nat)
    requires i < |texts|
    ensures Blocks(texts) == Blocks(texts[..i]) + texts[i] + "\n" + Blocks(texts[i + 1..])
  {
    var upTo := texts[..i + 1];
    assert texts == upTo + texts[i + 1..];
    BlocksAppend(upTo, texts[i + 1..]);
    assert upTo[..i] == texts[..i];
  }

  /** The Reset methods of a list of structs, in order. */
  function MethodTexts(structs: seq<StructInfo>): (texts: seq<string>)
  {
    seq(|structs|, i requires 0 <= i < |structs| => ResetMethodText(structs[i]))
  }

  /** generateResetMethods' text: nothing for no structs; otherwise the header for the first
      struct's package followed by every method, each with an empty line after it. */
  function ResetFileText(structs: seq<StructInfo>): string
  {
    if structs == [] then "" else FileHeader(structs[0].Package) + Blocks(MethodTexts(structs))
  }

  /** A file generated for a non-empty list starts with the header of the first struct's
      package, and the method of every struct follows in order: each struct's method text
      comes right after the methods of the structs before it, and before those after it. */
  lemma ResetFileLayout(structs: seq<StructInfo>, i: nat)
    requires i < |structs|
    ensures ResetFileText(structs)
      == FileHeader(structs[0].Package) + Blocks(MethodTexts(structs)[..i]) + ResetMethodText(structs[i])
         + "\n" + Blocks(MethodTexts(structs)[i + 1..])
  {
    var texts := MethodTexts(structs);
    BlocksAround(texts, i);
    Append4(FileHeader(structs[0].Package), Blocks(texts[..i]), texts[i], "\n", Blocks(texts[i + 1..]));
  }

  /** generateResetMethods, given the structs of one package. */
  method GenerateResetMethods(structs: seq<StructInfo>) returns (text: string)
    ensures text == ResetFileText(structs)
    ensures structs == [] <==> text == ""
  {
    if |structs| == 0 {
      return "";
    }
    var b := new Builder();
    var packageName := structs[0].Package;
    ghost var header := FileHeader(packageName);
    GenerateFileHeader(b, packageName);
    assert b.text == header;
    GenerateMethods(b, structs);
    text := b.text;
    assert text == header + Blocks(MethodTexts(structs));
  }

  /** The three header writes of generateResetMethods. */
  method GenerateFileHeader(b: Builder, packageName: string)
    modifies b
    ensures b.text == old(b.text) + FileHeader(packageName)
  {
    var marker := "// Code generated by reset tool. DO NOT EDIT.\n";
    var directive := "//go:generate go run github.com/Alexey-zaliznuak/shortener/cmd/reset\n\n";
    var clause := "package " + packageName + "\n\n";
    b.WriteString(marker);
    b.WriteString(directive);
    b.WriteString(clause);
    Append3(old(b.text), marker, directive, clause);
  }

  /** The loop of generateResetMethods: each struct's method followed by an empty line. */
  method GenerateMethods(b: Builder, structs: seq<StructInfo>)
    modifies b
    ensures b.text == old(b.text) + Blocks(MethodTexts(structs))
  {
    ghost var all := MethodTexts(structs);
    for i := 0 to |structs|
      invariant b.text == old(b.text) + Blocks(all[..i])
    {
      var methodText := GenerateResetMethod(structs[i]);
      b.WriteString(methodText);
      b.WriteString("\n");
      BlocksStep(all, i);
      Append3(old(b.text), Blocks(all[..i]), methodText, "\n");
    }
    assert all[..|structs|] == all;
  }
}
