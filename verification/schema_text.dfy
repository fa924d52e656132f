/**
 * `formatSchema`: the TypeScript-like text of a JSON-Schema node used by
 * the man page. An object lists one line per property, nested objects and
 * arrays of objects one indentation level (two spaces) deeper.
 */
module SchemaText {
  import opened Wrappers
  import opened Strings
  import opened OpenApi

  /** `s.type === "object" && s.properties` (an empty properties object is truthy). */
  predicate IsObjectWithProperties(s: Schema)
  {
    s.typ == Some("object") && s.properties.Present?
  }

  /** `s.type === "array" && s.items`. */
  predicate IsArrayWithItems(s: Schema)
  {
    s.typ == Some("array") && s.items.Some?
  }

  /** ` (one of: a, b)` when an `enum` list is present (an empty list is truthy). */
  function EnumSuffix(e: Option<seq<string>>): string
  {
    if e.Some? then " (one of: " + Join(e.value, ", ") + ")" else ""
  }

  /** ` (fmt)` when `format` is truthy. */
  function FormatSuffix(f: Option<string>): string
  {
    if Truthy(f) then " (" + f.value + ")" else ""
  }

  /** ` = v` when `default` is not undefined. */
  function DefaultSuffix(d: Option<string>): string
  {
    if d.Some? then " = " + d.value else ""
  }

  /** ` (Required)` when the owning object lists the property as required. */
  function RequiredTag(owner: Schema, name: string): string
  {
    if name in owner.required then " (Required)" else ""
  }

  /** The comment put before a property's type when its description is truthy. */
  function DescriptionLine(d: Option<string>, indent: nat): string
  {
    if Truthy(d) then "// " + d.value + "\n" + Indent(indent) + "  " else ""
  }

  /** `formatSchema(s, indent)`. */
  function FormatSchema(s: Schema, indent: nat): string
    decreases s, 2
  {
    if IsObjectWithProperties(s) then
      "{\n" + FormatProperties(s, 0, indent) + Indent(indent) + "}"
    else if IsArrayWithItems(s) then
      "array<" + Str(s.items.value.typ) + ">"
      + (if IsObjectWithProperties(s.items.value) then " of " + FormatSchema(s.items.value, indent) else "")
    else
      Str(s.typ) + EnumSuffix(s.enumValues) + FormatSuffix(s.format)
  }

  /** The lines of the properties of `owner` from the `i`-th on. */
  function FormatProperties(owner: Schema, i: nat, indent: nat): string
    requires owner.properties.Present? && i <= |owner.properties.list|
    decreases owner, 1, |owner.properties.list| - i
  {
    if i == |owner.properties.list| then ""
    else PropertyLine(owner, i, indent) + FormatProperties(owner, i + 1, indent)
  }

  /** The line of the `i`-th property of `owner`, ending with ",\n". */
  function PropertyLine(owner: Schema, i: nat, indent: nat): string
    requires owner.properties.Present? && i < |owner.properties.list|
    decreases owner, 0
  {
    var p := owner.properties.list[i];
    Indent(indent) + "  " + p.name + RequiredTag(owner, p.name) + ": "
    + DescriptionLine(p.schema.description, indent) + PropertyBody(p.schema, indent)
    + ",\n"
  }

  /** The type text of a property schema `p` inside an object at depth `indent`. */
  function PropertyBody(p: Schema, indent: nat): string
    decreases p, 3
  {
    if IsObjectWithProperties(p) then
      FormatSchema(p, indent + 1)
    else if IsArrayWithItems(p) then
      Str(p.typ) + "<" + Str(p.items.value.typ) + ">"
      + (if IsObjectWithProperties(p.items.value) then " of " + FormatSchema(p.items.value, indent + 1) else "")
    else
      Str(p.typ) + EnumSuffix(p.enumValues) + FormatSuffix(p.format) + DefaultSuffix(p.defaultValue)
  }

  /**
   * The rendering loop of `formatSchema`: builds the text piece by piece,
   * recursing into nested objects and arrays of objects.
   */
  method RenderSchema(s: Schema, indent: nat) returns (output: string)
    ensures output == FormatSchema(s, indent)
    decreases s, 3
  {
    output := "";
    if IsObjectWithProperties(s) {
      output := RenderObject(s, indent);
    } else if IsArrayWithItems(s) {
      output := output + "array<" + Str(s.items.value.typ) + ">";
      if IsObjectWithProperties(s.items.value) {
        var nested := RenderSchema(s.items.value, indent);
        output := output + " of " + nested;
      }
    } else {
      output := output + Str(s.typ);
      if s.enumValues.Some? {
        output := output + EnumSuffix(s.enumValues);
      }
      if Truthy(s.format) {
        output := output + FormatSuffix(s.format);
      }
    }
  }

  /** The object branch of `formatSchema`: the loop over the properties between braces. */
  method RenderObject(s: Schema, indent: nat) returns (output: string)
    requires IsObjectWithProperties(s)
    ensures output == "{\n" + FormatProperties(s, 0, indent) + Indent(indent) + "}"
    decreases s, 2
  {
    var indentStr := Indent(indent);
    output := "{\n";
    var props := s.properties.list;
    var i := 0;
    while i < |props|
      invariant 0 <= i <= |props|
      invariant output + FormatProperties(s, i, indent) == "{\n" + FormatProperties(s, 0, indent)
    {
      var line := RenderPropertyLine(s, i, indent);
      assert FormatProperties(s, i, indent) == line + FormatProperties(s, i + 1, indent);
      output := output + line;
      i := i + 1;
    }
    output := output + indentStr + "}";
  }

  /** The line of the `i`-th property, as the loop body of `formatSchema` builds it. */
  method RenderPropertyLine(s: Schema, i: nat, indent: nat) returns (line: string)
    requires s.properties.Present? && i < |s.properties.list|
    ensures line == PropertyLine(s, i, indent)
    decreases s, 1
  {
    var indentStr := Indent(indent);
    var name, prop := s.properties.list[i].name, s.properties.list[i].schema;
    line := indentStr + "  " + name + RequiredTag(s, name) + ": ";
    if Truthy(prop.description) {
      line := line + "// " + prop.description.value + "\n" + indentStr + "  ";
    }
    var body := RenderPropertyBody(prop, indent);
    line := line + body + ",\n";
  }

  /** The type text of one property, as the loop body of `formatSchema` builds it. */
  method RenderPropertyBody(prop: Schema, indent: nat) returns (body: string)
    ensures body == PropertyBody(prop, indent)
    decreases prop, 4
  {
    if IsObjectWithProperties(prop) {
      body := RenderSchema(prop, indent + 1);
    } else if IsArrayWithItems(prop) {
      body := Str(prop.typ) + "<" + Str(prop.items.value.typ) + ">";
      if IsObjectWithProperties(prop.items.value) {
        var nested := RenderSchema(prop.items.value, indent + 1);
        body := body + " of " + nested;
      }
    } else {
      body := Str(prop.typ);
      if prop.enumValues.Some? {
        body := body + EnumSuffix(prop.enumValues);
      }
      if Truthy(prop.format) {
        body := body + FormatSuffix(prop.format);
      }
      if prop.defaultValue.Some? {
        body := body + DefaultSuffix(prop.defaultValue);
      }
    }
  }

  // ---------------------------------------------------------------------
  // Properties of the rendering

  /**
   * A property is rendered as its own schema would be one level deeper,
   * except that a scalar keeps the depth of its object (it has no lines of
   * its own) and shows its default value.
   */
  lemma PropertyAsSchema(p: Schema, indent: nat)
    ensures !IsObjectWithProperties(p) && !IsArrayWithItems(p) ==>
      PropertyBody(p, indent) == FormatSchema(p, indent) + DefaultSuffix(p.defaultValue)
    ensures IsObjectWithProperties(p) || IsArrayWithItems(p) ==>
      PropertyBody(p, indent) == FormatSchema(p, indent + 1)
  {
    if IsArrayWithItems(p) {
      assert Str(p.typ) + "<" == "array<";
    }
  }

  /** The head of a property line: indentation, name and marker. */
  function LineHead(indent: nat, name: string, required: bool): string
  {
    Indent(indent) + "  " + name + (if required then " (Required)" else "") + ": "
  }

  /**
   * A property line carries the " (Required)" marker exactly when the
   * owning object lists the property in `required`.
   */
  lemma RequiredMarked(owner: Schema, i: nat, indent: nat)
    requires owner.properties.Present? && i < |owner.properties.list|
    ensures var name := owner.properties.list[i].name;
      LineHead(indent, name, true) <= PropertyLine(owner, i, indent) <==> name in owner.required
  {
    var name := owner.properties.list[i].name;
    var line := PropertyLine(owner, i, indent);
    var base := Indent(indent) + "  " + name;
    var head := LineHead(indent, name, true);
    assert head == base + " (Required): ";
    if name !in owner.required {
      assert line == base + ": " + DescriptionLine(owner.properties.list[i].schema.description, indent)
        + PropertyBody(owner.properties.list[i].schema, indent) + ",\n";
      assert line[|base|] == ':';
      assert head[|base|] == ' ';
    }
  }

  /** No text the rendering copies from `s` holds a line break. */
  predicate NoBreaks(s: Schema)
    decreases s, 1
  {
    '\n' !in Str(s.typ)
    && (s.enumValues.Some? ==> forall k :: 0 <= k < |s.enumValues.value| ==> '\n' !in s.enumValues.value[k])
    && (s.format.Some? ==> '\n' !in s.format.value)
    && (s.defaultValue.Some? ==> '\n' !in s.defaultValue.value)
    && (s.description.Some? ==> '\n' !in s.description.value)
    && (s.items.Some? ==> NoBreaks(s.items.value))
    && (s.properties.Present? ==> PropertiesNoBreaks(s, 0))
  }

  predicate PropertiesNoBreaks(owner: Schema, i: nat)
    requires owner.properties.Present? && i <= |owner.properties.list|
    decreases owner, 0, |owner.properties.list| - i
  {
    i == |owner.properties.list|
    || ('\n' !in owner.properties.list[i].name
        && NoBreaks(owner.properties.list[i].schema)
        && PropertiesNoBreaks(owner, i + 1))
  }

  lemma {:induction false} JoinNoBreaks(xs: seq<string>, sep: string)
    requires '\n' !in sep
    requires forall k :: 0 <= k < |xs| ==> '\n' !in xs[k]
    ensures '\n' !in Join(xs, sep)
    decreases |xs|
  {
    if |xs| > 1 {
      JoinNoBreaks(xs[1..], sep);
    }
  }

  /** The scalar text of a schema holds no line break. */
  lemma ScalarSingleLine(p: Schema)
    requires NoBreaks(p)
    ensures '\n' !in Str(p.typ) + EnumSuffix(p.enumValues) + FormatSuffix(p.format)
    ensures '\n' !in Str(p.typ) + EnumSuffix(p.enumValues) + FormatSuffix(p.format) + DefaultSuffix(p.defaultValue)
  {
    if p.enumValues.Some? {
      JoinNoBreaks(p.enumValues.value, ", ");
    }
  }

  lemma IndentShift(n: nat)
    ensures "  " + Indent(n) == Indent(n + 1)
    ensures AddIndent(Indent(n)) == Indent(n)
  {
    assert "  " + Indent(n) == Indent(n + 1);
    AddIndentSingleLine(Indent(n));
  }

  /**
   * Indenting every line after the first of a schema's text by two spaces
   * gives the text of the same schema one level deeper, provided no copied
   * text holds a line break of its own. This is how the man page's
   * response block lines up with its nested objects.
   */
  lemma {:induction false} ShiftSchema(s: Schema, indent: nat)
    requires NoBreaks(s)
    ensures AddIndent(FormatSchema(s, indent)) == FormatSchema(s, indent + 1)
    decreases s, 2
  {
    if IsObjectWithProperties(s) {
      ShiftProperties(s, 0, indent);
      ShiftFrame(FormatProperties(s, 0, indent), FormatProperties(s, 0, indent + 1), indent);
    } else if IsArrayWithItems(s) {
      var items := s.items.value;
      if IsObjectWithProperties(items) {
        ShiftSchema(items, indent);
        var head := "array<" + Str(items.typ) + ">";
        ShiftArray(head, FormatSchema(items, indent), FormatSchema(items, indent + 1));
        assert FormatSchema(s, indent) == head + (" of " + FormatSchema(items, indent));
        assert FormatSchema(s, indent + 1) == head + (" of " + FormatSchema(items, indent + 1));
      } else {
        AddIndentSingleLine("array<" + Str(items.typ) + ">");
        assert FormatSchema(s, indent) == "array<" + Str(items.typ) + ">" == FormatSchema(s, indent + 1);
      }
    } else {
      ScalarSingleLine(s);
      AddIndentSingleLine(FormatSchema(s, indent));
    }
  }

  /** An object's braces around property lines that shift as a block. */
  lemma ShiftFrame(p: string, p': string, indent: nat)
    requires "  " + AddIndent(p) == p' + "  "
    ensures AddIndent("{\n" + p + Indent(indent) + "}") == "{\n" + p' + Indent(indent + 1) + "}"
  {
    var i := Indent(indent);
    IndentShift(indent);
    AddIndentConcat("{\n" + p + i, "}");
    AddIndentConcat("{\n" + p, i);
    AddIndentConcat("{\n", p);
    assert AddIndent("{\n") == "{\n" + "  ";
    AddIndentSingleLine("}");
    Rebrace("{\n", "  ", AddIndent(p), p', i, "}");
  }

  /** Spaces after an opening piece that a block moves in front of the closing indentation. */
  lemma Rebrace<T>(o: seq<T>, s: seq<T>, q: seq<T>, p': seq<T>, i: seq<T>, c: seq<T>)
    requires s + q == p' + s
    ensures (o + s) + q + i + c == o + p' + (s + i) + c
  {
    calc {
      (o + s) + q + i + c;
      o + (s + q) + i + c;
      o + (p' + s) + i + c;
      o + p' + (s + i) + c;
    }
  }

  /** An array head on one line followed by " of " and a text that shifts. */
  lemma ShiftArray(head: string, x: string, x': string)
    requires '\n' !in head
    requires AddIndent(x) == x'
    ensures AddIndent(head + (" of " + x)) == head + (" of " + x')
  {
    assert AddIndent(" of " + x) == " of " + x' by {
      AddIndentConcat(" of ", x);
      AddIndentSingleLine(" of ");
    }
    AddIndentConcat(head, " of " + x);
    AddIndentSingleLine(head);
  }

  /** The property lines shift as a block: the two spaces leading the first line move to the end. */
  lemma {:induction false} ShiftProperties(owner: Schema, i: nat, indent: nat)
    requires owner.properties.Present? && i <= |owner.properties.list|
    requires PropertiesNoBreaks(owner, i)
    ensures "  " + AddIndent(FormatProperties(owner, i, indent)) == FormatProperties(owner, i, indent + 1) + "  "
    decreases owner, 1, |owner.properties.list| - i
  {
    if i < |owner.properties.list| {
      var l, r := PropertyLine(owner, i, indent), FormatProperties(owner, i + 1, indent);
      var l', r' := PropertyLine(owner, i, indent + 1), FormatProperties(owner, i + 1, indent + 1);
      ShiftLine(owner, i, indent);
      ShiftProperties(owner, i + 1, indent);
      AddIndentConcat(l, r);
      MoveSpaces("  ", AddIndent(l), AddIndent(r), l', r');
    }
  }

  /** Two blocks that each move a leading `s` to their end move it together. */
  lemma MoveSpaces<T>(s: seq<T>, a: seq<T>, b: seq<T>, a': seq<T>, b': seq<T>)
    requires s + a == a' + s && s + b == b' + s
    ensures s + (a + b) == (a' + b') + s
  {
    calc {
      s + (a + b);
      (s + a) + b;
      (a' + s) + b;
      a' + (s + b);
      a' + (b' + s);
    }
  }

  lemma {:induction false} ShiftLine(owner: Schema, i: nat, indent: nat)
    requires owner.properties.Present? && i < |owner.properties.list|
    requires PropertiesNoBreaks(owner, i)
    ensures "  " + AddIndent(PropertyLine(owner, i, indent)) == PropertyLine(owner, i, indent + 1) + "  "
    decreases owner, 0
  {
    var p := owner.properties.list[i];
    ShiftDescription(p.schema.description, indent);
    ShiftBody(p.schema, indent);
    ShiftLineFrame(indent, p.name, RequiredTag(owner, p.name),
      DescriptionLine(p.schema.description, indent), DescriptionLine(p.schema.description, indent + 1),
      PropertyBody(p.schema, indent), PropertyBody(p.schema, indent + 1));
  }

  /** A property line whose comment and type shift. */
  lemma ShiftLineFrame(indent: nat, name: string, tag: string, d: string, d': string, b: string, b': string)
    requires '\n' !in name && '\n' !in tag
    requires AddIndent(d) == d' && AddIndent(b) == b'
    ensures "  " + AddIndent(Indent(indent) + "  " + name + tag + ": " + d + b + ",\n")
            == Indent(indent + 1) + "  " + name + tag + ": " + d' + b' + ",\n" + "  "
  {
    var h := Indent(indent) + "  " + name + tag + ": ";
    var h' := Indent(indent + 1) + "  " + name + tag + ": ";
    ShiftLineHead(indent, name, tag);
    AddIndentLine(h, d, b);
    Regroup("  ", h, d', b', ",\n", "  ");
  }

  /** The head of a property line has no line break and gains two leading spaces one level deeper. */
  lemma ShiftLineHead(indent: nat, name: string, tag: string)
    requires '\n' !in name && '\n' !in tag
    ensures AddIndent(Indent(indent) + "  " + name + tag + ": ") == Indent(indent) + "  " + name + tag + ": "
    ensures "  " + (Indent(indent) + "  " + name + tag + ": ") == Indent(indent + 1) + "  " + name + tag + ": "
  {
    var i := Indent(indent);
    IndentShift(indent);
    AddIndentSingleLine(i + "  " + name + tag + ": ");
    calc {
      "  " + (i + "  " + name + tag + ": ");
      ("  " + i) + "  " + name + tag + ": ";
    }
  }

  /** `AddIndent` over a line made of a head, two pieces and ",\n". */
  lemma AddIndentLine(h: string, d: string, b: string)
    ensures AddIndent(h + d + b + ",\n") == AddIndent(h) + AddIndent(d) + AddIndent(b) + (",\n" + "  ")
  {
    AddIndentConcat(h + d + b, ",\n");
    AddIndentConcat(h + d, b);
    AddIndentConcat(h, d);
    assert AddIndent(",\n") == ",\n" + "  ";
  }

  lemma Regroup<T>(s: seq<T>, h: seq<T>, d: seq<T>, b: seq<T>, t: seq<T>, u: seq<T>)
    ensures s + (h + d + b + (t + u)) == (s + h) + d + b + t + u
  {
  }

  lemma ShiftDescription(d: Option<string>, indent: nat)
    requires d.Some? ==> '\n' !in d.value
    ensures AddIndent(DescriptionLine(d, indent)) == DescriptionLine(d, indent + 1)
  {
    if Truthy(d) {
      ShiftComment("// " + d.value, indent);
    }
  }

  /** A comment line followed by the indentation of the type it describes. */
  lemma ShiftComment(c: string, indent: nat)
    requires '\n' !in c
    ensures AddIndent(c + "\n" + Indent(indent) + "  ") == c + "\n" + Indent(indent + 1) + "  "
  {
    var ind := Indent(indent);
    IndentShift(indent);
    AddIndentSingleLine(c);
    AddIndentSingleLine("  ");
    assert AddIndent("\n") == "\n" + "  ";
    AddIndentConcat(c + "\n" + ind, "  ");
    AddIndentConcat(c + "\n", ind);
    AddIndentConcat(c, "\n");
    Reindent(c, "\n", "  ", ind, "  ");
  }

  lemma Reindent<T>(c: seq<T>, n: seq<T>, s: seq<T>, i: seq<T>, t: seq<T>)
    ensures (c + (n + s)) + i + t == c + n + (s + i) + t
  {
  }

  lemma {:induction false} ShiftBody(p: Schema, indent: nat)
    requires NoBreaks(p)
    ensures AddIndent(PropertyBody(p, indent)) == PropertyBody(p, indent + 1)
    decreases p, 3
  {
    if IsObjectWithProperties(p) {
      ShiftSchema(p, indent + 1);
    } else if IsArrayWithItems(p) {
      var items := p.items.value;
      var head := Str(p.typ) + "<" + Str(items.typ) + ">";
      if IsObjectWithProperties(items) {
        ShiftSchema(items, indent + 1);
        ShiftArray(head, FormatSchema(items, indent + 1), FormatSchema(items, indent + 2));
        assert PropertyBody(p, indent) == head + (" of " + FormatSchema(items, indent + 1));
        assert PropertyBody(p, indent + 1) == head + (" of " + FormatSchema(items, indent + 2));
      } else {
        AddIndentSingleLine(head);
        assert PropertyBody(p, indent) == head == PropertyBody(p, indent + 1);
      }
    } else {
      ScalarSingleLine(p);
      AddIndentSingleLine(PropertyBody(p, indent));
    }
  }
}
