/**
 * The service's tool adapter: each tool the MCP server lists is turned into
 * an activity the agent can call, with an ordered parameter list derived
 * from the tool's JSON input schema, a docstring, and a rule that binds the
 * call's arguments to parameter names.
 */
module Config {
  import opened Common
  import opened PyStr

  /**
   * The annotations the adapter builds. `Unmapped` is the `None` that
   * `type_mapping.get` returns for a missing or unknown type; `Opt(t)` is
   * `Optional[t]`, so `Opt(Unmapped)` is `Optional[None]`, which Python
   * collapses to the class `NoneType`.
   */
  datatype PyType = Str | Int | Float | Bool | List | Dict | Unmapped | Opt(inner: PyType)

  /** `type_mapping`: JSON-schema type names and their Python types. */
  const TypeTable: map<string, PyType> :=
    map["string" := Str, "integer" := Int, "number" := Float, "boolean" := Bool, "array" := List, "object" := Dict]

  /** `type_mapping.get(prop.get("type"), None)`. */
  function TypeMapping(schemaType: Option<string>): (t: PyType)
    ensures t == Unmapped <==> schemaType.None? || schemaType.value !in TypeTable
    ensures !t.Opt?
  {
    if schemaType.Some? && schemaType.value in TypeTable then TypeTable[schemaType.value] else Unmapped
  }

  /**
   * Whether pydantic accepts the annotation for the field `type: Type` of
   * `Property`: only a class passes. A `typing.Optional[...]` alias of a
   * class and the value `None` are not classes; `Optional[None]` is the
   * class `NoneType`.
   */
  predicate IsClass(t: PyType)
  {
    match t
    case Unmapped => false
    case Opt(inner) => inner == Unmapped
    case _ => true
  }

  /**
   * `str(t)` as Python 3.10 to 3.13 print it: a class in angle brackets,
   * an `Optional` alias and `None` without them.
   */
  function TypeRepr(t: PyType): (r: string)
    ensures |r| > 0 && (r[0] == '<' <==> IsClass(t))
  {
    match t
    case Opt(Unmapped) => "<class 'NoneType'>"
    case Opt(inner) => "typing.Optional[" + TypeName(inner) + "]"
    case Unmapped => "None"
    case _ => "<class '" + TypeName(t) + "'>"
  }

  function TypeName(t: PyType): string
  {
    match t
    case Str => "str"
    case Int => "int"
    case Float => "float"
    case Bool => "bool"
    case List => "list"
    case Dict => "dict"
    case Unmapped => "NoneType"
    case Opt(inner) => "Optional"
  }

  /** `Property`: one parameter (or the result) of an activity. */
  datatype Property = Property(name: string, description: string, title: string, pyType: PyType)

  /** `Property.docstring`: the name, the printed type in parentheses, a colon, then the description. */
  function Docstring(p: Property): (line: string)
    ensures |line| == |p.name| + |TypeRepr(p.pyType)| + |p.description| + 5
    ensures line[..|p.name|] == p.name && line[|p.name|..|p.name| + 2] == " ("
    ensures line[|p.name| + 2..|p.name| + 2 + |TypeRepr(p.pyType)|] == TypeRepr(p.pyType)
    ensures line[|p.name| + 2 + |TypeRepr(p.pyType)|..|line| - |p.description|] == "): "
    ensures line[|line| - |p.description|..] == p.description
  {
    var repr := TypeRepr(p.pyType);
    var line := p.name + " (" + repr + "): " + p.description;
    assert line == p.name + (" (" + (repr + ("): " + p.description)));
    line
  }

  /** One entry of the input schema's `properties`: its `type`, `description` and `title`, each possibly missing. */
  datatype PropertySchema = PropertySchema(schemaType: Option<string>, description: Option<string>, title: Option<string>)

  /** The tool's `inputSchema`: its `properties` in schema order and its `required` list, each possibly missing. */
  datatype InputSchema = InputSchema(properties: Option<seq<(string, PropertySchema)>>, required: Option<seq<string>>)

  /** An MCP tool as `list_tools` returns it. */
  datatype McpTool = McpTool(name: string, description: Option<string>, inputSchema: InputSchema)

  /** The callable built for a tool: its name, signature, return annotation and docstring. */
  datatype Activity = Activity(name: string, parameters: seq<Property>, returnType: PyType, doc: string)

  /**
   * Why a tool cannot be adapted: a `Property` whose annotation is not a
   * class fails pydantic's validation (named after that property); the
   * tool has no input property, so the result type reads loop variables
   * that were never bound; or `inspect.Parameter` raises `ValueError` for
   * a property name that is not an identifier or is a keyword.
   */
  datatype ActivityError = ValidationError(property: string) | UnboundLocalError | InvalidParameterName(name: string)

  /** The names `inspect.Parameter` accepts: identifiers that are not keywords. */
  predicate ValidParameterName(name: string): (ok: bool)
    ensures ok ==> name != "" && !('0' <= name[0] <= '9')
    ensures ok ==> forall i :: 0 <= i < |name| ==> name[i] != '-' && name[i] != ' ' && name[i] != '.'
    ensures name in Keywords ==> !ok
  {
    IsIdentifier(name) && name !in Keywords
  }

  function Properties(schema: InputSchema): seq<(string, PropertySchema)>
  {
    if schema.properties.Some? then schema.properties.value else []
  }

  function Required(schema: InputSchema): seq<string>
  {
    if schema.required.Some? then schema.required.value else []
  }

  function OrEmpty(s: Option<string>): string
  {
    if s.Some? then s.value else ""
  }

  /** The annotation of a property: the mapped type when the property is required, `Optional` of it otherwise. */
  function PropertyType(schema: InputSchema, name: string, prop: PropertySchema): (t: PyType)
    ensures t.Opt? <==> name !in Required(schema)
    ensures IsClass(t) <==> (name in Required(schema) <==> TypeMapping(prop.schemaType) != Unmapped)
  {
    var t := TypeMapping(prop.schemaType);
    if name in Required(schema) then t else Opt(t)
  }

  /** The `Property` the loop appends for one schema entry. */
  function InputProperty(schema: InputSchema, name: string, prop: PropertySchema): (p: Property)
    ensures p.name == name && p.pyType == PropertyType(schema, name, prop)
    ensures prop.description.Some? ==> p.description == prop.description.value
    ensures prop.description.None? ==> p.description == ""
    ensures prop.title.Some? ==> p.title == prop.title.value
    ensures prop.title.None? ==> p.title == ""
  {
    Property(name, OrEmpty(prop.description), OrEmpty(prop.title), PropertyType(schema, name, prop))
  }

  function InputProperties(schema: InputSchema): (ps: seq<Property>)
    ensures |ps| == |Properties(schema)|
  {
    var entries := Properties(schema);
    seq(|entries|, i requires 0 <= i < |entries| => InputProperty(schema, entries[i].0, entries[i].1))
  }

  const Indent: string := Blanks(12)
  const ClosingIndent: string := Blanks(8)

  /** The tool description as the f-string prints it: a missing one prints as `None`. */
  function DescriptionText(description: Option<string>): string
  {
    if description.Some? then description.value else "None"
  }

  function Docstrings(ps: seq<Property>): (lines: seq<string>)
    ensures |lines| == |ps| && forall i :: 0 <= i < |ps| ==> lines[i] == Docstring(ps[i])
  {
    seq(|ps|, i requires 0 <= i < |ps| => Docstring(ps[i]))
  }

  /**
   * The docstring set on the callable: the tool description, the Args
   * section holding the parameters' doc lines joined with newlines, and the
   * Returns section holding the result's doc line.
   */
  function ActivityDoc(description: Option<string>, inputs: seq<Property>, result: Property): (doc: string)
    ensures var opening := "\n" + Indent + DescriptionText(description);
      |opening| <= |doc| && doc[..|opening|] == opening
    ensures var head := "\n" + Indent + DescriptionText(description) + ("\n\n" + Indent + "Args:\n" + Indent);
      var args := Join("\n", Docstrings(inputs));
      var tail := "\n\n" + Indent + "Returns:\n" + Indent + (Docstring(result) + "\n" + ClosingIndent);
      && |doc| == |head| + |args| + |tail|
      && doc[..|head|] == head
      && doc[|head|..|head| + |args|] == args
    ensures var tail := "\n\n" + Indent + "Returns:\n" + Indent + (Docstring(result) + "\n" + ClosingIndent);
      var args := Join("\n", Docstrings(inputs));
      && |tail| + |args| <= |doc|
      && doc[|doc| - |tail|..] == tail
      && doc[|doc| - |tail| - |args|..|doc| - |tail|] == args
    ensures var closing := Docstring(result) + "\n" + ClosingIndent;
      |closing| <= |doc| && doc[|doc| - |closing|..] == closing
  {
    var opening := "\n" + Indent + DescriptionText(description);
    var argsHeader := "\n\n" + Indent + "Args:\n" + Indent;
    var args := Join("\n", Docstrings(inputs));
    var returnsHeader := "\n\n" + Indent + "Returns:\n" + Indent;
    var closing := Docstring(result) + "\n" + ClosingIndent;
    FiveParts(opening, argsHeader, args, returnsHeader, closing);
    opening + argsHeader + args + (returnsHeader + closing)
  }

  /** The result property, typed after the last input property of the loop. */
  function ResultProperty(schema: InputSchema, name: string, prop: PropertySchema): (r: Property)
    ensures r.name == "result" && r.description == "The result of the tool execution" && r.title == "Result"
    ensures r.pyType == InputProperty(schema, name, prop).pyType
  {
    Property("result", "The result of the tool execution", "Result", PropertyType(schema, name, prop))
  }

  /** The index of the first property whose annotation is not a class, or the number of properties when there is none. */
  function FirstRejected(ps: seq<Property>): (k: nat)
    ensures k <= |ps|
    ensures forall j :: 0 <= j < k ==> IsClass(ps[j].pyType)
    ensures k < |ps| ==> !IsClass(ps[k].pyType)
  {
    if ps == [] || !IsClass(ps[0].pyType) then 0 else 1 + FirstRejected(ps[1..])
  }

  /** The index of the first property whose name `inspect.Parameter` refuses, or the number of properties when there is none. */
  function FirstInvalidName(ps: seq<Property>): (k: nat)
    ensures k <= |ps|
    ensures forall j :: 0 <= j < k ==> ValidParameterName(ps[j].name)
    ensures k < |ps| ==> !ValidParameterName(ps[k].name)
  {
    if ps == [] || !ValidParameterName(ps[0].name) then 0 else 1 + FirstInvalidName(ps[1..])
  }

  /** What `_mcp_tool_to_activity` builds for a tool, or the exception it raises. */
  function ToolToActivity(tool: McpTool): (r: Result<Activity, ActivityError>)
    ensures r.Ok? ==> r.value.name == tool.name && |r.value.parameters| == |Properties(tool.inputSchema)|
    ensures r.Ok? ==> forall i :: 0 <= i < |r.value.parameters| ==> IsClass(r.value.parameters[i].pyType)
    ensures r.Ok? ==> r.value.doc == ActivityDoc(tool.description, r.value.parameters,
      Property("result", "The result of the tool execution", "Result", r.value.returnType))
  {
    var entries := Properties(tool.inputSchema);
    var inputs := InputProperties(tool.inputSchema);
    var k := FirstRejected(inputs);
    if k < |inputs| then Err(ValidationError(inputs[k].name))
    else if entries == [] then Err(UnboundLocalError)
    else if FirstInvalidName(inputs) < |inputs| then Err(InvalidParameterName(inputs[FirstInvalidName(inputs)].name))
    else
      var last := entries[|entries| - 1];
      var result := ResultProperty(tool.inputSchema, last.0, last.1);
      Ok(Activity(tool.name, inputs, result.pyType, ActivityDoc(tool.description, inputs, result)))
  }

  /**
   * The loop at the head of `_mcp_tool_to_activity`: builds the input
   * properties in schema order, each validated as it is built, and stops at
   * the first one whose annotation pydantic refuses.
   */
  method CollectInputProperties(tool: McpTool) returns (r: Result<seq<Property>, ActivityError>)
    ensures var expected := InputProperties(tool.inputSchema);
            var k := FirstRejected(expected);
            r == if k < |expected| then Err(ValidationError(expected[k].name)) else Ok(expected)
  {
    var entries := Properties(tool.inputSchema);
    ghost var expected := InputProperties(tool.inputSchema);
    var inputProperties: seq<Property> := [];
    var i := 0;
    while i < |entries|
      invariant 0 <= i <= |entries|
      invariant inputProperties == expected[..i]
      invariant i <= FirstRejected(expected)
    {
      var (name, prop) := entries[i];
      var t := TypeMapping(prop.schemaType);
      var required := name in Required(tool.inputSchema);
      var property := Property(name, OrEmpty(prop.description), OrEmpty(prop.title), if required then t else Opt(t));
      assert property == expected[i];
      if !IsClass(property.pyType) {
        assert FirstRejected(expected) == i;
        return Err(ValidationError(name));
      }
      inputProperties := inputProperties + [property];
      assert expected[..i + 1] == expected[..i] + [expected[i]];
      i := i + 1;
    }
    assert inputProperties == expected;
    return Ok(inputProperties);
  }

  /**
   * `_mcp_tool_to_activity`: collects the input properties, then builds the
   * result property, the signature's parameters (the first invalid name
   * raises) and the docstring.
   */
  method McpToolToActivity(tool: McpTool) returns (r: Result<Activity, ActivityError>)
    ensures r == ToolToActivity(tool)
  {
    var collected := CollectInputProperties(tool);
    if collected.Err? {
      return Err(collected.error);
    }
    var inputProperties := collected.value;
    var entries := Properties(tool.inputSchema);
    if entries == [] {
      return Err(UnboundLocalError);
    }
    var (name, prop) := entries[|entries| - 1];
    var result := ResultProperty(tool.inputSchema, name, prop);
    // The result repeats the last input property's annotation, so it passes validation as well.
    assert result.pyType == inputProperties[|entries| - 1].pyType;
    assert IsClass(result.pyType);
    var invalid := FirstInvalidName(inputProperties);
    if invalid < |inputProperties| {
      return Err(InvalidParameterName(inputProperties[invalid].name));
    }
    return Ok(Activity(tool.name, inputProperties, result.pyType, ActivityDoc(tool.description, inputProperties, result)));
  }

  /**
   * Whether a schema property gets an annotation pydantic accepts: a
   * required property of a known type (annotated with its class) or an
   * optional one of unknown type (annotated `Optional[None]`).
   */
  predicate Annotatable(schema: InputSchema, name: string, prop: PropertySchema)
  {
    name in Required(schema) <==> TypeMapping(prop.schemaType) != Unmapped
  }

  /** The tools `_mcp_tool_to_activity` adapts without raising. */
  predicate Adaptable(tool: McpTool)
  {
    var entries := Properties(tool.inputSchema);
    && entries != []
    && (forall i :: 0 <= i < |entries| ==> Annotatable(tool.inputSchema, entries[i].0, entries[i].1))
    && (forall i :: 0 <= i < |entries| ==> ValidParameterName(entries[i].0))
  }

  lemma AnnotatableIsClass(schema: InputSchema, name: string, prop: PropertySchema)
    ensures Annotatable(schema, name, prop) <==> IsClass(InputProperty(schema, name, prop).pyType)
  {
  }

  /**
   * There is one parameter per schema property, in schema order, with the
   * property's name. A required property has a known type and is annotated
   * with it; an optional one has an unknown type and is annotated
   * `Optional[None]`. A missing description or title reads as "".
   */
  lemma ParametersFollowSchema(tool: McpTool, i: nat)
    requires ToolToActivity(tool).Ok? && i < |Properties(tool.inputSchema)|
    ensures var a := ToolToActivity(tool).value;
      var (name, prop) := Properties(tool.inputSchema)[i];
      && |a.parameters| == |Properties(tool.inputSchema)|
      && a.parameters[i].name == name
      && ValidParameterName(name)
      && (name in Required(tool.inputSchema) <==> TypeMapping(prop.schemaType) != Unmapped)
      && (name in Required(tool.inputSchema) ==> a.parameters[i].pyType == TypeMapping(prop.schemaType))
      && (name !in Required(tool.inputSchema) ==> a.parameters[i].pyType == Opt(Unmapped))
      && (prop.description.None? ==> a.parameters[i].description == "")
      && (prop.title.None? ==> a.parameters[i].title == "")
  {
    ActivityParameters(tool);
    var (name, prop) := Properties(tool.inputSchema)[i];
    AnnotatableIsClass(tool.inputSchema, name, prop);
  }

  /**
   * A tool is adapted exactly when it has an input property and every input
   * property is annotatable and has a valid parameter name; with no property
   * at all it fails on the unbound loop variables.
   */
  lemma AdaptableIff(tool: McpTool)
    ensures ToolToActivity(tool).Ok? <==> Adaptable(tool)
    ensures ToolToActivity(tool) == Err(UnboundLocalError) <==> Properties(tool.inputSchema) == []
  {
    OutcomeByStage(tool);
    AllAnnotatableIff(tool);
    AllNamesValidIff(tool);
  }

  /** Every property is annotatable exactly when validation reaches the end of the properties. */
  lemma AllAnnotatableIff(tool: McpTool)
    ensures var entries := Properties(tool.inputSchema);
      (forall i :: 0 <= i < |entries| ==> Annotatable(tool.inputSchema, entries[i].0, entries[i].1))
      <==> FirstRejected(InputProperties(tool.inputSchema)) == |entries|
  {
    var entries := Properties(tool.inputSchema);
    var inputs := InputProperties(tool.inputSchema);
    forall i | 0 <= i < |entries|
      ensures Annotatable(tool.inputSchema, entries[i].0, entries[i].1) <==> IsClass(inputs[i].pyType)
    {
      AnnotatableIsClass(tool.inputSchema, entries[i].0, entries[i].1);
    }
  }

  /** Every property name is a valid parameter name exactly when no name is refused. */
  lemma AllNamesValidIff(tool: McpTool)
    ensures var entries := Properties(tool.inputSchema);
      (forall i :: 0 <= i < |entries| ==> ValidParameterName(entries[i].0))
      <==> FirstInvalidName(InputProperties(tool.inputSchema)) == |entries|
  {
    var entries := Properties(tool.inputSchema);
    var inputs := InputProperties(tool.inputSchema);
    assert forall i :: 0 <= i < |entries| ==> inputs[i].name == entries[i].0;
  }

  /** The stage at which the adapter stops: validation, the unbound result, the parameter names, or none. */
  lemma OutcomeByStage(tool: McpTool)
    ensures var inputs := InputProperties(tool.inputSchema);
      ToolToActivity(tool).Ok? <==>
        FirstRejected(inputs) == |inputs| && inputs != [] && FirstInvalidName(inputs) == |inputs|
    ensures var inputs := InputProperties(tool.inputSchema);
      ToolToActivity(tool) == Err(UnboundLocalError) <==> FirstRejected(inputs) == |inputs| && inputs == []
  {
  }

  /**
   * When every property is annotatable, the first one in schema order whose
   * name is not an identifier, or is a keyword, makes the adapter raise
   * `ValueError` for that name.
   */
  lemma FirstInvalidNameRejected(tool: McpTool, j: nat)
    requires j < |Properties(tool.inputSchema)|
    requires var entries := Properties(tool.inputSchema);
      && (forall i :: 0 <= i < |entries| ==> Annotatable(tool.inputSchema, entries[i].0, entries[i].1))
      && !ValidParameterName(entries[j].0)
      && forall i :: 0 <= i < j ==> ValidParameterName(entries[i].0)
    ensures ToolToActivity(tool) == Err(InvalidParameterName(Properties(tool.inputSchema)[j].0))
  {
    var entries := Properties(tool.inputSchema);
    var inputs := InputProperties(tool.inputSchema);
    forall i | 0 <= i < |entries|
      ensures IsClass(inputs[i].pyType)
    {
      AnnotatableIsClass(tool.inputSchema, entries[i].0, entries[i].1);
    }
    assert FirstRejected(inputs) == |inputs|;
    assert forall i :: 0 <= i < |entries| ==> inputs[i].name == entries[i].0;
    assert FirstInvalidName(inputs) == j;
  }

  /** A hyphenated name and a keyword are refused as parameter names; a snake-case name is accepted. */
  lemma ParameterNameExamples()
    ensures !ValidParameterName("queue-id") && !ValidParameterName("from") && !ValidParameterName("")
    ensures ValidParameterName("queue_id")
  {
    assert !IsIdentifierChar("queue-id"[5]);
  }

  /**
   * The first property in schema order that is not annotatable makes the
   * adapter raise `ValidationError` for that property: an optional property
   * of a known type, or a required one of unknown type.
   */
  lemma FirstUnannotatableRejected(tool: McpTool, j: nat)
    requires j < |Properties(tool.inputSchema)|
    requires var entries := Properties(tool.inputSchema);
      !Annotatable(tool.inputSchema, entries[j].0, entries[j].1) &&
      forall i :: 0 <= i < j ==> Annotatable(tool.inputSchema, entries[i].0, entries[i].1)
    ensures ToolToActivity(tool) == Err(ValidationError(Properties(tool.inputSchema)[j].0))
  {
    var entries := Properties(tool.inputSchema);
    var inputs := InputProperties(tool.inputSchema);
    forall i | 0 <= i <= j
      ensures Annotatable(tool.inputSchema, entries[i].0, entries[i].1) <==> IsClass(inputs[i].pyType)
    {
      AnnotatableIsClass(tool.inputSchema, entries[i].0, entries[i].1);
    }
    assert FirstRejected(inputs) == j;
  }

  /** The return annotation is the one the last input property would get, not one read from a result schema. */
  lemma ResultTypeFromLastProperty(tool: McpTool)
    requires ToolToActivity(tool).Ok?
    ensures var entries := Properties(tool.inputSchema);
      ToolToActivity(tool).value.returnType == ToolToActivity(tool).value.parameters[|entries| - 1].pyType
  {
    var entries := Properties(tool.inputSchema);
    var last := entries[|entries| - 1];
    var inputs := InputProperties(tool.inputSchema);
    assert inputs[|entries| - 1] == InputProperty(tool.inputSchema, last.0, last.1);
    assert ToolToActivity(tool).value.parameters == inputs;
    assert ToolToActivity(tool).value.returnType == ResultProperty(tool.inputSchema, last.0, last.1).pyType;
  }

  /** The Args section lists one `name (type): description` line per parameter, in order, separated by newlines. */
  lemma {:induction false} ArgsSectionLines(ps: seq<Property>, i: nat)
    requires i < |ps|
    ensures var lines := Docstrings(ps);
      Join("\n", lines) == Join("\n", lines[..i]) + (if i == 0 then "" else "\n") + Docstring(ps[i])
        + (if i == |ps| - 1 then "" else "\n" + Join("\n", lines[i + 1..]))
  {
    var lines := Docstrings(ps);
    JoinSplit("\n", lines, i);
  }

  /** Where newline-joined lines sit in a text at offset `k`, the `i`-th of them follows the earlier ones and a newline. */
  lemma JoinedLineAt(doc: string, k: nat, lines: seq<string>, i: nat)
    requires i < |lines|
    requires var joined := Join("\n", lines); k + |joined| <= |doc| && doc[k..k + |joined|] == joined
    ensures var start := k + |Join("\n", lines[..i])| + (if i == 0 then 0 else 1);
      && start + |lines[i]| <= |doc|
      && doc[start..start + |lines[i]|] == lines[i]
  {
    var joined := Join("\n", lines);
    JoinSplit("\n", lines, i);
    var pre := Join("\n", lines[..i]) + (if i == 0 then "" else "\n");
    var post := if i == |lines| - 1 then "" else "\n" + Join("\n", lines[i + 1..]);
    assert joined == pre + lines[i] + post;
    InnerSlice(doc, k, joined, pre, lines[i], post);
    assert |pre| == |Join("\n", lines[..i])| + (if i == 0 then 0 else 1);
  }

  /** Where newline-joined lines sit in a text at offset `k`, a newline stands on each side of the `i`-th between its neighbours. */
  lemma JoinedLineSeparated(doc: string, k: nat, lines: seq<string>, i: nat)
    requires i < |lines|
    requires var joined := Join("\n", lines); k + |joined| <= |doc| && doc[k..k + |joined|] == joined
    ensures var start := k + |Join("\n", lines[..i])| + (if i == 0 then 0 else 1);
      && start + |lines[i]| <= |doc|
      && (i > 0 ==> doc[start - 1] == '\n')
      && (i < |lines| - 1 ==> start + |lines[i]| < |doc| && doc[start + |lines[i]|] == '\n')
  {
    var joined := Join("\n", lines);
    JoinSplit("\n", lines, i);
    var pre := Join("\n", lines[..i]) + (if i == 0 then "" else "\n");
    var post := if i == |lines| - 1 then "" else "\n" + Join("\n", lines[i + 1..]);
    assert joined == pre + lines[i] + post;
    InnerSlice(doc, k, joined, pre, lines[i], post);
    assert |pre| == |Join("\n", lines[..i])| + (if i == 0 then 0 else 1);
    if i > 0 {
      assert pre[|pre| - 1] == '\n';
    }
    if i < |lines| - 1 {
      assert post[0] == '\n';
    }
  }

  lemma JoinSplit(sep: string, parts: seq<string>, i: nat)
    requires i < |parts|
    ensures Join(sep, parts) == Join(sep, parts[..i]) + (if i == 0 then "" else sep) + parts[i]
      + (if i == |parts| - 1 then "" else sep + Join(sep, parts[i + 1..]))
  {
    var suffix := parts[i..];
    assert suffix[0] == parts[i];
    if i < |parts| - 1 {
      assert suffix[1..] == parts[i + 1..];
    }
    if i == 0 {
      assert suffix == parts;
    } else {
      assert parts == parts[..i] + suffix;
      JoinAppend(sep, parts[..i], suffix);
    }
  }

  /** Joining two non-empty lists of parts is joining each and putting one separator between them. */
  lemma {:induction false} JoinAppend(sep: string, a: seq<string>, b: seq<string>)
    requires a != [] && b != []
    ensures Join(sep, a + b) == Join(sep, a) + sep + Join(sep, b)
  {
    assert (a + b)[0] == a[0];
    if |a| == 1 {
      assert (a + b)[1..] == b;
    } else {
      assert (a + b)[1..] == a[1..] + b;
      JoinAppend(sep, a[1..], b);
      assert a[0] + sep + (Join(sep, a[1..]) + sep + Join(sep, b)) == (a[0] + sep + Join(sep, a[1..])) + sep + Join(sep, b);
    }
  }

  // ---------------------------------------------------------------------------
  // Argument binding

  /** `{prop.name: arg for prop, arg in zip(input_properties, args)}`: a later equal name overrides an earlier one. */
  function ZipBind<V>(ps: seq<Property>, args: seq<V>): (bound: map<string, V>)
    ensures forall i :: 0 <= i < |ps| && i < |args| ==> ps[i].name in bound
    ensures forall key :: key in bound ==> exists i :: 0 <= i < |ps| && i < |args| && ps[i].name == key
  {
    if ps == [] || args == [] then map[]
    else map[ps[0].name := args[0]] + ZipBind(ps[1..], args[1..])
  }

  /** The arguments `run` forwards to `call_tool`: positional ones bound by order, otherwise the keyword ones as given. */
  function BindArguments<V>(ps: seq<Property>, args: seq<V>, kwargs: map<string, V>): (bound: map<string, V>)
    ensures args == [] ==> bound == kwargs
  {
    if |args| == 0 then kwargs else ZipBind(ps, args)
  }

  predicate DistinctNames(ps: seq<Property>)
  {
    forall i, j :: 0 <= i < j < |ps| ==> ps[i].name != ps[j].name
  }

  /**
   * With positional arguments, the i-th argument is bound to the i-th
   * parameter's name; arguments beyond the parameters are dropped and the
   * keyword arguments are ignored.
   */
  lemma {:induction false} PositionalBinding<V>(ps: seq<Property>, args: seq<V>, kwargs: map<string, V>)
    requires args != [] && DistinctNames(ps)
    ensures var bound := BindArguments(ps, args, kwargs);
      && (forall i :: 0 <= i < |ps| && i < |args| ==> ps[i].name in bound && bound[ps[i].name] == args[i])
      && (forall key :: key in bound ==> exists i :: 0 <= i < |ps| && i < |args| && ps[i].name == key)
  {
    ZipBindSpec(ps, args);
  }

  lemma {:induction false} ZipBindSpec<V>(ps: seq<Property>, args: seq<V>)
    requires DistinctNames(ps)
    ensures var bound := ZipBind(ps, args);
      forall i :: 0 <= i < |ps| && i < |args| ==> bound[ps[i].name] == args[i]
  {
    if ps != [] && args != [] {
      ZipBindSpec(ps[1..], args[1..]);
      var rest := ZipBind(ps[1..], args[1..]);
      var bound := ZipBind(ps, args);
      assert ps[0].name !in rest;
      forall i | 0 <= i < |ps| && i < |args|
        ensures bound[ps[i].name] == args[i]
      {
        if i > 0 {
          assert ps[1..][i - 1] == ps[i] && args[1..][i - 1] == args[i];
        }
      }
    }
  }

  // ---------------------------------------------------------------------------
  // The cached tools

  /** `[self._mcp_tool_to_activity(tool) for tool in self._tools]`: fails as soon as one tool cannot be adapted. */
  function ActivitiesOf(tools: seq<McpTool>): (r: Result<seq<Activity>, ActivityError>)
    ensures r.Ok? <==> forall i :: 0 <= i < |tools| ==> ToolToActivity(tools[i]).Ok?
    ensures r.Ok? ==> |r.value| == |tools|
    ensures r.Ok? ==> forall i :: 0 <= i < |tools| ==> r.value[i] == ToolToActivity(tools[i]).value && r.value[i].name == tools[i].name
  {
    if tools == [] then Ok([])
    else
      match ToolToActivity(tools[0])
      case Err(e) => Err(e)
      case Ok(a) =>
        match ActivitiesOf(tools[1..])
        case Err(e) => Err(e)
        case Ok(rest) =>
          ConsPointwise(tools, ToolToActivity, a, rest);
          Ok([a] + rest)
  }

  /** `MCPConfig`, reduced to its tool cache. */
  class McpConfig {
    /** `_tools`: the tools listed at start-up. */
    var tools: seq<McpTool>

    constructor ()
      ensures tools == []
    {
      tools := [];
    }

    /** `init_tools`: caches the tools the MCP server lists. */
    method InitTools(listed: seq<McpTool>)
      modifies this
      ensures tools == listed
    {
      tools := listed;
    }

    /**
     * `activities`: one activity per cached tool, in order, each named after
     * its tool; it raises as soon as one tool cannot be adapted.
     */
    function Activities(): (r: Result<seq<Activity>, ActivityError>)
      reads this
      ensures r.Ok? <==> forall i :: 0 <= i < |tools| ==> Adaptable(tools[i])
      ensures r.Ok? ==> |r.value| == |tools| && forall i :: 0 <= i < |tools| ==> r.value[i].name == tools[i].name
    {
      forall i | 0 <= i < |tools| {
        AdaptableIff(tools[i]);
      }
      ActivitiesOf(tools)
    }
  }

  /** A required string property is documented with its bare type and its description. */
  lemma RequiredStringDocumented(tool: McpTool, i: nat)
    requires ToolToActivity(tool).Ok? && i < |Properties(tool.inputSchema)|
    requires var (name, prop) := Properties(tool.inputSchema)[i];
      prop.schemaType == Some("string") && name in Required(tool.inputSchema)
    ensures var (name, prop) := Properties(tool.inputSchema)[i];
      Docstrings(ToolToActivity(tool).value.parameters)[i] == name + " (" + "<class 'str'>" + "): " + OrEmpty(prop.description)
  {
    ActivityParameters(tool);
    var (name, prop) := Properties(tool.inputSchema)[i];
    var p := ToolToActivity(tool).value.parameters[i];
    assert p == InputProperty(tool.inputSchema, name, prop);
    StringMapsToStr();
    assert p.pyType == Str;
    TypeReprs();
    DocLineOf(p);
  }

  /** An optional property of unknown type is documented as the class `NoneType`, with its description. */
  lemma OptionalUntypedDocumented(tool: McpTool, j: nat)
    requires ToolToActivity(tool).Ok? && j < |Properties(tool.inputSchema)|
    requires var (name, prop) := Properties(tool.inputSchema)[j];
      (prop.schemaType.None? || prop.schemaType.value !in TypeTable) && name !in Required(tool.inputSchema)
    ensures var (name, prop) := Properties(tool.inputSchema)[j];
      Docstrings(ToolToActivity(tool).value.parameters)[j] == name + " (" + "<class 'NoneType'>" + "): " + OrEmpty(prop.description)
  {
    ActivityParameters(tool);
    var (name, prop) := Properties(tool.inputSchema)[j];
    var p := ToolToActivity(tool).value.parameters[j];
    assert p == InputProperty(tool.inputSchema, name, prop);
    assert p.pyType == Opt(Unmapped);
    TypeReprs();
    DocLineOf(p);
  }

  /**
   * Every parameter of an adapted tool is documented as its name, then its
   * type printed as a class in angle brackets, and ends with its description.
   */
  lemma ParameterDocLine(tool: McpTool, i: nat)
    requires ToolToActivity(tool).Ok? && i < |Properties(tool.inputSchema)|
    ensures var (name, prop) := Properties(tool.inputSchema)[i];
      var line := Docstrings(ToolToActivity(tool).value.parameters)[i];
      && |name| + 2 < |line| && line[..|name| + 2] == name + " (" && line[|name| + 2] == '<'
      && line[|line| - |OrEmpty(prop.description)|..] == OrEmpty(prop.description)
  {
    var ps := ToolToActivity(tool).value.parameters;
    ActivityParameters(tool);
    assert ps[i].name == Properties(tool.inputSchema)[i].0;
    assert ps[i].description == OrEmpty(Properties(tool.inputSchema)[i].1.description);
    ClassDocLine(ps[i]);
  }

  /** The doc line of a property annotated with a class shows the type in angle brackets. */
  lemma ClassDocLine(p: Property)
    requires IsClass(p.pyType)
    ensures var line := Docstring(p);
      && |p.name| + 2 < |line| && line[..|p.name| + 2] == p.name + " (" && line[|p.name| + 2] == '<'
      && line[|line| - |p.description|..] == p.description
  {
    var line := Docstring(p);
    var repr := TypeRepr(p.pyType);
    assert line[|p.name| + 2..|p.name| + 2 + |repr|] == repr;
    assert line[|p.name| + 2] == repr[0];
    assert line[..|p.name| + 2] == line[..|p.name|] + line[|p.name|..|p.name| + 2];
  }

  lemma StringMapsToStr()
    ensures TypeMapping(Some("string")) == Str
  {
    assert "string" in TypeTable;
  }

  lemma DocLineOf(p: Property)
    ensures Docstring(p) == p.name + " (" + TypeRepr(p.pyType) + "): " + p.description
  {
  }

  /** How the annotations of the two lemmas above print. */
  lemma TypeReprs()
    ensures TypeRepr(Str) == "<class 'str'>"
    ensures TypeRepr(Opt(Unmapped)) == "<class 'NoneType'>"
  {
  }

  /** The signature of an adapted tool is the schema's properties, in order. */
  lemma ActivityParameters(tool: McpTool)
    requires ToolToActivity(tool).Ok?
    ensures ToolToActivity(tool).value.parameters == InputProperties(tool.inputSchema)
  {
  }
}
