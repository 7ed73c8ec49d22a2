/**
 * The bedrock agent's tool table: ToolRegistry (name -> tool), the two
 * conversions between plain Java object trees and AWS SDK Documents, and
 * the execute / list / register rules of ToolController and ToolExecutor.
 * A tool's executor (an HTTP call to its consumer service) is an oracle.
 */
module Tools {
  import opened Wrappers
  import opened Json
  import Text

  /** software.amazon.awssdk.core.document.Document; numbers are doubles. */
  datatype Document =
    | DNull
    | DString(s: string)
    | DNumber(r: real)
    | DBool(b: bool)
    | DMap(entries: map<string, Document>)
    | DList(items: seq<Document>)

  /** Number.doubleValue; rounding of large integers is not modelled. */
  function DoubleValue(n: Number): real {
    match n
    case Integral(i) => i as real
    case Floating(r) => r
  }

  /** A tree with no value of a class the conversions do not know. */
  predicate Supported(v: Value) {
    match v
    case Set(_) => false
    case Other(_) => false
    case Arr(items) => forall i :: 0 <= i < |items| ==> Supported(items[i])
    case Obj(fields) => forall k :: k in fields ==> Supported(fields[k])
    case _ => true
  }

  /**
   * A tree documentToPlainMap can produce: null, strings, doubles,
   * booleans, maps and lists.
   */
  predicate PlainTree(v: Value) {
    match v
    case Set(_) => false
    case Other(_) => false
    case Num(n) => n.Floating?
    case Arr(items) => forall i :: 0 <= i < |items| ==> PlainTree(items[i])
    case Obj(fields) => forall k :: k in fields ==> PlainTree(fields[k])
    case _ => true
  }

  /** Why ToolRegistry.execute throws IllegalArgumentException. */
  datatype ToolError =
    | UnknownTool(name: Option<string>)
    | InputNotMap
    | UnsupportedType

  function ErrorMessage(e: ToolError): string {
    match e
    case UnknownTool(name) => "Unknown tool: " + Show(name)
    case InputNotMap => "Tool input must be a map"
    case UnsupportedType => "Unsupported type"
  }

  /**
   * ToolRegistry.convertToDocument: null, strings, numbers and booleans
   * map to the matching scalar, maps and lists convert entry by entry, and
   * any other class throws.
   */
  function Strict(v: Value): (r: Result<Document, ToolError>)
    ensures r.Failure? ==> r.error == UnsupportedType
    ensures r.Success? && v.Obj? ==> r.value.DMap? && r.value.entries.Keys == v.fields.Keys
    ensures r.Success? && v.Arr? ==> r.value.DList? && |r.value.items| == |v.items|
  {
    match v
    case Null => Success(DNull)
    case Str(s) => Success(DString(s))
    case Num(n) => Success(DNumber(DoubleValue(n)))
    case Bool(b) => Success(DBool(b))
    case Obj(fields) =>
      if exists k :: k in fields && Strict(fields[k]).Failure? then Failure(UnsupportedType)
      else Success(DMap(map k | k in fields :: Strict(fields[k]).value))
    case Arr(items) =>
      if exists i :: 0 <= i < |items| && Strict(items[i]).Failure? then Failure(UnsupportedType)
      else Success(DList(seq(|items|, i requires 0 <= i < |items| => Strict(items[i]).value)))
    case Set(_) => Failure(UnsupportedType)
    case Other(_) => Failure(UnsupportedType)
  }

  /**
   * ToolController.convertToDocument: the same recursion, but every value
   * it does not know, null included, becomes Document null.
   */
  function Lenient(v: Value): (r: Document)
    ensures r.DNull? <==> (v.Null? || v.Set? || v.Other?)
    ensures v.Obj? ==> r.DMap? && r.entries.Keys == v.fields.Keys
    ensures v.Arr? ==> r.DList? && |r.items| == |v.items|
  {
    match v
    case Obj(fields) => DMap(map k | k in fields :: Lenient(fields[k]))
    case Arr(items) => DList(seq(|items|, i requires 0 <= i < |items| => Lenient(items[i])))
    case Str(s) => DString(s)
    case Num(n) => DNumber(DoubleValue(n))
    case Bool(b) => DBool(b)
    case _ => DNull
  }

  /**
   * ToolController.documentToPlainMap: maps to maps, lists to lists,
   * scalars to scalars (numbers as doubles), Document null to Java null.
   */
  function Plain(d: Document): (r: Value)
    ensures PlainTree(r)
    ensures r.Null? <==> d.DNull?
    ensures d.DMap? ==> r.Obj? && r.fields.Keys == d.entries.Keys
    ensures d.DList? ==> r.Arr? && |r.items| == |d.items|
  {
    match d
    case DMap(entries) => Obj(map k | k in entries :: Plain(entries[k]))
    case DList(items) => Arr(seq(|items|, i requires 0 <= i < |items| => Plain(items[i])))
    case DString(s) => Str(s)
    case DNumber(r) => Num(Floating(r))
    case DBool(b) => Bool(b)
    case DNull => Null
  }

  /** Converting a plain tree to a Document and back gives the tree itself. */
  lemma {:induction false} PlainRoundTrip(v: Value)
    requires PlainTree(v)
    ensures Plain(Lenient(v)) == v
  {
    match v
    case Obj(fields) =>
      forall k | k in fields ensures Plain(Lenient(fields[k])) == fields[k] {
        PlainRoundTrip(fields[k]);
      }
      assert Plain(Lenient(v)).fields == fields;
    case Arr(items) =>
      forall i | 0 <= i < |items| ensures Plain(Lenient(items[i])) == items[i] {
        PlainRoundTrip(items[i]);
      }
      assert Plain(Lenient(v)).items == items;
    case _ =>
  }

  /** Every Document survives documentToPlainMap followed by convertToDocument. */
  lemma {:induction false} DocumentRoundTrip(d: Document)
    ensures Lenient(Plain(d)) == d
  {
    match d
    case DMap(entries) =>
      forall k | k in entries ensures Lenient(Plain(entries[k])) == entries[k] {
        DocumentRoundTrip(entries[k]);
      }
      assert Lenient(Plain(d)).entries == entries;
    case DList(items) =>
      forall i | 0 <= i < |items| ensures Lenient(Plain(items[i])) == items[i] {
        DocumentRoundTrip(items[i]);
      }
      assert Lenient(Plain(d)).items == items;
    case _ =>
  }

  /**
   * The registry's converter fails exactly on trees holding an unknown
   * class, and where it succeeds it agrees with the controller's.
   */
  lemma {:induction false} StrictAgreesWithLenient(v: Value)
    ensures Strict(v).Success? <==> Supported(v)
    ensures Strict(v).Success? ==> Strict(v).value == Lenient(v)
  {
    match v
    case Obj(fields) =>
      forall k | k in fields
        ensures Strict(fields[k]).Success? <==> Supported(fields[k])
        ensures Strict(fields[k]).Success? ==> Strict(fields[k]).value == Lenient(fields[k])
      {
        StrictAgreesWithLenient(fields[k]);
      }
      if Strict(v).Success? {
        assert Strict(v).value.entries == Lenient(v).entries;
      }
    case Arr(items) =>
      forall i | 0 <= i < |items|
        ensures Strict(items[i]).Success? <==> Supported(items[i])
        ensures Strict(items[i]).Success? ==> Strict(items[i]).value == Lenient(items[i])
      {
        StrictAgreesWithLenient(items[i]);
      }
      if Strict(v).Success? {
        assert Strict(v).value.items == Lenient(v).items;
      }
    case _ =>
  }

  /**
   * A DynamicTool. Its executor posts to `consumerService`; what it
   * answers is the oracle `run` passed to the operations below.
   */
  datatype Tool = Tool(
    name: Option<string>,
    description: Option<string>,
    schema: Document,
    consumerService: Option<string>)

  /** A call of a tool's execute with its converted input. */
  datatype Invocation = Invocation(tool: Tool, input: map<string, Document>)

  /** An exception that escapes a controller method (HTTP 500). */
  datatype HttpError = InternalServerError

  /** The ToolRequest body of POST /tools/register; the schema is a JSON object or null. */
  datatype ToolRequest = ToolRequest(
    name: Option<string>,
    description: Option<string>,
    schema: Option<Fields>,
    consumerService: Option<string>)

  class ToolRegistry {
    /** The HashMap: a null name is a legal key. */
    var tools: map<Option<string>, Tool>

    /** Every tool sits under its own name. */
    predicate Valid()
      reads this
    {
      forall n :: n in tools ==> tools[n].name == n
    }

    constructor ()
      ensures tools == map[] && Valid()
    {
      tools := map[];
    }

    /** register: store under the tool's name, replacing an earlier tool of that name. */
    method Register(tool: Tool)
      modifies this
      ensures tools == old(tools)[tool.name := tool]
      ensures old(Valid()) ==> Valid()
    {
      tools := tools[tool.name := tool];
    }

    /** get (and find, which wraps the same lookup in an Optional): null for an unknown name. */
    function Get(name: Option<string>): (r: Option<Tool>)
      reads this
      ensures r.Some? <==> name in tools
      ensures r.Some? ==> r.value == tools[name]
    {
      if name in tools then Some(tools[name]) else None
    }

    /** hasTool: containsKey, which agrees with get because no tool is null. */
    function HasTool(name: Option<string>): (r: bool)
      reads this
      ensures r <==> Get(name).Some?
    {
      name in tools
    }

    /**
     * execute: an unknown name and a non-map input throw; otherwise every
     * input entry is converted (a value of an unknown class throws) and
     * the tool runs on exactly the converted entries.
     */
    method Execute(toolName: Option<string>, rawInput: Value, run: Invocation -> Document)
      returns (r: Result<Document, ToolError>)
      ensures toolName !in tools ==> r == Failure(UnknownTool(toolName))
      ensures toolName in tools && !rawInput.Obj? ==> r == Failure(InputNotMap)
      ensures toolName in tools && rawInput.Obj? ==>
                (r.Success? <==> Strict(rawInput).Success?) &&
                (r.Failure? ==> r.error == UnsupportedType) &&
                (r.Success? ==> r.value == run(Invocation(tools[toolName], Strict(rawInput).value.entries)))
    {
      var tool := Get(toolName);
      if tool.None? {
        return Failure(UnknownTool(toolName));
      }
      if !rawInput.Obj? {
        return Failure(InputNotMap);
      }
      var fields := rawInput.fields;
      var docs: map<string, Document> := map[];
      var todo := fields.Keys;
      while todo != {}
        invariant todo <= fields.Keys
        invariant docs.Keys == fields.Keys - todo
        invariant forall k :: k in docs ==> Strict(fields[k]).Success? && docs[k] == Strict(fields[k]).value
        decreases |todo|
      {
        var k :| k in todo;
        var d := Strict(fields[k]);
        if d.Failure? {
          return Failure(UnsupportedType);
        }
        docs := docs[k := d.value];
        todo := todo - {k};
      }
      assert docs == Strict(rawInput).value.entries;
      r := Success(run(Invocation(tool.value, docs)));
    }
  }

  /** The map ToolExecutor.run answers for an unknown tool. */
  const NotFoundDocument := DMap(map["error" := DString("Tool not found")])

  class ToolExecutor {
    const registry: ToolRegistry

    constructor (registry: ToolRegistry)
      ensures this.registry == registry
    {
      this.registry := registry;
    }

    /** run: the not-found map for an unknown name, else exactly that tool's answer; nothing changes. */
    method Run(toolName: Option<string>, input: map<string, Document>, run: Invocation -> Document)
      returns (d: Document)
      ensures toolName !in registry.tools ==> d == NotFoundDocument
      ensures toolName in registry.tools ==> d == run(Invocation(registry.tools[toolName], input))
    {
      var tool := registry.Get(toolName);
      if tool.None? {
        return NotFoundDocument;
      }
      d := run(Invocation(tool.value, input));
    }
  }

  /** The reply of executeTool for an unknown tool. */
  function NotFoundReply(name: Option<string>): (r: Fields)
    ensures r.Keys == {"ok", "message"} && r["ok"] == Bool(false)
    ensures r["message"].Str? && Text.StartsWith(r["message"].s, "Tool not found: ")
    ensures name.Some? ==> r["message"].s[|"Tool not found: "|..] == name.value
  {
    map["ok" := Bool(false), "message" := Str("Tool not found: " + Show(name))]
  }

  /** What listTools can put in a Map.of: name, description and plain schema all non-null. */
  predicate Listable(t: Tool) {
    t.name.Some? && t.description.Some? && !t.schema.DNull?
  }

  /** One entry of listTools. */
  function ListEntry(t: Tool): Fields
    requires Listable(t)
  {
    map["name" := Str(t.name.value), "description" := Str(t.description.value), "schema" := Plain(t.schema)]
  }

  /** What listTools can list: the entry of every listable tool. */
  function Catalog(tools: map<Option<string>, Tool>): set<Fields> {
    set n | n in tools && Listable(tools[n]) :: ListEntry(tools[n])
  }

  /** The tool registerTool builds from a request. */
  function RequestedTool(request: ToolRequest): (t: Tool)
    ensures t.name == request.name && t.consumerService == request.consumerService
    ensures request.schema.None? ==> t.schema == DNull
    ensures request.schema.Some? ==> t.schema.DMap? && t.schema.entries.Keys == request.schema.value.Keys
  {
    var schema := if request.schema.Some? then Lenient(Obj(request.schema.value)) else Lenient(Null);
    Tool(request.name, request.description, schema, request.consumerService)
  }

  class ToolController {
    const registry: ToolRegistry

    constructor (registry: ToolRegistry)
      ensures this.registry == registry
    {
      this.registry := registry;
    }

    /** registerTool: the request's tool goes into the registry under the request's name. */
    method RegisterTool(request: ToolRequest) returns (reply: string)
      modifies registry
      ensures registry.tools == old(registry.tools)[request.name := RequestedTool(request)]
      ensures reply == "\U{2705} Tool registered successfully: " + Show(request.name) +
                       " (consumer=" + Show(request.consumerService) + ")"
    {
      var tool := RequestedTool(request);
      registry.Register(tool);
      reply := "\U{2705} Tool registered successfully: " + Show(tool.name) +
               " (consumer=" + Show(request.consumerService) + ")";
    }

    /**
     * executeTool. A "tool" that is not a string or an "input" that is
     * not a map fails the casts; an unknown tool gets the not-found reply
     * and nothing runs; a known tool runs once on the converted input, and
     * a null input, a null name or a null output make Map.of or the stream
     * throw.
     */
    method ExecuteTool(body: Fields, run: Invocation -> Document)
      returns (r: Result<Fields, HttpError>, invoked: Option<Invocation>)
      ensures AsString(Get(body, "tool")).CastFails? ==> r.Failure? && invoked.None?
      ensures !(Get(body, "input").Obj? || Get(body, "input").Null?) ==> r.Failure? && invoked.None?
      ensures var name := AsString(Get(body, "tool"));
              var input := Get(body, "input");
              !name.CastFails? && (input.Obj? || input.Null?) ==>
                (CastValue(name) !in registry.tools ==>
                   r == Success(NotFoundReply(CastValue(name))) && invoked.None?) &&
                (CastValue(name) in registry.tools && input.Null? ==> r.Failure? && invoked.None?) &&
                (CastValue(name) in registry.tools && input.Obj? ==>
                   invoked == Some(Invocation(registry.tools[CastValue(name)], Lenient(input).entries)) &&
                   var output := Plain(run(invoked.value));
                   (r.Success? <==> name.CastString? && !output.Null?) &&
                   (r.Success? ==> r.value == map["ok" := Bool(true), "tool" := Str(name.s), "output" := output]))
    {
      invoked := None;
      var nameCast := AsString(Get(body, "tool"));
      if nameCast.CastFails? {
        return Failure(InternalServerError), None;
      }
      var name := CastValue(nameCast);
      var inputRaw := Get(body, "input");
      if !(inputRaw.Obj? || inputRaw.Null?) {
        return Failure(InternalServerError), None;
      }
      var tool := registry.Get(name);
      if tool.None? {
        return Success(NotFoundReply(name)), None;
      }
      if inputRaw.Null? {
        return Failure(InternalServerError), None;
      }
      var call := Invocation(tool.value, Lenient(inputRaw).entries);
      invoked := Some(call);
      var output := Plain(run(call));
      if name.None? || output.Null? {
        return Failure(InternalServerError), invoked;
      }
      r := Success(map["ok" := Bool(true), "tool" := Str(name.value), "output" := output]);
    }

    /**
     * listTools: one entry per registered tool, carrying its name,
     * description and plain schema; one tool whose name, description or
     * schema is null makes the whole list fail.
     */
    method ListTools() returns (r: Result<seq<Fields>, HttpError>)
      ensures r.Success? <==> forall n :: n in registry.tools ==> Listable(registry.tools[n])
      ensures r.Success? ==>
                |r.value| == |registry.tools| &&
                (forall n :: n in registry.tools ==> ListEntry(registry.tools[n]) in r.value) &&
                (forall e :: e in r.value ==> e in Catalog(registry.tools))
    {
      var tools := registry.tools;
      var entries: seq<Fields> := [];
      ghost var done: set<Option<string>> := {};
      var todo := tools.Keys;
      while todo != {}
        invariant todo !! done && todo + done == tools.Keys
        invariant |entries| == |done|
        invariant forall n :: n in done ==> Listable(tools[n]) && ListEntry(tools[n]) in entries
        invariant forall e :: e in entries ==> e in Catalog(tools)
        decreases |todo|
      {
        var n :| n in todo;
        if !Listable(tools[n]) {
          return Failure(InternalServerError);
        }
        entries := entries + [ListEntry(tools[n])];
        done := done + {n};
        todo := todo - {n};
      }
      assert done == tools.Keys;
      r := Success(entries);
    }
  }
}
