/**
 * The shared contract: two procedures, `public.greeting` and
 * `private.greeting`, each taking `{ name?: string }` and returning
 * `{ text: string }`.
 */
module Contracts {
  import opened Wrappers
  import opened JsValues
  import opened Schema

  /** A procedure address: the keys walked from the root of a tree. */
  type Path = seq<string>

  /** A contract leaf: the input and output shapes of one procedure. */
  datatype ContractProcedure = ContractProcedure(input: ObjectSchema, output: ObjectSchema)

  /** A contract tree: a leaf procedure or a record of named sub-trees. */
  datatype ContractNode =
    | CLeaf(proc: ContractProcedure)
    | CRouter(children: map<string, ContractNode>)

  /** The procedure at `path`, if `path` ends exactly at a leaf. */
  function ContractLookup(c: ContractNode, path: Path): Option<ContractProcedure>
    decreases |path|
  {
    if path == [] then
      (if c.CLeaf? then Some(c.proc) else None)
    else if c.CRouter? && path[0] in c.children then
      ContractLookup(c.children[path[0]], path[1..])
    else
      None
  }

  const PublicGreetingPath: Path := ["public", "greeting"]
  const PrivateGreetingPath: Path := ["private", "greeting"]

  /** The input shape both leaves declare, `z.object({ name: z.string().optional() })`. */
  const GreetingInputSchema := ZObject(map["name" := ZOptional(ZString)])

  /** The output shape both leaves declare, `z.object({ text: z.string() })`. */
  const GreetingOutputSchema := ZObject(map["text" := ZString])

  /** The leaf both greeting contracts declare. */
  function GreetingLeaf(): ContractProcedure {
    ContractProcedure(GreetingInputSchema, GreetingOutputSchema)
  }

  /** A validated greeting input. */
  datatype GreetingInput = GreetingInput(name: Option<string>)

  /** A greeting output. */
  datatype GreetingOutput = GreetingOutput(text: string)

  /** A record holding one leaf under `key` has that leaf at `[key]` and nothing elsewhere. */
  lemma SingleLeafLookup(key: string, leaf: ContractProcedure)
    ensures forall p :: ContractLookup(CRouter(map[key := CLeaf(leaf)]), p)
                     == (if p == [key] then Some(leaf) else None)
  {
    var node := CRouter(map[key := CLeaf(leaf)]);
    forall p
      ensures ContractLookup(node, p) == (if p == [key] then Some(leaf) else None)
    {
      if p != [] && p[0] == key && p[1..] == [] {
        assert p == [key];
      }
    }
  }

  /**
   * `greetingPublic`: a record whose only procedure is `greeting`, taking
   * `{ name?: string }` and returning `{ text: string }`.
   */
  function GreetingPublic(): (c: ContractNode)
    ensures forall p :: ContractLookup(c, p) == (if p == ["greeting"] then Some(GreetingLeaf()) else None)
  {
    SingleLeafLookup("greeting", GreetingLeaf());
    CRouter(map["greeting" := CLeaf(ContractProcedure(
      ZObject(map["name" := ZOptional(ZString)]),
      ZObject(map["text" := ZString])))])
  }

  /** `greetingPrivate`: written out separately, with the same shapes. */
  function GreetingPrivate(): (c: ContractNode)
    ensures forall p :: ContractLookup(c, p) == (if p == ["greeting"] then Some(GreetingLeaf()) else None)
  {
    SingleLeafLookup("greeting", GreetingLeaf());
    CRouter(map["greeting" := CLeaf(ContractProcedure(
      ZObject(map["name" := ZOptional(ZString)]),
      ZObject(map["text" := ZString])))])
  }

  /**
   * `appContract`: the root record, keys `public` and `private`, whose two
   * greeting leaves declare the same input and output shapes.
   */
  function AppContract(): (c: ContractNode)
    ensures c.CRouter? && c.children.Keys == {"public", "private"}
    ensures ContractLookup(c, PublicGreetingPath) == Some(GreetingLeaf())
    ensures ContractLookup(c, PrivateGreetingPath) == Some(GreetingLeaf())
  {
    var c := CRouter(map["public" := GreetingPublic(), "private" := GreetingPrivate()]);
    assert PublicGreetingPath[1..] == ["greeting"];
    assert PrivateGreetingPath[1..] == ["greeting"];
    c
  }

  /** The contract has exactly the two greeting leaves, and they are distinct. */
  lemma AppContractLeaves(path: Path)
    ensures ContractLookup(AppContract(), path).Some?
        <==> path == PublicGreetingPath || path == PrivateGreetingPath
    ensures PublicGreetingPath != PrivateGreetingPath
  {
    var root := AppContract();
    if path != [] && path[0] in root.children {
      var rest := path[1..];
      var sub := if path[0] == "public" then GreetingPublic() else GreetingPrivate();
      assert ContractLookup(root, path) == ContractLookup(sub, rest);
      if rest == ["greeting"] {
        assert path == [path[0], "greeting"];
      }
    }
    assert PublicGreetingPath[0] != PrivateGreetingPath[0];
  }

  /** An input passes iff it is an object whose `name` is absent, `undefined` or a string. */
  lemma InputSchemaAccepts(v: Value)
    ensures Accepts(GreetingInputSchema, v)
        <==> v.Obj? && (Get(v.fields, "name").Undefined? || Get(v.fields, "name").Str?)
  {
    if v.Obj? {
      var fields := GreetingInputSchema.fields;
      assert fields.Keys == {"name"};
      var name := Get(v.fields, "name");
      assert FieldAccepts(fields["name"], name) <==> name.Undefined? || name.Str?;
    }
  }

  /** An output passes iff it is an object whose `text` is a string. */
  lemma OutputSchemaAccepts(v: Value)
    ensures Accepts(GreetingOutputSchema, v) <==> v.Obj? && Get(v.fields, "text").Str?
  {
    if v.Obj? {
      var fields := GreetingOutputSchema.fields;
      assert fields.Keys == {"text"};
      assert FieldAccepts(fields["text"], Get(v.fields, "text")) <==> Get(v.fields, "text").Str?;
    }
  }

  /** Parses a request value against the input shape; `None` is a validation failure. */
  function DecodeInput(v: Value): (r: Option<GreetingInput>)
    ensures r.Some? <==> Accepts(GreetingInputSchema, v)
    ensures r.Some? ==> (r.value.name.Some? <==> Get(v.fields, "name").Str?)
    ensures r.Some? && r.value.name.Some? ==> Get(v.fields, "name") == Str(r.value.name.value)
  {
    InputSchemaAccepts(v);
    if !v.Obj? then None
    else
      match Get(v.fields, "name")
      case Undefined => Some(GreetingInput(None))
      case Str(s) => Some(GreetingInput(Some(s)))
      case _ => None
  }

  /**
   * The value a client sends for `input`; an absent name is an absent key.
   * It passes the input shape and decodes back to `input`.
   */
  function EncodeInput(input: GreetingInput): (v: Value)
    ensures Accepts(GreetingInputSchema, v)
    ensures DecodeInput(v) == Some(input)
  {
    match input.name
    case None => Obj(map[])
    case Some(s) => Obj(map["name" := Str(s)])
  }

  /** Parses a handler result against the output shape. */
  function DecodeOutput(v: Value): (r: Option<GreetingOutput>)
    ensures r.Some? <==> Accepts(GreetingOutputSchema, v)
    ensures r.Some? ==> Get(v.fields, "text") == Str(r.value.text)
  {
    OutputSchemaAccepts(v);
    if v.Obj? && Get(v.fields, "text").Str? then
      Some(GreetingOutput(Get(v.fields, "text").s))
    else
      None
  }

  /**
   * The value a handler returns, `{ text }`. It passes the output shape and
   * decodes back to `output`.
   */
  function EncodeOutput(output: GreetingOutput): (v: Value)
    ensures Accepts(GreetingOutputSchema, v)
    ensures DecodeOutput(v) == Some(output)
  {
    Obj(map["text" := Str(output.text)])
  }
}
