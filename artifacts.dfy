/**
  The artifacts a generator unit hands to its module: markup trees, PHP class
  descriptions and static files, and the module itself, which the model keeps
  as an ordered log of registrations.

  The module's merge engine (what it does when two registrations name the
  same path or class) is not part of this model: `Module` only records what
  was registered, in order, and makes no claim about merging, deduplication
  or rendering.
*/
module Artifacts {
  import opened Wrappers

  /** One attribute of a markup node; a node keeps them in insertion order. */
  datatype Attr = Attr(key: string, value: string)

  /** A markup node: tag, attributes in insertion order, ordered children, and the `xsd` flag. */
  datatype Node = Node(tag: string, attributes: seq<Attr>, children: seq<Node>, xsd: bool)

  /** The value stored under `key`, the first one if the key were repeated. */
  function Attribute(attributes: seq<Attr>, key: string): Option<string>
  {
    if attributes == [] then None
    else if attributes[0].key == key then Some(attributes[0].value)
    else Attribute(attributes[1..], key)
  }

  /**
    `Attribute` finds a key exactly when some attribute carries it, and then
    returns the value of the first such attribute.
  */
  lemma {:induction false} AttributeFindsFirst(attributes: seq<Attr>, key: string)
    ensures Attribute(attributes, key).Some? <==> exists i :: 0 <= i < |attributes| && attributes[i].key == key
    ensures Attribute(attributes, key).Some? ==>
      exists i :: 0 <= i < |attributes| && attributes[i] == Attr(key, Attribute(attributes, key).value)
        && forall j :: 0 <= j < i ==> attributes[j].key != key
  {
    if attributes != [] && attributes[0].key != key {
      AttributeFindsFirst(attributes[1..], key);
      if Attribute(attributes, key).Some? {
        var i :| 0 <= i < |attributes[1..]| && attributes[1..][i] == Attr(key, Attribute(attributes, key).value)
          && forall j :: 0 <= j < i ==> attributes[1..][j].key != key;
        assert attributes[i + 1] == attributes[1..][i];
      }
      if exists i :: 0 <= i < |attributes| && attributes[i].key == key {
        var i :| 0 <= i < |attributes| && attributes[i].key == key;
        assert attributes[1..][i - 1].key == key;
      }
    } else if attributes != [] {
      assert attributes[0] == Attr(key, Attribute(attributes, key).value);
    }
  }

  /**
    What a generated PHP method does, kept opaque: each variant names one
    fixed body and carries only the literals that body hard-codes.
  */
  datatype MethodBody =
    | LocateSchemas(moduleLiteral: string, mergedSchemaFile: string, perFileSchemaFile: string)
    | ReturnProperty(property: string)
    | ConvertNodes(xpath: string, idAttribute: string, outputKey: string)
    | ForwardToParent(arguments: seq<string>)

  /** A PHP method: name, parameter declarations, optional return type, docstring lines, body. */
  datatype PhpMethod = PhpMethod(
    name: string,
    params: seq<string>,
    returnType: Option<string>,
    docstring: seq<string>,
    body: MethodBody)

  /** A PHP class description as registered with the module; `parent` is the class it extends. */
  datatype ClassDesc = ClassDesc(
    name: string,
    implements: seq<string>,
    parent: Option<string>,
    attributes: seq<string>,
    dependencies: seq<string>,
    methods: seq<PhpMethod>)

  /** No two methods of a class share a name. */
  predicate UniqueMethodNames(c: ClassDesc)
  {
    forall i, j :: 0 <= i < j < |c.methods| ==> c.methods[i].name != c.methods[j].name
  }

  /** A static file of the module; the only kind used here is the readme fragment. */
  datatype StaticFile = Readme(specifications: string)

  /** One call of `add_xml`, `add_class` or `add_static_file`, as the module received it. */
  datatype Registration =
    | XmlReg(path: string, root: Node)
    | ClassReg(cls: ClassDesc)
    | StaticReg(directory: string, file: StaticFile)

  /**
    A PHP class under construction: everything is fixed when it is created
    except its methods, which `AddMethod` appends one at a time.
  */
  class PhpClass {
    const name: string
    const implements: seq<string>
    const parent: Option<string>
    const attributes: seq<string>
    const dependencies: seq<string>
    var methods: seq<PhpMethod>

    constructor (name: string, implements: seq<string>, parent: Option<string>,
                 attributes: seq<string>, dependencies: seq<string>)
      ensures Desc() == ClassDesc(name, implements, parent, attributes, dependencies, [])
    {
      this.name := name;
      this.implements := implements;
      this.parent := parent;
      this.attributes := attributes;
      this.dependencies := dependencies;
      this.methods := [];
    }

    /** The class as a value, the form in which the module records it. */
    function Desc(): ClassDesc
      reads this
    {
      ClassDesc(name, implements, parent, attributes, dependencies, methods)
    }

    method AddMethod(m: PhpMethod)
      modifies this
      ensures methods == old(methods) + [m]
      ensures Desc() == old(Desc()).(methods := old(Desc()).methods + [m])
    {
      methods := methods + [m];
    }
  }

  /** The module a generator unit contributes to: its name and the log of what it was given. */
  class Module {
    const name: string
    var log: seq<Registration>

    constructor (name: string)
      ensures this.name == name && log == []
    {
      this.name := name;
      log := [];
    }

    method AddXml(path: string, root: Node)
      modifies this
      ensures log == old(log) + [XmlReg(path, root)]
    {
      log := log + [XmlReg(path, root)];
    }

    method AddClass(c: PhpClass)
      modifies this
      ensures log == old(log) + [ClassReg(c.Desc())]
    {
      log := log + [ClassReg(c.Desc())];
    }

    method AddStaticFile(directory: string, file: StaticFile)
      modifies this
      ensures log == old(log) + [StaticReg(directory, file)]
    {
      log := log + [StaticReg(directory, file)];
    }
  }
}
