/**
  The configuration-type generator unit (mage2gen/snippets/configurationtype.py).

  Given a configuration name, a node name and a field name, `Add` registers
  with its module, in this order: the per-file schema `etc/{c}.xsd`, the
  merged schema `etc/{c}_merged.xsd`, the PHP classes
  `Config\{X}\SchemaLocator`, `Config\{X}\Converter` and `Config\{X}\Reader`
  (where `{X}` is the class segment derived from the configuration name),
  and one readme fragment in the module's root directory.

  The pure parts (the schema trees, the fixed class shapes, the bundle as a
  whole) are functions; `Add` itself builds the classes step by step and
  registers them one call at a time, and is proved to produce `Bundle`.
*/
module ConfigurationType {
  import opened Wrappers
  import opened Artifacts
  import Naming

  const XmlSchemaNamespace: string := "http://www.w3.org/2001/XMLSchema"

  /** A node without the `xsd` flag, the form every node but the per-file schema root takes. */
  function Element(tag: string, attributes: seq<Attr>, children: seq<Node>): (n: Node)
    ensures !n.xsd
  {
    Node(tag, attributes, children, false)
  }

  // ---------------------------------------------------------------- schemas

  /** An element declaration read back from a schema: its `name` and `type`. */
  datatype Decl = Decl(name: string, typeName: string)

  /** The `xs:element` nodes among `nodes` that carry both a name and a type, in order. */
  function Decls(nodes: seq<Node>): (ds: seq<Decl>)
    ensures |ds| <= |nodes|
  {
    if nodes == [] then []
    else
      var n := nodes[0];
      var name := Attribute(n.attributes, "name");
      var typeName := Attribute(n.attributes, "type");
      (if n.tag == "xs:element" && name.Some? && typeName.Some?
       then [Decl(name.value, typeName.value)] else [])
      + Decls(nodes[1..])
  }

  /**
    The entries the schema allows inside its `config` element: the
    declarations in the `xs:choice` of the complex type of the first child
    of the root, when that child is the `config` element.
  */
  function ConfigEntries(root: Node): seq<Decl>
  {
    if |root.children| == 0 then []
    else
      var config := root.children[0];
      if config.tag != "xs:element" || Attribute(config.attributes, "name") != Some("config")
         || |config.children| != 1 then []
      else
        var complex := config.children[0];
        if complex.tag != "xs:complexType" || |complex.children| != 1 then []
        else
          var choice := complex.children[0];
          if choice.tag != "xs:choice" then [] else Decls(choice.children)
  }

  /** The declarations in the `xs:sequence` children of one complex type, in order. */
  function SequenceDecls(children: seq<Node>): seq<Decl>
  {
    if children == [] then []
    else (if children[0].tag == "xs:sequence" then Decls(children[0].children) else [])
         + SequenceDecls(children[1..])
  }

  /**
    The fields the schema gives the complex type keyed `typeName`, where the
    key is read, as this generator writes it, from the `type` attribute of
    an `xs:complexType` child of the root.
  */
  function TypeFields(nodes: seq<Node>, typeName: string): seq<Decl>
  {
    if nodes == [] then []
    else
      var n := nodes[0];
      (if n.tag == "xs:complexType" && Attribute(n.attributes, "type") == Some(typeName)
       then SequenceDecls(n.children) else [])
      + TypeFields(nodes[1..], typeName)
  }

  /** True when some child of the root carries `name` = `typeName`. */
  predicate NamedAtTop(root: Node, typeName: string)
  {
    exists i :: 0 <= i < |root.children| && Attribute(root.children[i].attributes, "name") == Some(typeName)
  }

  /**
    The per-file schema of lines 28-41: an `xs:schema` root (flagged `xsd`)
    with three attributes and two children. Its `config` element admits
    exactly one entry, `{node}` of type `{node}Type`, and the complex type
    keyed `{node}Type` holds exactly the string field `{field}`.
  */
  function MainSchema(nodeName: string, fieldName: string): (root: Node)
    ensures root.tag == "xs:schema" && root.xsd
    ensures |root.attributes| == 3
    ensures Attribute(root.attributes, "xmlns:xs") == Some(XmlSchemaNamespace)
    ensures |root.children| == 2
    ensures root.children[0].tag == "xs:element" && root.children[1].tag == "xs:complexType"
    ensures ConfigEntries(root) == [Decl(nodeName, Naming.TypeName(nodeName))]
    ensures TypeFields(root.children, Naming.TypeName(nodeName)) == [Decl(fieldName, "xs:string")]
  {
    var typeName := Naming.TypeName(nodeName);
    var entry := Element("xs:element",
      [Attr("name", nodeName), Attr("type", typeName), Attr("maxOccurs", "unbounded"), Attr("minOccurs", "0")], []);
    var config := Element("xs:element", [Attr("name", "config")], [
      Element("xs:complexType", [], [
        Element("xs:choice", [Attr("maxOccurs", "unbounded")], [entry])])]);
    var field := Element("xs:element", [Attr("name", fieldName), Attr("type", "xs:string")], []);
    var fieldType := Element("xs:complexType", [Attr("type", typeName)], [
      Element("xs:sequence", [], [field])]);
    assert Attribute(entry.attributes, "name") == Some(nodeName);
    assert Attribute(entry.attributes, "type") == Some(typeName);
    assert Decls([entry]) == [Decl(nodeName, typeName)] + Decls([]);
    assert Attribute(field.attributes, "name") == Some(fieldName);
    assert Attribute(field.attributes, "type") == Some("xs:string");
    assert Decls([field]) == [Decl(fieldName, "xs:string")] + Decls([]);
    assert SequenceDecls(fieldType.children) == Decls([field]) + SequenceDecls([]);
    assert Attribute(fieldType.attributes, "type") == Some(typeName);
    assert TypeFields([fieldType], typeName) == SequenceDecls(fieldType.children) + TypeFields([], typeName);
    assert Attribute(config.attributes, "name") == Some("config");
    assert Attribute(config.attributes, "type") == None;
    assert TypeFields([config, fieldType], typeName) == TypeFields([fieldType], typeName);
    var rootAttributes := [Attr("attributeFormDefault", "unqualified"),
      Attr("elementFormDefault", "qualified"), Attr("xmlns:xs", XmlSchemaNamespace)];
    assert rootAttributes[1..][1..] == [Attr("xmlns:xs", XmlSchemaNamespace)];
    assert Attribute(rootAttributes, "xmlns:xs") == Attribute(rootAttributes[1..], "xmlns:xs");
    assert Attribute(rootAttributes[1..], "xmlns:xs") == Attribute(rootAttributes[1..][1..], "xmlns:xs");
    Node("xs:schema", rootAttributes, [config, fieldType], true)
  }

  /**
    The per-file schema keys the complex type `{node}Type` by a `type`
    attribute: no child of the root is named `{node}Type`, so the type the
    `config` entry refers to has no `name`-keyed definition in this file.
  */
  lemma ComplexTypeKeyedByTypeAttribute(nodeName: string, fieldName: string)
    ensures var root := MainSchema(nodeName, fieldName);
      && Attribute(root.children[1].attributes, "type") == Some(Naming.TypeName(nodeName))
      && Attribute(root.children[1].attributes, "name") == None
      && !NamedAtTop(root, Naming.TypeName(nodeName))
  {
    var root := MainSchema(nodeName, fieldName);
    var t := Naming.TypeName(nodeName);
    assert t[|t| - 4..] == "Type";
    assert "config"[2..] == "nfig";
    assert Attribute(root.children[0].attributes, "name") == Some("config");
    assert Attribute(root.children[1].attributes, "name") == None;
  }

  /**
    The merged schema of lines 45-47: an `xs:schema` root whose only child
    includes the per-file schema through the module's URN.
  */
  function MergedSchema(moduleName: string, configName: string): (root: Node)
    ensures root.tag == "xs:schema" && !root.xsd
    ensures Attribute(root.attributes, "xmlns:xs") == Some(XmlSchemaNamespace)
    ensures |root.children| == 1 && root.children[0].tag == "xs:include"
    ensures Attribute(root.children[0].attributes, "schemaLocation")
         == Some("urn:magento:module:" + moduleName + ":" + Naming.XsdPath(configName))
  {
    Element("xs:schema", [Attr("xmlns:xs", XmlSchemaNamespace)], [
      Element("xs:include", [Attr("schemaLocation", Naming.SchemaUrn(moduleName, configName))], [])])
  }

  // ---------------------------------------------------------------- classes

  const SchemaLocatorInterface: string := "\\Magento\\Framework\\Config\\SchemaLocatorInterface"
  const ConverterInterface: string := "\\Magento\\Framework\\Config\\ConverterInterface"
  const ReaderParent: string := "\\Magento\\Framework\\Config\\Reader\\Filesystem"

  const SchemaLocatorAttributes: seq<string> :=
    ["private readonly ?string $schema;", "private readonly ?string $perFileSchema;"]
  const SchemaLocatorDependencies: seq<string> := ["Magento\\Framework\\Module\\Dir\\Reader"]

  const ReaderAttributes: seq<string> :=
    ["protected array $_idAttributes = [", "    '/config/example' => 'id',", "];"]
  const ReaderDependencies: seq<string> := [
    "Magento\\Framework\\Config\\FileResolverInterface",
    "Converter",
    "SchemaLocator",
    "Magento\\Framework\\Config\\ValidationStateInterface",
    "Magento\\Framework\\Config\\Dom"]

  /** Lines 60-64: resolves both schema files in a hard-coded module's `etc` directory. */
  const SchemaLocatorConstruct: PhpMethod := PhpMethod("__construct",
    ["private Reader $moduleReader"], None, [],
    LocateSchemas("Experius_Test", "example_merged.xsd", "example.xsd"))

  /** Lines 66-68. */
  const GetSchema: PhpMethod := PhpMethod("getSchema", [], Some("?string"), [], ReturnProperty("schema"))

  /** Lines 70-72. */
  const GetPerFileSchema: PhpMethod :=
    PhpMethod("getPerFileSchema", [], Some("?string"), [], ReturnProperty("perFileSchema"))

  /** Lines 79-107: reads the `id` of every node at a hard-coded path into an array. */
  const Convert: PhpMethod := PhpMethod("convert",
    ["DOMDocument $source"], Some("array"),
    ["Convert dom node tree to array", "", "@param DOMDocument $source", "@return array"],
    ConvertNodes("/config/example", "id", "example"))

  const ReaderConstructorParams: seq<string> := [
    "private FileResolverInterface $fileResolver",
    "private Converter $converter",
    "private SchemaLocator $schemaLocator",
    "private ValidationStateInterface $validationState",
    "private string $fileName = 'example.xml'",
    "private array $idAttributes = []",
    "private string $domDocumentClass = Dom::class",
    "private string $defaultScope = 'global'"]

  /** Lines 128-148: hands its eight parameters on to the parent constructor. */
  const ReaderConstruct: PhpMethod := PhpMethod("__construct", ReaderConstructorParams, None, [],
    ForwardToParent(["fileResolver", "converter", "schemaLocator", "validationState",
                     "fileName", "idAttributes", "domDocumentClass", "defaultScope"]))

  /**
    The SchemaLocator class as registered (lines 51-74): it implements the
    schema-locator interface and has `__construct`, `getSchema` and
    `getPerFileSchema`, in that order, the last two returning `?string`.
  */
  function SchemaLocatorDesc(segment: string): (c: ClassDesc)
    ensures c.name == Naming.ClassName(segment, "SchemaLocator")
    ensures c.implements == [SchemaLocatorInterface] && c.parent == None
    ensures |c.methods| == 3
    ensures c.methods[0].name == "__construct" && c.methods[1].name == "getSchema"
      && c.methods[2].name == "getPerFileSchema"
    ensures c.methods[1].returnType == c.methods[2].returnType == Some("?string")
  {
    ClassDesc(Naming.ClassName(segment, "SchemaLocator"), [SchemaLocatorInterface], None,
      SchemaLocatorAttributes, SchemaLocatorDependencies,
      [SchemaLocatorConstruct, GetSchema, GetPerFileSchema])
  }

  /**
    The Converter class as registered (lines 77-109): it implements the
    converter interface and has the single method `convert`, taking one
    parameter and returning `array`.
  */
  function ConverterDesc(segment: string): (c: ClassDesc)
    ensures c.name == Naming.ClassName(segment, "Converter")
    ensures c.implements == [ConverterInterface] && c.parent == None
    ensures c.attributes == [] && c.dependencies == []
    ensures |c.methods| == 1 && c.methods[0].name == "convert"
    ensures |c.methods[0].params| == 1 && c.methods[0].returnType == Some("array")
  {
    ClassDesc(Naming.ClassName(segment, "Converter"), [ConverterInterface], None, [], [], [Convert])
  }

  /**
    The Reader class as registered (lines 112-150): it extends the framework's
    filesystem reader, has three attribute lines and five dependencies, and
    the single method `__construct` with eight parameters.
  */
  function ReaderDesc(segment: string): (c: ClassDesc)
    ensures c.name == Naming.ClassName(segment, "Reader")
    ensures c.parent == Some(ReaderParent) && c.implements == []
    ensures |c.attributes| == 3 && |c.dependencies| == 5
    ensures |c.methods| == 1 && c.methods[0].name == "__construct" && |c.methods[0].params| == 8
  {
    ClassDesc(Naming.ClassName(segment, "Reader"), [], Some(ReaderParent),
      ReaderAttributes, ReaderDependencies, [ReaderConstruct])
  }

  /**
    The three class names share the namespace `Config\{X}\` and are
    pairwise distinct, whatever the segment.
  */
  lemma ClassNamesDistinct(segment: string)
    ensures var ns := Naming.ClassNamespace(segment);
      && SchemaLocatorDesc(segment).name[..|ns|] == ns
      && ConverterDesc(segment).name[..|ns|] == ns
      && ReaderDesc(segment).name[..|ns|] == ns
    ensures SchemaLocatorDesc(segment).name != ConverterDesc(segment).name
    ensures SchemaLocatorDesc(segment).name != ReaderDesc(segment).name
    ensures ConverterDesc(segment).name != ReaderDesc(segment).name
  {
  }

  /** Within each generated class no two methods share a name. */
  lemma MethodNamesUnique(segment: string)
    ensures UniqueMethodNames(SchemaLocatorDesc(segment))
    ensures UniqueMethodNames(ConverterDesc(segment))
    ensures UniqueMethodNames(ReaderDesc(segment))
  {
    var ms := SchemaLocatorDesc(segment).methods;
    assert ms[0].name != ms[1].name && ms[0].name != ms[2].name && ms[1].name != ms[2].name;
  }

  /**
    Apart from their names, the classes do not depend on the parameters:
    every method body, attribute line and dependency is the same for any two
    segments.
  */
  lemma ClassesIgnoreParameters(segment: string, other: string)
    ensures SchemaLocatorDesc(segment).(name := "") == SchemaLocatorDesc(other).(name := "")
    ensures ConverterDesc(segment).(name := "") == ConverterDesc(other).(name := "")
    ensures ReaderDesc(segment).(name := "") == ReaderDesc(other).(name := "")
  {
  }

  /**
    The literals hard-coded in the method bodies agree with the generated
    files only for the configuration name `example` and the node name
    `example`: the schema files SchemaLocator opens, and the path Converter
    reads, name the parameters' files exactly in that case.
  */
  lemma HardCodedLiteralsMatchOnlyExample(configName: string, nodeName: string)
    ensures SchemaLocatorConstruct.body.perFileSchemaFile == configName + ".xsd" <==> configName == "example"
    ensures SchemaLocatorConstruct.body.mergedSchemaFile == configName + "_merged.xsd" <==> configName == "example"
    ensures Convert.body.xpath == "/config/" + nodeName <==> nodeName == "example"
  {
    if "example.xsd" == configName + ".xsd" {
      assert configName == (configName + ".xsd")[..|configName|];
    }
    if "example_merged.xsd" == configName + "_merged.xsd" {
      assert configName == (configName + "_merged.xsd")[..|configName|];
    }
    if "/config/example" == "/config/" + nodeName {
      assert nodeName == ("/config/" + nodeName)[8..];
    }
  }

  // ---------------------------------------------------------------- bundle

  /** The readme fragment of line 155. */
  function ReadmeText(configName: string): (text: string)
    ensures |text| == 25 + |configName|
    ensures text[..25] == " - Configuration Type\n\t- " && text[25..] == configName
  {
    " - Configuration Type\n\t- " + configName
  }

  /**
    The two schema registrations of lines 42 and 48: the per-file schema at
    `etc/{c}.xsd` and the merged schema at `etc/{c}_merged.xsd`, two distinct
    paths, the second tree including the first by the module's URN.
  */
  function SchemaRegistrations(moduleName: string, configName: string, nodeName: string, fieldName: string)
    : (xs: seq<Registration>)
    ensures |xs| == 2 && xs[0].XmlReg? && xs[1].XmlReg?
    ensures xs[0].path == Naming.XsdPath(configName) && xs[1].path == Naming.MergedXsdPath(configName)
    ensures xs[0].root == MainSchema(nodeName, fieldName)
    ensures xs[1].root == MergedSchema(moduleName, configName)
    ensures xs[0].path != xs[1].path
    ensures |xs[1].root.children| == 1 && xs[1].root.children[0].tag == "xs:include"
    ensures Attribute(xs[1].root.children[0].attributes, "schemaLocation")
         == Some("urn:magento:module:" + moduleName + ":" + xs[0].path)
  {
    [XmlReg(Naming.XsdPath(configName), MainSchema(nodeName, fieldName)),
     XmlReg(Naming.MergedXsdPath(configName), MergedSchema(moduleName, configName))]
  }

  /**
    The three class registrations of lines 74, 109 and 150: SchemaLocator,
    Converter and Reader, with pairwise distinct names.
  */
  function ClassRegistrations(segment: string): (cs: seq<Registration>)
    ensures |cs| == 3 && cs[0].ClassReg? && cs[1].ClassReg? && cs[2].ClassReg?
    ensures cs[0].cls == SchemaLocatorDesc(segment) && cs[1].cls == ConverterDesc(segment)
      && cs[2].cls == ReaderDesc(segment)
    ensures cs[0].cls.name != cs[1].cls.name && cs[0].cls.name != cs[2].cls.name
      && cs[1].cls.name != cs[2].cls.name
  {
    ClassNamesDistinct(segment);
    [ClassReg(SchemaLocatorDesc(segment)), ClassReg(ConverterDesc(segment)), ClassReg(ReaderDesc(segment))]
  }

  /**
    Everything one call of `add` registers, in order: the two schema trees,
    then the three classes, then the readme fragment in the module's root.
  */
  function Bundle(moduleName: string, configName: string, nodeName: string, fieldName: string)
    : (b: seq<Registration>)
    ensures |b| == 6
    ensures b[0].XmlReg? && b[1].XmlReg? && b[2].ClassReg? && b[3].ClassReg? && b[4].ClassReg?
      && b[5].StaticReg?
    ensures b[..2] == SchemaRegistrations(moduleName, configName, nodeName, fieldName)
    ensures b[2..5] == ClassRegistrations(Naming.ClassSegment(configName))
    ensures b[5] == StaticReg(".", Readme(ReadmeText(configName)))
  {
    var xs := SchemaRegistrations(moduleName, configName, nodeName, fieldName);
    var cs := ClassRegistrations(Naming.ClassSegment(configName));
    var b := xs + cs + [StaticReg(".", Readme(ReadmeText(configName)))];
    assert b[..2] == xs && b[2..5] == cs;
    b
  }

  /** `Bundle` as the concatenation of its three parts. */
  lemma BundleParts(moduleName: string, configName: string, nodeName: string, fieldName: string)
    ensures Bundle(moduleName, configName, nodeName, fieldName)
      == SchemaRegistrations(moduleName, configName, nodeName, fieldName)
      + ClassRegistrations(Naming.ClassSegment(configName))
      + [StaticReg(".", Readme(ReadmeText(configName)))]
  {
  }

  /** Lines 51-72: creates the SchemaLocator class and adds its three methods in order. */
  method BuildSchemaLocator(segment: string) returns (c: PhpClass)
    ensures fresh(c) && c.Desc() == SchemaLocatorDesc(segment)
  {
    c := new PhpClass(Naming.ClassName(segment, "SchemaLocator"), [SchemaLocatorInterface],
      None, SchemaLocatorAttributes, SchemaLocatorDependencies);
    c.AddMethod(SchemaLocatorConstruct);
    c.AddMethod(GetSchema);
    c.AddMethod(GetPerFileSchema);
  }

  /** Lines 77-107: creates the Converter class and adds `convert`. */
  method BuildConverter(segment: string) returns (c: PhpClass)
    ensures fresh(c) && c.Desc() == ConverterDesc(segment)
  {
    c := new PhpClass(Naming.ClassName(segment, "Converter"), [ConverterInterface], None, [], []);
    c.AddMethod(Convert);
  }

  /** Lines 112-148: creates the Reader class and adds its constructor. */
  method BuildReader(segment: string) returns (c: PhpClass)
    ensures fresh(c) && c.Desc() == ReaderDesc(segment)
  {
    c := new PhpClass(Naming.ClassName(segment, "Reader"), [], Some(ReaderParent),
      ReaderAttributes, ReaderDependencies);
    c.AddMethod(ReaderConstruct);
  }

  /** The generator unit, bound to the module it contributes to. */
  class ConfigurationTypeSnippet {
    const owner: Module

    constructor (owner: Module)
      ensures this.owner == owner
    {
      this.owner := owner;
    }

    /**
      Lines 24-157: derives the class segment, registers the two schemas,
      then the three classes, then the readme fragment. The owning module's
      log grows by exactly `Bundle` and keeps what it held before.
    */
    method Add(configName: string, nodeName: string, fieldName: string)
      modifies owner
      ensures owner.log == old(owner.log) + Bundle(owner.name, configName, nodeName, fieldName)
    {
      var segment := Naming.ClassSegment(configName);
      RegisterSchemas(configName, nodeName, fieldName);
      RegisterClasses(segment);
      owner.AddStaticFile(".", Readme(ReadmeText(configName)));
      BundleParts(owner.name, configName, nodeName, fieldName);
    }

    /** Lines 27-48: builds the per-file and the merged schema and registers them in that order. */
    method RegisterSchemas(configName: string, nodeName: string, fieldName: string)
      modifies owner
      ensures owner.log == old(owner.log) + SchemaRegistrations(owner.name, configName, nodeName, fieldName)
    {
      var configXsd := MainSchema(nodeName, fieldName);
      owner.AddXml(Naming.XsdPath(configName), configXsd);
      var configMergedXsd := MergedSchema(owner.name, configName);
      owner.AddXml(Naming.MergedXsdPath(configName), configMergedXsd);
    }

    /**
      Lines 50-150: creates each class, adds its methods one by one, and
      registers it, in the order SchemaLocator, Converter, Reader.
    */
    method RegisterClasses(segment: string)
      modifies owner
      ensures owner.log == old(owner.log) + ClassRegistrations(segment)
    {
      var locator := BuildSchemaLocator(segment);
      owner.AddClass(locator);
      var converter := BuildConverter(segment);
      owner.AddClass(converter);
      var reader := BuildReader(segment);
      owner.AddClass(reader);
    }
  }

  /**
    One generation run on a fresh module: what it registers is a function of
    the four names alone, so two runs with the same names agree.
  */
  method GenerateOnFreshModule(moduleName: string, configName: string, nodeName: string, fieldName: string)
    returns (log: seq<Registration>)
    ensures log == Bundle(moduleName, configName, nodeName, fieldName)
  {
    var owner := new Module(moduleName);
    var snippet := new ConfigurationTypeSnippet(owner);
    snippet.Add(configName, nodeName, fieldName);
    log := owner.log;
  }
}
