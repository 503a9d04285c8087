# Configuration Type snippet of Mage2Gen, in Dafny

Mage2Gen generates Magento 2 modules from snippets. The Configuration Type
snippet adds a custom XML configuration type to a module. Given a config name,
a node name and a field name, `ConfigurationTypeSnippet.add` registers the
following with its module, in this order:

- the per-file XSD `etc/<config>.xsd`;
- the merged XSD `etc/<config>_merged.xsd`, which includes the per-file one
  through a `urn:magento:module:` location;
- the `Config\<Segment>\SchemaLocator` PHP class, with three methods;
- the `Config\<Segment>\Converter` PHP class, with one method;
- the `Config\<Segment>\Reader` PHP class, with one method;
- a readme fragment naming the configuration type.

Here `<Segment>` is the config name split at underscores, with each piece
upper-cased on its first letter and the pieces joined. `params` declares the
three inputs. Each one is required and must match `^[a-z_]+$`.

The project has five files:

- `naming.dfy` (module `Naming`) covers the string derivations. `Split` keeps
  Python's `str.split('_')` semantics, including empty pieces. `ClassSegment`
  is proved equal to `Camelize`, an independent one-pass definition of the
  same camel-casing. `Split` is proved to round-trip with joining at `_`. The
  module also builds the schema paths, the module URN, the XSD type name and
  the class names.
- `artifacts.dfy` (module `Artifacts`) holds what a snippet hands to its module:
  - XML nodes whose attributes keep their insertion order;
  - PHP methods, whose bodies are kept as the literals they embed;
  - PHP classes: `PhpClass` is a Dafny class whose methods are added one at a
    time;
  - readme fragments;
  - `Module`, a class whose log of registrations grows as the snippet adds
    things.
- `params.dfy` (module `SnippetParams`) covers the parameter declaration and
  what its validator admits.
- `configuration_type.dfy` (module `ConfigurationType`) covers `add` itself.
  It has two parts:
  - functions for each artifact, collected in order by `Bundle`;
  - the imperative `ConfigurationTypeSnippet.Add`, which builds the classes
    with `AddMethod` and registers everything with its `Module`. It is proved
    to append exactly `Bundle` to the module's log.
- `wrappers.dfy` provides `Option`.

Points worth knowing about what `add` produces:

- The SchemaLocator class gets three methods: `__construct`, `getSchema` and
  `getPerFileSchema`.
- The Reader class gets three attribute lines.
- The per-file schema root has two children: the `config` element and the
  node's complex type.
- The top-level `xs:complexType` of the per-file schema carries its type name
  in a `type` attribute and has no `name`. The `config` element refers to the
  type `<node>Type`, so that reference has no named declaration at the top
  level. `ComplexTypeKeyedByTypeAttribute` states this.
- The generated PHP bodies hard-code the module `Experius_Test`, the schema
  file names `example_merged.xsd` and `example.xsd`, the XPath `/config/example`
  and the output key `example`. They agree with the inputs only when the
  config name and the node name are `example`
  (`HardCodedLiteralsMatchOnlyExample`).

## Model

| member | source | states |
|---|---|---|
| Naming.Upper | mage2gen/snippets/configurationtype.py:25 | Maps an ASCII lower-case letter to its upper-case letter and leaves every other character unchanged |
| Naming.UpperFirst | mage2gen/snippets/configurationtype.py:25 | Keeps the word's length, upper-cases its first character and leaves the rest unchanged |
| Naming.Split | mage2gen/snippets/configurationtype.py:25 | Splitting at `_` yields one more piece than the name has underscores, and no piece contains `_` |
| Naming.SplitJoinRoundTrip | mage2gen/snippets/configurationtype.py:25 | Joining the pieces of the split with `_` gives back the original name, so empty pieces are kept |
| Naming.SegmentIsCamelized | mage2gen/snippets/configurationtype.py:25 | Concatenating the split pieces, each with its first letter upper-cased, equals the one-pass camel-casing `Camelize` |
| Naming.ClassSegment | mage2gen/snippets/configurationtype.py:25 | The class segment equals `Camelize(configName, true)`, contains no `_`, and is as long as the name minus its underscores |
| Naming.CamelizeDropsUnderscores | mage2gen/snippets/configurationtype.py:25 | The camel-cased form of any name contains no underscore |
| Naming.CamelizeLength | mage2gen/snippets/configurationtype.py:25 | The camel-cased form is as long as the name minus its underscores |
| Naming.CamelizeOfLowerName | mage2gen/snippets/configurationtype.py:25 | For a name of `[a-z_]`, the camel-cased form consists only of ASCII letters, is empty exactly when the name is all underscores, and starts upper-case when capitalizing |
| Naming.SegmentNotInjective | mage2gen/snippets/configurationtype.py:25 | `a_b` and `a__b` give the same class segment `AB`, although their schema paths differ |
| Naming.XsdPath | mage2gen/snippets/configurationtype.py:42 | The per-file schema path is `etc/` + name + `.xsd` |
| Naming.MergedXsdPath | mage2gen/snippets/configurationtype.py:48 | The merged schema path is `etc/` + name + `_merged.xsd` |
| Naming.SchemaPathsDistinct | mage2gen/snippets/configurationtype.py:42-48 | A config's two schema paths differ, and each path determines the config name |
| Naming.MergedPathOverlapsPerFilePath | mage2gen/snippets/configurationtype.py:42-48 | The merged path of `c` is the per-file path of `c_merged`, so two configurations of one module can collide |
| Naming.SchemaUrn | mage2gen/snippets/configurationtype.py:46 | The include location is `urn:magento:module:` + module name + `:` + the per-file schema path |
| Naming.TypeName | mage2gen/snippets/configurationtype.py:32 | The XSD type name is the node name followed by `Type` |
| Naming.ClassName | mage2gen/snippets/configurationtype.py:51 | A class name is the namespace `Config\<Segment>\` followed by the leaf name |
| Naming.ClassNamespace | mage2gen/snippets/configurationtype.py:51 | The namespace is `Config\`, then the segment, then a closing `\` |
| Naming.CamelizeKeepsPlainWord | mage2gen/snippets/configurationtype.py:25 | A word without underscores comes through camel-casing unchanged when its first letter is not capitalized |
| Naming.ExampleSegment | mage2gen/snippets/configurationtype.py:25 | The config name `example` gives the segment `Example` |
| Naming.ExamplePaths | mage2gen/snippets/configurationtype.py:42-48 | The config name `example` gives `etc/example.xsd` and `etc/example_merged.xsd` |
| Naming.ExampleClassNames | mage2gen/snippets/configurationtype.py:51-112 | The segment `Example` gives `Config\Example\SchemaLocator`, `Config\Example\Converter` and `Config\Example\Reader` |
| Artifacts.AttributeFindsFirst | mage2gen/snippets/configurationtype.py:28 | An attribute lookup succeeds iff some attribute has the key, and it returns the value of the first such attribute |
| Artifacts.PhpClass.constructor | mage2gen/snippets/configurationtype.py:51-58 | A new class has the given name, interfaces, parent, attributes and dependencies, and no methods |
| Artifacts.PhpClass.AddMethod | mage2gen/snippets/configurationtype.py:60-72 | Appends the method to the class's methods and changes nothing else |
| Artifacts.Module.AddXml | mage2gen/snippets/configurationtype.py:42 | Appends one XML registration, with its path and tree, to the module's log |
| Artifacts.Module.AddClass | mage2gen/snippets/configurationtype.py:74 | Appends the class as it stands at that moment to the module's log |
| Artifacts.Module.AddStaticFile | mage2gen/snippets/configurationtype.py:152-157 | Appends the static file, with its directory, to the module's log |
| SnippetParams.Params | mage2gen/snippets/configurationtype.py:160-183 | Declares three parameters in the order `config_name`, `node_name`, `field_name`. All are required and share the `[a-z_]+` validator and message. Only the first two repeat. Their names are distinct |
| SnippetParams.MatchesOneOrMore | mage2gen/snippets/configurationtype.py:167 | For every value, the per-character reading of `^[a-z_]+$` (non-empty, each character in `[a-z_]`) agrees with reading `+` as one class character followed by the end or by another match |
| SnippetParams.ValidConfigNameSegment | mage2gen/snippets/configurationtype.py:163-169 | A config name the validator accepts gives a segment of ASCII letters only. The segment is empty iff the name is all underscores, and otherwise starts upper-case |
| SnippetParams.UnderscoreOnlyNameGivesEmptySegment | mage2gen/snippets/configurationtype.py:163-169 | The validator accepts `_`, and the class segment of `_` is empty |
| ConfigurationType.MainSchema | mage2gen/snippets/configurationtype.py:28-41 | The per-file schema is an `xs:schema` root with the XSD flag, three attributes and the XML Schema namespace. The `config` element declares one entry `node` of type `<node>Type`. The complex type keyed by that type name holds one `xs:string` field |
| ConfigurationType.ComplexTypeKeyedByTypeAttribute | mage2gen/snippets/configurationtype.py:32-36 | The top-level complex type has a `type` attribute and no `name`, so no top-level declaration is named after the type the element refers to |
| ConfigurationType.MergedSchema | mage2gen/snippets/configurationtype.py:45-47 | The merged schema is a schema root without the XSD flag, holding one `xs:include` whose location is the module URN of the per-file schema |
| ConfigurationType.SchemaLocatorDesc | mage2gen/snippets/configurationtype.py:51-72 | The SchemaLocator class implements the schema locator interface, has no parent, and has the methods `__construct`, `getSchema` and `getPerFileSchema`, the last two returning `?string` |
| ConfigurationType.ConverterDesc | mage2gen/snippets/configurationtype.py:77-107 | The Converter class implements the converter interface and has no attributes and no dependencies. Its single method `convert` takes one parameter and returns `array` |
| ConfigurationType.ReaderDesc | mage2gen/snippets/configurationtype.py:112-148 | The Reader class extends the filesystem reader and implements nothing. It has three attribute lines and five dependencies, and one `__construct` with eight parameters |
| ConfigurationType.ClassNamesDistinct | mage2gen/snippets/configurationtype.py:51-112 | The three classes share the namespace `Config\<Segment>\` and have pairwise distinct names |
| ConfigurationType.MethodNamesUnique | mage2gen/snippets/configurationtype.py:60-137 | No class gets two methods of the same name |
| ConfigurationType.ClassesIgnoreParameters | mage2gen/snippets/configurationtype.py:51-148 | Apart from their names, the three classes are the same for every config name |
| ConfigurationType.HardCodedLiteralsMatchOnlyExample | mage2gen/snippets/configurationtype.py:60-107 | The schema file names in `__construct` match the config name iff it is `example`. The XPath in `convert` matches the node name iff it is `example` |
| ConfigurationType.ReadmeText | mage2gen/snippets/configurationtype.py:155 | The readme specification is the 25-character prefix ` - Configuration Type`, newline, tab, `- `, followed by the config name |
| ConfigurationType.SchemaRegistrations | mage2gen/snippets/configurationtype.py:42-48 | Two XML registrations in order: `MainSchema` of the node and field names at the per-file path, then `MergedSchema` at the merged path. The paths are distinct, and the merged tree includes the URN of the first path |
| ConfigurationType.ClassRegistrations | mage2gen/snippets/configurationtype.py:74-150 | Three class registrations in order: `SchemaLocatorDesc`, `ConverterDesc` and `ReaderDesc` of the segment, with pairwise distinct names |
| ConfigurationType.Bundle | mage2gen/snippets/configurationtype.py:24-157 | One `add` registers six things in order: the two schemas, the three classes of the config's segment, then the readme in `.` |
| ConfigurationType.BuildSchemaLocator | mage2gen/snippets/configurationtype.py:51-72 | Builds a fresh class whose final state is `SchemaLocatorDesc` |
| ConfigurationType.BuildConverter | mage2gen/snippets/configurationtype.py:77-107 | Builds a fresh class whose final state is `ConverterDesc` |
| ConfigurationType.BuildReader | mage2gen/snippets/configurationtype.py:112-148 | Builds a fresh class whose final state is `ReaderDesc` |
| ConfigurationType.ConfigurationTypeSnippet.constructor | mage2gen/snippets/configurationtype.py:21 | The snippet is bound to the module it contributes to |
| ConfigurationType.ConfigurationTypeSnippet.Add | mage2gen/snippets/configurationtype.py:24-157 | The module's log grows by exactly `Bundle` of its name and the inputs, and what it held before is kept |
| ConfigurationType.ConfigurationTypeSnippet.RegisterSchemas | mage2gen/snippets/configurationtype.py:27-48 | The module's log grows by exactly the two schema registrations |
| ConfigurationType.ConfigurationTypeSnippet.RegisterClasses | mage2gen/snippets/configurationtype.py:50-150 | The module's log grows by exactly the three class registrations |
| ConfigurationType.GenerateOnFreshModule | mage2gen/snippets/configurationtype.py:24-157 | On a new module, `add` leaves exactly `Bundle` in the log, so the output depends only on the module name and the three inputs |

## Left out

- The module's merge engine is not part of this model. That engine decides what
  happens when a path or class name is registered twice, and how generated
  files are laid out. `Module` keeps an append-only log of what it was given,
  in order.
- Rendering of XML, PHP and readme text, and writing files, are left out
  because they are I/O.
- Method bodies are PHP source text. Each one is modelled by the literals it
  embeds: the module name and schema file names, the returned property, the
  XPath, the id attribute and output key, and the forwarded arguments. The PHP
  meaning of the bodies is not modelled, and neither are the docstring layout
  or whitespace.
- Regular-expression matching is not modelled in general. `Matches` decides
  the one pattern used here, `^[a-z_]+$`, directly. The code that applies the
  pattern is not part of this model.
- SnippetParams.Matches: rejects a value with a trailing newline. In Python's
  `re`, `$` also matches just before a final newline, so `re.match` with this
  pattern accepts `abc` followed by a newline. Whether the caller uses
  `re.match` or `re.fullmatch` is not visible here, so the model takes the
  stricter reading.
- Naming.UpperFirst: the library's `utils.upperfirst` is not part of this
  model. Its result on the empty string is assumed to be the empty string.
  Accepted names such as `_`, `a_`, `_a` and `a__b` produce empty pieces when
  split. A helper that indexes the first character would fail on those names
  instead. `SegmentNotInjective`, `UnderscoreOnlyNameGivesEmptySegment` and
  the "empty iff all underscores" clause of `ValidConfigNameSegment` hold only
  under this assumption.
- Artifacts.PhpClass.AddMethod: the library's `Phpclass.add_method` is not
  part of this model, and the method is modelled as a plain append. If the
  library dropped a method whose name is already present, nothing here would
  change, because `MethodNamesUnique` shows that no class gets two methods of
  the same name.
- The module name: `self.module_name` on line 46 belongs to the snippet
  base class, which is not part of this model. It is modelled as the name of
  the `Module` the snippet is bound to (`Module.name`).
- What `repeat` and `required` mean to the surrounding tool is not modelled,
  since only the declared flags are part of this code.
- The `extra_params` argument is left out because `add` never reads it. The
  unused imports (`os`, `locale`, `utils` beyond `upperfirst`) are left out for
  the same reason.
- Naming.Upper: upper-cases ASCII `a`-`z` only. Python's `str.upper` also maps
  non-ASCII letters, and can lengthen a string (`ß` becomes `SS`). The
  validator excludes such names anyway.
- Artifacts.Module.AddClass: records a copy of the class as it stands when
  registered. The source keeps a reference, which would expose later
  `add_method` calls. `add` makes no such calls after registering a class.
- PHP method arguments that `add` never passes are left at empty values: no
  parameters, no docstring, no return type. The library's defaults for them
  are not part of this model.
- The snippet's label string (line 22) is a display constant and is not modelled.
