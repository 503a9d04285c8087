/**
  Name and path derivation of the configuration-type generator
  (mage2gen/snippets/configurationtype.py, lines 25, 42, 46, 48).

  A snake_case configuration name such as `sales_rules` becomes the class
  segment `SalesRules`: the name is split at every underscore (with Python's
  `str.split('_')` semantics, empty pieces included), the first character of
  every piece is upper-cased, and the pieces are joined with nothing between
  them. The raw name is also spliced into two schema paths and a URN.
*/
module Naming {

  const Underscore: char := '_'

  /** Upper-case of an ASCII lower-case letter; every other character is kept. */
  function Upper(c: char): (u: char)
    ensures 'a' <= c <= 'z' ==> 'A' <= u <= 'Z' && u as int == c as int - 32
    ensures !('a' <= c <= 'z') ==> u == c
  {
    if 'a' <= c <= 'z' then (c as int - ('a' as int - 'A' as int)) as char else c
  }

  /**
    The generator's `upperfirst`: upper-case the first character. The library
    helper is not part of this model; the empty string is taken to come back
    unchanged.
  */
  function UpperFirst(w: string): (r: string)
    ensures |r| == |w|
    ensures w != [] ==> r[0] == Upper(w[0]) && r[1..] == w[1..]
  {
    if w == [] then [] else [Upper(w[0])] + w[1..]
  }

  /** Number of underscores in `s`. */
  function Underscores(s: string): nat
  {
    if s == [] then 0 else (if s[0] == Underscore then 1 else 0) + Underscores(s[1..])
  }

  /**
    Python's `s.split('_')`: the maximal underscore-free pieces between
    separators, including the empty pieces before a leading, after a trailing
    and between adjacent underscores; the empty string gives one empty piece.
  */
  function Split(s: string): (pieces: seq<string>)
    ensures |pieces| == Underscores(s) + 1
    ensures forall i :: 0 <= i < |pieces| ==> Underscore !in pieces[i]
    decreases |s|
  {
    if s == [] then [[]]
    else
      var rest := Split(s[1..]);
      if s[0] == Underscore then [[]] + rest
      else [[s[0]] + rest[0]] + rest[1..]
  }

  /** Python's `sep.join(pieces)` for a one-character separator. */
  function JoinWith(pieces: seq<string>, sep: char): string
  {
    if pieces == [] then []
    else if |pieces| == 1 then pieces[0]
    else pieces[0] + [sep] + JoinWith(pieces[1..], sep)
  }

  /** Concatenation of all pieces: Python's `''.join(pieces)`. */
  function Concat(pieces: seq<string>): string
  {
    if pieces == [] then [] else pieces[0] + Concat(pieces[1..])
  }

  /** `UpperFirst` applied to every piece, in order. */
  function CapitalizeAll(pieces: seq<string>): (r: seq<string>)
    ensures |r| == |pieces|
  {
    if pieces == [] then [] else [UpperFirst(pieces[0])] + CapitalizeAll(pieces[1..])
  }

  /**
    Reference definition of the class segment, one character at a time:
    underscores are dropped, and a character is upper-cased exactly when it
    starts the string or follows an underscore (`capitalizeNext`).
  */
  function Camelize(s: string, capitalizeNext: bool): string
  {
    if s == [] then []
    else if s[0] == Underscore then Camelize(s[1..], true)
    else [if capitalizeNext then Upper(s[0]) else s[0]] + Camelize(s[1..], false)
  }

  /**
    The class segment of line 25: `''.join(upperfirst(w) for w in name.split('_'))`.
    It holds no underscore, and it is exactly one character shorter than the
    name for every underscore in the name.
  */
  function ClassSegment(configName: string): (seg: string)
    ensures seg == Camelize(configName, true)
    ensures Underscore !in seg
    ensures |seg| == |configName| - Underscores(configName)
  {
    SegmentIsCamelized(configName, true);
    CapitalizeAllCons(Split(configName));
    CamelizeDropsUnderscores(configName, true);
    CamelizeLength(configName, true);
    Concat(CapitalizeAll(Split(configName)))
  }

  /** Joining the pieces of `Split` with `_` gives back the input. */
  lemma {:induction false} SplitJoinRoundTrip(s: string)
    ensures JoinWith(Split(s), Underscore) == s
    decreases |s|
  {
    if s != [] {
      var rest := Split(s[1..]);
      SplitJoinRoundTrip(s[1..]);
      if s[0] == Underscore {
        assert Split(s) == [[]] + rest;
        assert JoinWith(Split(s), Underscore) == [] + [Underscore] + JoinWith(rest, Underscore);
      } else {
        assert Split(s) == [[s[0]] + rest[0]] + rest[1..];
        if |rest| == 1 {
          assert JoinWith(Split(s), Underscore) == [s[0]] + rest[0];
        } else {
          assert rest == [rest[0]] + rest[1..];
          assert JoinWith(rest, Underscore) == rest[0] + [Underscore] + JoinWith(rest[1..], Underscore);
          assert JoinWith(Split(s), Underscore)
              == ([s[0]] + rest[0]) + [Underscore] + JoinWith(rest[1..], Underscore);
        }
      }
      assert s == [s[0]] + s[1..];
    }
  }

  lemma ConcatCons(p: string, tail: seq<string>)
    ensures Concat([p] + tail) == p + Concat(tail)
  {
    assert ([p] + tail)[1..] == tail;
  }

  /** The first piece, capitalised or not, followed by the other pieces capitalised. */
  function CapitalizeTail(pieces: seq<string>, capitalizeFirst: bool): seq<string>
    requires |pieces| >= 1
  {
    [if capitalizeFirst then UpperFirst(pieces[0]) else pieces[0]] + CapitalizeAll(pieces[1..])
  }

  /**
    The split-and-capitalise derivation equals the character-level reference
    definition; the flag says whether the first piece is capitalised.
  */
  lemma {:induction false} SegmentIsCamelized(s: string, capitalizeNext: bool)
    ensures Concat(CapitalizeTail(Split(s), capitalizeNext)) == Camelize(s, capitalizeNext)
    decreases |s|
  {
    if s == [] {
      assert CapitalizeTail(Split(s), capitalizeNext) == [[]] + [];
    } else if s[0] == Underscore {
      SegmentIsCamelized(s[1..], true);
      UnderscoreStep(s, capitalizeNext);
    } else {
      SegmentIsCamelized(s[1..], false);
      LetterStep(s, capitalizeNext);
    }
  }

  lemma UnderscoreStep(s: string, capitalizeNext: bool)
    requires s != [] && s[0] == Underscore
    ensures Concat(CapitalizeTail(Split(s), capitalizeNext))
         == Concat(CapitalizeTail(Split(s[1..]), true))
  {
    var rest := Split(s[1..]);
    SplitUnderscore(s);
    CapitalizeAllCons(rest);
    assert CapitalizeTail(Split(s), capitalizeNext) == [[]] + CapitalizeAll(rest);
    ConcatCons([], CapitalizeAll(rest));
  }

  lemma LetterStep(s: string, capitalizeNext: bool)
    requires s != [] && s[0] != Underscore
    ensures Concat(CapitalizeTail(Split(s), capitalizeNext))
         == [if capitalizeNext then Upper(s[0]) else s[0]] + Concat(CapitalizeTail(Split(s[1..]), false))
  {
    var rest := Split(s[1..]);
    SplitLetter(s);
    var first := Split(s)[0];
    var head := [if capitalizeNext then Upper(s[0]) else s[0]];
    assert first[1..] == rest[0];
    var capFirst := if capitalizeNext then UpperFirst(first) else first;
    assert capFirst == [capFirst[0]] + capFirst[1..];
    assert capFirst == head + rest[0];
    assert CapitalizeTail(Split(s), capitalizeNext) == [head + rest[0]] + CapitalizeAll(rest[1..]);
    assert CapitalizeTail(rest, false) == [rest[0]] + CapitalizeAll(rest[1..]);
    var others := CapitalizeAll(rest[1..]);
    calc {
      Concat(CapitalizeTail(Split(s), capitalizeNext));
      Concat([head + rest[0]] + others);
      { ConcatCons(head + rest[0], others); }
      (head + rest[0]) + Concat(others);
      { ConcatAssoc(head, rest[0], Concat(others)); }
      head + (rest[0] + Concat(others));
      { ConcatCons(rest[0], others); }
      head + Concat([rest[0]] + others);
      head + Concat(CapitalizeTail(rest, false));
    }
  }

  lemma ConcatAssoc(a: string, b: string, c: string)
    ensures (a + b) + c == a + (b + c)
  {
  }

  lemma SplitUnderscore(s: string)
    requires s != [] && s[0] == Underscore
    ensures Split(s)[1..] == Split(s[1..]) && Split(s)[0] == []
  {
  }

  lemma SplitLetter(s: string)
    requires s != [] && s[0] != Underscore
    ensures Split(s)[0] == [s[0]] + Split(s[1..])[0]
    ensures Split(s)[1..] == Split(s[1..])[1..]
  {
  }

  lemma CapitalizeAllCons(pieces: seq<string>)
    requires pieces != []
    ensures CapitalizeAll(pieces) == [UpperFirst(pieces[0])] + CapitalizeAll(pieces[1..])
  {
  }

  lemma {:induction false} CamelizeDropsUnderscores(s: string, capitalizeNext: bool)
    ensures Underscore !in Camelize(s, capitalizeNext)
    decreases |s|
  {
    if s != [] {
      CamelizeDropsUnderscores(s[1..], s[0] == Underscore);
      CamelizeDropsUnderscores(s[1..], false);
    }
  }

  lemma {:induction false} CamelizeLength(s: string, capitalizeNext: bool)
    ensures |Camelize(s, capitalizeNext)| == |s| - Underscores(s)
    decreases |s|
  {
    if s != [] {
      CamelizeLength(s[1..], true);
      CamelizeLength(s[1..], false);
    }
  }

  /** Characters a configuration name may hold, by the pattern `^[a-z_]+$`. */
  predicate LowerOrUnderscore(c: char)
  {
    'a' <= c <= 'z' || c == Underscore
  }

  predicate AsciiLetter(c: char)
  {
    'a' <= c <= 'z' || 'A' <= c <= 'Z'
  }

  /**
    On names made of lower-case letters and underscores the segment holds only
    letters, is empty exactly when the name holds no letter, and otherwise
    starts with an upper-case letter.
  */
  lemma {:induction false} CamelizeOfLowerName(s: string, capitalizeNext: bool)
    requires forall i :: 0 <= i < |s| ==> LowerOrUnderscore(s[i])
    ensures var r := Camelize(s, capitalizeNext);
      && (forall i :: 0 <= i < |r| ==> AsciiLetter(r[i]))
      && (r == [] <==> forall i :: 0 <= i < |s| ==> s[i] == Underscore)
      && (r != [] && capitalizeNext ==> 'A' <= r[0] <= 'Z')
      && (r != [] && !capitalizeNext && s[0] != Underscore ==> r[0] == s[0])
    decreases |s|
  {
    if s != [] {
      var tail := s[1..];
      assert forall i :: 0 <= i < |tail| ==> tail[i] == s[i + 1];
      CamelizeOfLowerName(tail, s[0] == Underscore);
      CamelizeOfLowerName(tail, false);
    }
  }

  /**
    Two different valid names can share a class segment: `a_b` and `a__b`
    both give `AB`, although their schema paths differ.
  */
  lemma SegmentNotInjective()
    ensures ClassSegment("a_b") == ClassSegment("a__b") == "AB"
    ensures XsdPath("a_b") != XsdPath("a__b")
  {
    assert Camelize("b", false) == "b";
    assert Camelize("_b", false) == "B";
    assert Camelize("__b", false) == "B";
    assert Camelize("a_b", true) == "AB";
    assert Camelize("a__b", true) == "AB";
  }

  /** Path of the per-file schema (line 42). */
  function XsdPath(configName: string): (p: string)
    ensures |p| == |configName| + 8
    ensures p[..4] == "etc/" && p[4..|p| - 4] == configName && p[|p| - 4..] == ".xsd"
  {
    "etc/" + configName + ".xsd"
  }

  /** Path of the merged schema (line 48). */
  function MergedXsdPath(configName: string): (p: string)
    ensures |p| == |configName| + 15
    ensures p[..4] == "etc/" && p[4..|p| - 11] == configName && p[|p| - 11..] == "_merged.xsd"
  {
    "etc/" + configName + "_merged.xsd"
  }

  /** The two schema paths of one name never coincide; each path determines the name. */
  lemma SchemaPathsDistinct(configName: string, other: string)
    ensures XsdPath(configName) != MergedXsdPath(configName)
    ensures XsdPath(configName) == XsdPath(other) <==> configName == other
    ensures MergedXsdPath(configName) == MergedXsdPath(other) <==> configName == other
  {
    if XsdPath(configName) == XsdPath(other) {
      assert configName == XsdPath(configName)[4..|configName| + 4];
    }
    if MergedXsdPath(configName) == MergedXsdPath(other) {
      assert configName == MergedXsdPath(configName)[4..|configName| + 4];
    }
  }

  /**
    Across two invocations the paths can meet: the merged schema of `c` sits
    where the per-file schema of `c_merged` (also a valid name) sits.
  */
  lemma MergedPathOverlapsPerFilePath(configName: string)
    ensures MergedXsdPath(configName) == XsdPath(configName + "_merged")
  {
  }

  /** The URN under which the framework resolves a module's schema file (line 46). */
  function SchemaUrn(moduleName: string, configName: string): (urn: string)
    ensures urn == "urn:magento:module:" + moduleName + ":" + XsdPath(configName)
  {
    "urn:magento:module:" + moduleName + ":etc/" + configName + ".xsd"
  }

  /** `{node}Type`, the schema type name derived from a node name (lines 32, 36). */
  function TypeName(nodeName: string): (t: string)
    ensures |t| == |nodeName| + 4 && t[..|nodeName|] == nodeName && t[|nodeName|..] == "Type"
  {
    nodeName + "Type"
  }

  /** `Config\{X}\{leaf}`: the PHP class name of one generated class (lines 51, 77, 112). */
  function ClassName(segment: string, leaf: string): (name: string)
    ensures |name| == |segment| + 8 + |leaf|
    ensures name[..7 + |segment| + 1] == ClassNamespace(segment)
    ensures name[7 + |segment| + 1..] == leaf
  {
    ClassNamespace(segment) + leaf
  }

  function ClassNamespace(segment: string): (ns: string)
    ensures |ns| == |segment| + 8
    ensures ns[..7] == "Config\\" && ns[7..|ns| - 1] == segment && ns[|ns| - 1] == '\\'
  {
    "Config\\" + segment + "\\"
  }

  /**
    The example run (configuration name `example`): the class
    segment is `Example`, the schemas go to `etc/example.xsd` and
    `etc/example_merged.xsd`, and the classes are
    `Config\Example\SchemaLocator`, `Config\Example\Converter` and
    `Config\Example\Reader`.
  */
  lemma ExampleSegment()
    ensures ClassSegment("example") == "Example"
  {
    ExampleCamelized();
  }

  lemma ExampleCamelized()
    ensures Camelize("example", true) == "Example"
  {
    var tail := "xample";
    assert "example" == ['e'] + tail;
    CamelizeKeepsPlainWord(tail);
  }

  /** Without an underscore and with nothing to capitalize, camel-casing leaves a word unchanged. */
  lemma {:induction false} CamelizeKeepsPlainWord(s: string)
    requires Underscore !in s
    ensures Camelize(s, false) == s
    decreases |s|
  {
    if s != [] {
      assert Underscore !in s[1..] by {
        forall i | 0 <= i < |s| - 1 ensures s[1..][i] != Underscore {
          assert s[1..][i] == s[i + 1];
        }
      }
      CamelizeKeepsPlainWord(s[1..]);
    }
  }

  lemma ExamplePaths()
    ensures XsdPath("example") == "etc/example.xsd"
    ensures MergedXsdPath("example") == "etc/example_merged.xsd"
  {
  }

  lemma ExampleClassNames()
    ensures ClassName("Example", "SchemaLocator") == "Config\\Example\\SchemaLocator"
    ensures ClassName("Example", "Converter") == "Config\\Example\\Converter"
    ensures ClassName("Example", "Reader") == "Config\\Example\\Reader"
  {
    ExampleNamespace();
  }

  lemma ExampleNamespace()
    ensures ClassNamespace("Example") == "Config\\Example\\"
  {
  }
}
