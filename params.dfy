/**
  The parameter schema of the configuration-type generator
  (mage2gen/snippets/configurationtype.py, lines 160-183), and the pattern
  its three parameters are validated against.
*/
module SnippetParams {
  import opened Wrappers
  import Naming

  /** The one validator the schema uses: the regular expression `^[a-z_]+$`. */
  datatype Validator = LowerAlphaUnderscore

  /** `^[a-z_]+$`: at least one character, each a lower-case ASCII letter or `_`. */
  predicate Matches(v: Validator, value: string)
  {
    match v
    case LowerAlphaUnderscore =>
      |value| > 0 && forall i :: 0 <= i < |value| ==> Naming.LowerOrUnderscore(value[i])
  }

  /**
    `[a-z_]+` read the way a regular-expression engine reads `+`: one
    character of the class, then either the end or one or more further ones.
  */
  predicate OneOrMore(value: string)
    decreases |value|
  {
    |value| >= 1 && Naming.LowerOrUnderscore(value[0])
    && (|value| == 1 || OneOrMore(value[1..]))
  }

  /** The character-class reading of the pattern agrees with the `+` reading, for every value. */
  lemma {:induction false} MatchesOneOrMore(value: string)
    ensures Matches(LowerAlphaUnderscore, value) <==> OneOrMore(value)
    decreases |value|
  {
    if |value| > 1 {
      MatchesOneOrMore(value[1..]);
      if Matches(LowerAlphaUnderscore, value[1..]) && Naming.LowerOrUnderscore(value[0]) {
        forall i | 0 <= i < |value| ensures Naming.LowerOrUnderscore(value[i]) {
          if i > 0 { assert value[i] == value[1..][i - 1]; }
        }
      }
      if Matches(LowerAlphaUnderscore, value) {
        forall i | 0 <= i < |value| - 1 ensures Naming.LowerOrUnderscore(value[1..][i]) {
          assert value[1..][i] == value[i + 1];
        }
      }
    }
  }

  /** A declared parameter; `repeat` is false where the declaration does not set it. */
  datatype SnippetParam = SnippetParam(
    name: string,
    description: string,
    required: bool,
    regexValidator: Option<Validator>,
    errorMessage: string,
    repeat: bool)

  const LowerAlphaMessage: string := "Only lower case alphabet and underscore characters"

  /**
    The schema: `config_name`, `node_name` and `field_name`, in that order,
    all required, all checked by `^[a-z_]+$` with the same message; only the
    first two repeat.
  */
  function Params(): (ps: seq<SnippetParam>)
    ensures |ps| == 3
    ensures ps[0].name == "config_name" && ps[1].name == "node_name" && ps[2].name == "field_name"
    ensures forall i :: 0 <= i < |ps| ==>
      ps[i].required && ps[i].regexValidator == Some(LowerAlphaUnderscore)
      && ps[i].errorMessage == LowerAlphaMessage
    ensures forall i :: 0 <= i < |ps| ==> (ps[i].repeat <==> i < 2)
    ensures forall i, j :: 0 <= i < j < |ps| ==> ps[i].name != ps[j].name
  {
    [ SnippetParam("config_name", "XML config filename", true,
        Some(LowerAlphaUnderscore), LowerAlphaMessage, true),
      SnippetParam("node_name", "Repeating XML node name", true,
        Some(LowerAlphaUnderscore), LowerAlphaMessage, true),
      SnippetParam("field_name", "Configuration field name", true,
        Some(LowerAlphaUnderscore), LowerAlphaMessage, false) ]
  }

  /** A value passes a parameter's check when it matches the parameter's pattern, if it has one. */
  predicate Accepts(p: SnippetParam, value: string)
  {
    match p.regexValidator
    case None => true
    case Some(v) => Matches(v, value)
  }

  /**
    Every valid configuration name yields a class segment of ASCII letters
    starting with a capital, or the empty segment when the name is all
    underscores (`_` itself passes the pattern).
  */
  lemma ValidConfigNameSegment(configName: string)
    requires Accepts(Params()[0], configName)
    ensures var seg := Naming.ClassSegment(configName);
      && (forall i :: 0 <= i < |seg| ==> Naming.AsciiLetter(seg[i]))
      && (seg == [] <==> forall i :: 0 <= i < |configName| ==> configName[i] == Naming.Underscore)
      && (seg != [] ==> 'A' <= seg[0] <= 'Z')
  {
    Naming.CamelizeOfLowerName(configName, true);
  }

  /** The all-underscore name `_` is accepted and gives the empty class segment. */
  lemma UnderscoreOnlyNameGivesEmptySegment()
    ensures Accepts(Params()[0], "_")
    ensures Naming.ClassSegment("_") == []
  {
    assert Naming.Camelize("_", true) == Naming.Camelize([], true);
  }
}
