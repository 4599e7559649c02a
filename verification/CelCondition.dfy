/** How CEL reads the comparisons that stand in policy conditions: an attribute path, an operator and a
    string literal, with spaces between them. */
module CelCondition {
  import opened Options
  import CelLiteral

  /** The attributes of a request, by path. */
  type Attributes = map<string, string>

  predicate IsPathChar(c: char) {
    'a' <= c <= 'z' || 'A' <= c <= 'Z' || '0' <= c <= '9' || c == '_' || c == '.'
  }

  /** The attribute path at the start of an expression. */
  function PathOf(expr: string): string {
    if expr == "" || !IsPathChar(expr[0]) then "" else [expr[0]] + PathOf(expr[1..])
  }

  lemma {:induction false} PathIsPrefix(expr: string)
    ensures PathOf(expr) <= expr
  {
    if expr != "" && IsPathChar(expr[0]) {
      PathIsPrefix(expr[1..]);
    }
  }

  function SkipSpaces(s: string): string {
    if s == "" || s[0] != ' ' then s else SkipSpaces(s[1..])
  }

  datatype Comparison = Equal | Different

  /** The operator at the start of `s`. */
  function ComparisonOf(s: string): Option<Comparison> {
    if |s| < 2 then None
    else if s[0] == '=' && s[1] == '=' then Some(Equal)
    else if s[0] == '!' && s[1] == '=' then Some(Different)
    else None
  }

  /** The value of an expression, or None when it is none of these or an attribute is missing. */
  function Evaluate(expr: string, attributes: Attributes): Option<bool> {
    PathIsPrefix(expr);
    var path := PathOf(expr);
    var rest := SkipSpaces(expr[|path|..]);
    var comparison := ComparisonOf(rest);
    if path !in attributes || comparison.None? then None
    else
      var text := CelLiteral.Decode(SkipSpaces(rest[2..]));
      if text.None? then None
      else
        var equal := attributes[path] == text.value;
        Some(if comparison.value.Equal? then equal else !equal)
  }

  lemma {:induction false} PathEnds(path: string, rest: string)
    requires forall i :: 0 <= i < |path| ==> IsPathChar(path[i])
    requires rest != "" && !IsPathChar(rest[0])
    ensures PathOf(path + rest) == path
  {
    if path == "" {
      assert path + rest == rest;
    } else {
      assert (path + rest)[1..] == path[1..] + rest;
      PathEnds(path[1..], rest);
    }
  }

  /** Comparing an attribute with a printed literal for equality. */
  lemma EqualityIsRead(path: string, literal: string, attributes: Attributes)
    requires forall i :: 0 <= i < |path| ==> IsPathChar(path[i])
    requires literal != "" && literal[0] == '"'
    requires path in attributes && CelLiteral.Decode(literal).Some?
    ensures Evaluate(path + " == " + literal, attributes)
      == Some(attributes[path] == CelLiteral.Decode(literal).value)
  {
    var rest := " == " + literal;
    assert path + " == " + literal == path + rest;
    PathEnds(path, rest);
    assert (path + rest)[|path|..] == rest;
    assert rest[1..] == "== " + literal;
    assert SkipSpaces(rest) == "== " + literal;
    assert ("== " + literal)[2..] == " " + literal;
    assert (" " + literal)[1..] == literal;
    assert SkipSpaces(" " + literal) == SkipSpaces(literal) == literal;
  }
}
