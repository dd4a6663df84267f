/**
  The parsed syntax tree handed to a bundle (namespace Linguini.Syntax.Ast),
  kept to the shape that the error factories and the bundle builder inspect.
  Identifiers are plain strings.
 */
module Ast {
  import opened Wrappers

  /** A parse failure; only its message is observable here. */
  datatype ParseError = ParseError(message: string)

  /** One parsed resource: its entries in source order and the parse errors met on the way. */
  datatype Resource = Resource(body: seq<Entry>, errors: seq<ParseError>)

  /** The top-level entries of a resource (the implementations of IEntry). */
  datatype Entry =
    | AstMessage(id: string, value: Option<Pattern>, attributes: seq<Attribute>)
    | AstTerm(id: string, termValue: Pattern, attributes: seq<Attribute>)
    | AstComment(content: string)
    | Junk(content: string)

  datatype Attribute = Attribute(id: string, value: Pattern)

  datatype Pattern = Pattern(elements: seq<PatternElement>)

  datatype PatternElement =
    | TextElement(value: string)
    | PlaceableElement(expression: Expression)

  datatype Expression =
    | InlineExpr(inner: InlineExpression)
    | SelectExpression(selector: InlineExpression, variants: seq<Variant>)

  datatype Variant = Variant(key: VariantKey, value: Pattern, isDefault: bool)

  datatype VariantKey = IdentifierKey(name: string) | NumberKey(literal: string)

  /** The implementations of IInlineExpression. */
  datatype InlineExpression =
    | TextLiteral(value: string)
    | NumberLiteral(value: string)
    | FunctionReference(id: string, arguments: CallArguments)
    | MessageReference(id: string, attribute: Option<string>)
    | TermReference(id: string, attribute: Option<string>, termArguments: Option<CallArguments>)
    | VariableReference(id: string)
    | Placeable(expression: Expression)

  datatype CallArguments = CallArguments(positional: seq<InlineExpression>, named: seq<NamedArgument>)

  datatype NamedArgument = NamedArgument(name: string, value: InlineExpression)

  /** The four inline expressions that name something to look up. */
  predicate IsReference(e: InlineExpression)
  {
    e.FunctionReference? || e.MessageReference? || e.TermReference? || e.VariableReference?
  }

  predicate IsLetter(c: char)
  {
    ('a' <= c <= 'z') || ('A' <= c <= 'Z')
  }

  /** Fluent's identifier grammar: a letter, then letters, digits, `_` or `-`. */
  predicate IsIdentifier(s: string)
  {
    && |s| > 0
    && IsLetter(s[0])
    && forall i :: 0 <= i < |s| ==> IsLetter(s[i]) || ('0' <= s[i] <= '9') || s[i] == '_' || s[i] == '-'
  }
}
