/**
  The closed family of bundle errors (Linguini.Bundle.Errors): the override,
  resolver and parser error records, the kind each reports, the text each
  renders, and the entry classifier used in override messages.
 */
module FluentErrors {
  import opened Ast

  /** The kind an error reports (enum ErrorType). */
  datatype ErrorType = Parser | Reference | Cyclic | NoValue | TooManyPlaceables | Overriding | MissingDefault

  /** The kind of a registered entry (enum EntryKind). */
  datatype EntryKind = Message | Term | Unknown

  /** The text the enum's ToString() renders: the member's own name. */
  function KindName(k: EntryKind): string
  {
    match k
    case Message => "Message"
    case Term => "Term"
    case Unknown => "Unknown"
  }

  /**
    The kinds a resolver error can carry: ResolverFluentError's constructor is
    private and its factories never pass Parser or Overriding.
   */
  type ResolverKind = k: ErrorType | k != Parser && k != Overriding witness Reference

  /**
    One error record. A resolver error keeps the description and kind it
    was built with; the other two derive both from their payload.
   */
  datatype FluentError =
    | OverrideError(id: string, kind: EntryKind)
    | ResolverError(description: string, errorType: ResolverKind)
    | ParserError(error: ParseError)
  {
    /** Each record's kind: Overriding and Parser belong to exactly one record type each. */
    function ErrorKind(): (k: ErrorType)
      ensures k == Overriding <==> OverrideError?
      ensures k == Parser <==> ParserError?
      ensures ResolverError? ==> k == errorType
    {
      match this
      case OverrideError(_, _) => Overriding
      case ResolverError(_, k) => k
      case ParserError(_) => Parser
    }

    function ToString(): string
    {
      match this
      case OverrideError(id, k) => "For id:" + id + OverrideSuffix(k)
      case ResolverError(d, _) => d
      case ParserError(e) => e.message
    }
  }

  /** The fixed tail of an override message for an entry of kind `k`. */
  function OverrideSuffix(k: EntryKind): string
  {
    " already exist entry of type: " + KindName(k)
  }

  /** `new OverrideFluentError(id, kind)`: an id registered twice. */
  function NewOverride(id: string, kind: EntryKind): (r: FluentError)
    ensures r.ErrorKind() == Overriding
    ensures r.ToString() == "For id:" + id + OverrideSuffix(kind)
  {
    OverrideError(id, kind)
  }

  /** `ParserFluentError.ParseError(e)`: wraps a parse failure and passes its message through. */
  function OfParseError(e: ParseError): (r: FluentError)
    ensures r.ErrorKind() == Parser
    ensures r.ToString() == e.message
  {
    ParserError(e)
  }

  /** `EntryHelper.ToKind`: terms are tested first, then messages; comments and junk are Unknown. */
  function ToKind(e: Entry): (k: EntryKind)
    ensures k == Term <==> e.AstTerm?
    ensures k == Message <==> e.AstMessage?
    ensures k == Unknown <==> (e.AstComment? || e.Junk?)
  {
    if e.AstTerm? then Term
    else if e.AstMessage? then Message
    else Unknown
  }
}

/**
  The static factories of ResolverFluentError. Each fixes the kind and the
  description of the error it builds.
 */
module ResolverFluentError {
  import opened Ast
  import FE = FluentErrors

  /** A ReadOnlyMemory<char>: a window of `length` characters into `buffer` from `start`. */
  datatype MemorySlice = MemorySlice(buffer: seq<char>, start: nat, length: nat)
  type CharMemory = m: MemorySlice | m.start + m.length <= |m.buffer| witness MemorySlice([], 0, 0)

  /** `memory.Span.ToString()`: the characters the window covers. */
  function SpanText(m: CharMemory): (s: string)
    ensures |s| == m.length
    ensures forall i :: 0 <= i < m.length ==> s[i] == m.buffer[m.start + i]
  {
    m.buffer[m.start..m.start + m.length]
  }

  /** `NoValue(string)`: an entry or attribute with no pattern. */
  function NoValue(pattern: string): (r: FE.FluentError)
    ensures r.ErrorKind() == FE.ErrorType.NoValue
    ensures r.ToString() == "No value: " + pattern
  {
    FE.ResolverError("No value: " + pattern, FE.ErrorType.NoValue)
  }

  /** `NoValue(ReadOnlyMemory<char>)`: the same error as the string overload on the window's text. */
  function NoValueOfId(idName: CharMemory): (r: FE.FluentError)
    ensures r == NoValue(SpanText(idName))
    ensures r.ErrorKind() == FE.ErrorType.NoValue
  {
    FE.ResolverError("No value: " + idName.buffer[idName.start..idName.start + idName.length], FE.ErrorType.NoValue)
  }

  /** `UnknownVariable(VariableReference)`: a `$name` with no argument bound. */
  function UnknownVariable(v: InlineExpression): (r: FE.FluentError)
    requires v.VariableReference?
    ensures r.ErrorKind() == FE.ErrorType.Reference
    ensures r.ToString() == "Unknown variable: $" + v.id
  {
    FE.ResolverError("Unknown variable: $" + v.id, FE.ErrorType.Reference)
  }

  /** `TooManyPlaceables()`: the expansion ceiling was hit. */
  function TooManyPlaceables(): (r: FE.FluentError)
    ensures r.ErrorKind() == FE.ErrorType.TooManyPlaceables
    ensures r.ToString() == "Too many placeables"
  {
    FE.ResolverError("Too many placeables", FE.ErrorType.TooManyPlaceables)
  }

  /**
    `Reference(IInlineExpression)`: an unresolvable reference. The type tests
    run function, message, term, variable; any other expression makes the
    source throw ArgumentException, so it is excluded here.
   */
  function Reference(self: InlineExpression): (r: FE.FluentError)
    requires IsReference(self)
    ensures r.ErrorKind() == FE.ErrorType.Reference
    ensures self.FunctionReference? ==> r.ToString() == "Unknown function: " + self.id + "()"
    ensures self.MessageReference? && self.attribute.None? ==> r.ToString() == "Unknown message: " + self.id
    ensures self.MessageReference? && self.attribute.Some? ==>
              r.ToString() == "Unknown attribute: " + self.id + "." + self.attribute.value
    ensures self.TermReference? && self.attribute.None? ==> r.ToString() == "Unknown term: -" + self.id
    ensures self.TermReference? && self.attribute.Some? ==>
              r.ToString() == "Unknown attribute: -" + self.id + "." + self.attribute.value
    ensures self.VariableReference? ==> r == UnknownVariable(self)
  {
    match self
    case FunctionReference(id, _) =>
      FE.ResolverError("Unknown function: " + id + "()", FE.ErrorType.Reference)
    case MessageReference(id, attribute) =>
      if attribute.None? then FE.ResolverError("Unknown message: " + id, FE.ErrorType.Reference)
      else FE.ResolverError("Unknown attribute: " + id + "." + attribute.value, FE.ErrorType.Reference)
    case TermReference(id, attribute, _) =>
      if attribute.None? then FE.ResolverError("Unknown term: -" + id, FE.ErrorType.Reference)
      else FE.ResolverError("Unknown attribute: -" + id + "." + attribute.value, FE.ErrorType.Reference)
    case VariableReference(id) =>
      FE.ResolverError("Unknown variable: $" + id, FE.ErrorType.Reference)
  }

  /** `Cyclic(Pattern)`: a reference loop; `stringify` is the syntax printer's `Pattern.Stringify()`. */
  function Cyclic(pattern: Pattern, stringify: Pattern -> string): (r: FE.FluentError)
    ensures r.ErrorKind() == FE.ErrorType.Cyclic
    ensures r.ToString() == "Cyclic pattern " + stringify(pattern) + " detected!"
  {
    FE.ResolverError("Cyclic pattern " + stringify(pattern) + " detected!", FE.ErrorType.Cyclic)
  }

  /** `MissingDefault()`: a select expression without a default variant. */
  function MissingDefault(): (r: FE.FluentError)
    ensures r.ErrorKind() == FE.ErrorType.MissingDefault
    ensures r.ToString() == "No default"
  {
    FE.ResolverError("No default", FE.ErrorType.MissingDefault)
  }
}
