/**
  Reading error texts back. The descriptions the factories render are
  decodable: an override message gives back its id and entry kind, a
  reference message gives back what was referenced, and every resolver
  description gives back its kind. These decoders are the partners against
  which the factories' text layouts are proved unambiguous.
 */
module ErrorText {
  import opened Wrappers
  import opened Ast
  import FE = FluentErrors
  import RFE = ResolverFluentError

  /** `s` without the leading `prefix`, if it starts with it. */
  function StripPrefix(prefix: string, s: string): (r: Option<string>)
    ensures r.Some? <==> prefix <= s
    ensures r.Some? ==> s == prefix + r.value
  {
    if prefix <= s then Some(s[|prefix|..]) else None
  }

  /** `s` without the trailing `suffix`, if it ends with it. */
  function StripSuffix(suffix: string, s: string): (r: Option<string>)
    ensures r.Some? <==> |suffix| <= |s| && s[|s| - |suffix|..] == suffix
    ensures r.Some? ==> s == r.value + suffix
  {
    if |suffix| <= |s| && s[|s| - |suffix|..] == suffix then Some(s[..|s| - |suffix|]) else None
  }

  /** Splits `s` at the first occurrence of `c`; the second part is None when `c` does not occur. */
  function SplitFirst(s: string, c: char): (r: (string, Option<string>))
    ensures r.1.None? ==> r.0 == s && c !in s
    ensures r.1.Some? ==> s == r.0 + [c] + r.1.value && c !in r.0
  {
    if s == [] then ([], None)
    else if s[0] == c then ([], Some(s[1..]))
    else
      var (head, tail) := SplitFirst(s[1..], c);
      ([s[0]] + head, tail)
  }

  lemma StripPrefixOf(prefix: string, x: string)
    ensures StripPrefix(prefix, prefix + x) == Some(x)
  {
    assert (prefix + x)[|prefix|..] == x;
  }

  lemma StripSuffixOf(suffix: string, x: string)
    ensures StripSuffix(suffix, x + suffix) == Some(x)
  {
    var s := x + suffix;
    assert s[|s| - |suffix|..] == suffix;
    assert s[..|s| - |suffix|] == x;
  }

  /** Two texts that differ at position `k` cannot be prefix of one another. */
  lemma NotPrefixAt(prefix: string, s: string, k: nat)
    requires k < |prefix| && k < |s| && prefix[k] != s[k]
    ensures StripPrefix(prefix, s) == None
  {
  }

  /** Splitting at the first `c` recovers the part before it when that part holds no `c`. */
  lemma {:induction false} SplitFirstOf(a: string, c: char, b: string)
    requires c !in a
    ensures SplitFirst(a + [c] + b, c) == (a, Some(b))
  {
    if a == [] {
      assert a + [c] + b == [c] + b;
    } else {
      var s := a + [c] + b;
      assert s[0] == a[0] && a[0] != c;
      assert s[1..] == a[1..] + [c] + b;
      SplitFirstOf(a[1..], c, b);
      assert [a[0]] + a[1..] == a;
    }
  }

  // ---------------------------------------------------------------- overrides

  /** Reads an override message back into its id and entry kind. */
  function ParseOverrideText(s: string): Option<(string, FE.EntryKind)>
  {
    match StripPrefix("For id:", s)
    case None => None
    case Some(rest) =>
      var m := StripSuffix(FE.OverrideSuffix(FE.EntryKind.Message), rest);
      var t := StripSuffix(FE.OverrideSuffix(FE.EntryKind.Term), rest);
      var u := StripSuffix(FE.OverrideSuffix(FE.EntryKind.Unknown), rest);
      if m.Some? then Some((m.value, FE.EntryKind.Message))
      else if t.Some? then Some((t.value, FE.EntryKind.Term))
      else if u.Some? then Some((u.value, FE.EntryKind.Unknown))
      else None
  }

  /** The last letter of each kind name differs, so no override tail ends another kind's message. */
  lemma OtherSuffixFails(id: string, k: FE.EntryKind, other: FE.EntryKind)
    requires other != k
    ensures StripSuffix(FE.OverrideSuffix(other), id + FE.OverrideSuffix(k)) == None
  {
    var s := id + FE.OverrideSuffix(k);
    var suf := FE.OverrideSuffix(other);
    assert s[|s| - 1] == FE.KindName(k)[|FE.KindName(k)| - 1];
    assert suf[|suf| - 1] == FE.KindName(other)[|FE.KindName(other)| - 1];
  }

  /** An override error's text determines its id and kind, whatever the id. */
  lemma OverrideTextRoundTrip(id: string, kind: FE.EntryKind)
    ensures ParseOverrideText(FE.NewOverride(id, kind).ToString()) == Some((id, kind))
  {
    var rest := id + FE.OverrideSuffix(kind);
    assert FE.NewOverride(id, kind).ToString() == "For id:" + rest;
    StripPrefixOf("For id:", rest);
    StripSuffixOf(FE.OverrideSuffix(kind), id);
    match kind
    case Message =>
    case Term =>
      OtherSuffixFails(id, kind, FE.EntryKind.Message);
    case Unknown =>
      OtherSuffixFails(id, kind, FE.EntryKind.Message);
      OtherSuffixFails(id, kind, FE.EntryKind.Term);
  }

  // --------------------------------------------------------------- references

  /** What an unresolvable reference names, without its call arguments. */
  datatype RefTarget =
    | FunctionTarget(id: string)
    | MessageTarget(id: string, attribute: Option<string>)
    | TermTarget(id: string, attribute: Option<string>)
    | VariableTarget(id: string)

  function TargetOf(e: InlineExpression): RefTarget
    requires IsReference(e)
  {
    match e
    case FunctionReference(id, _) => FunctionTarget(id)
    case MessageReference(id, attribute) => MessageTarget(id, attribute)
    case TermReference(id, attribute, _) => TermTarget(id, attribute)
    case VariableReference(id) => VariableTarget(id)
  }

  /** Reads an attribute reference `id.attr` (with `-` before a term id) back. */
  function ParseAttributeText(rest: string): Option<RefTarget>
  {
    if rest != [] && rest[0] == '-' then
      var (id, attribute) := SplitFirst(rest[1..], '.');
      if attribute.Some? then Some(TermTarget(id, attribute)) else None
    else
      var (id, attribute) := SplitFirst(rest, '.');
      if attribute.Some? then Some(MessageTarget(id, attribute)) else None
  }

  /** Reads an unknown-reference description back into what was referenced. */
  function ParseReferenceText(s: string): Option<RefTarget>
  {
    var f := StripPrefix(FunctionPrefix, s);
    var m := StripPrefix(MessagePrefix, s);
    var t := StripPrefix(TermPrefix, s);
    var v := StripPrefix(VariablePrefix, s);
    var a := StripPrefix(AttributePrefix, s);
    if f.Some? then
      (match StripSuffix("()", f.value)
       case Some(id) => Some(FunctionTarget(id))
       case None => None)
    else if m.Some? then Some(MessageTarget(m.value, None))
    else if t.Some? then Some(TermTarget(t.value, None))
    else if v.Some? then Some(VariableTarget(v.value))
    else if a.Some? then ParseAttributeText(a.value)
    else None
  }

  /** After the shared "Unknown " the next letter of each reference prefix differs. */
  lemma ReferencePrefixesDiffer(s: string, own: string, others: seq<string>)
    requires own <= s && |own| > 8
    requires forall o :: o in others ==> |o| > 8 && o[8] != own[8]
    ensures forall o :: o in others ==> StripPrefix(o, s) == None
  {
    forall o | o in others
      ensures StripPrefix(o, s) == None
    {
      assert own == s[..|own|];
      NotPrefixAt(o, s, 8);
    }
  }

  const FunctionPrefix := "Unknown function: "
  const MessagePrefix := "Unknown message: "
  const TermPrefix := "Unknown term: -"
  const VariablePrefix := "Unknown variable: $"
  const AttributePrefix := "Unknown attribute: "

  /** A Fluent identifier holds no `.`, so an attribute reference splits at its first `.`. */
  lemma IdentifierHasNoDot(id: string)
    requires IsIdentifier(id)
    ensures '.' !in id && id[0] != '-'
  {
    assert forall i :: 0 <= i < |id| ==> id[i] != '.';
  }

  lemma FunctionTextRoundTrip(e: InlineExpression)
    requires e.FunctionReference?
    ensures ParseReferenceText(RFE.Reference(e).ToString()) == Some(FunctionTarget(e.id))
  {
    var s := RFE.Reference(e).ToString();
    assert s == FunctionPrefix + (e.id + "()");
    StripPrefixOf(FunctionPrefix, e.id + "()");
    StripSuffixOf("()", e.id);
  }

  lemma MessageTextRoundTrip(e: InlineExpression)
    requires e.MessageReference? && IsIdentifier(e.id)
    ensures ParseReferenceText(RFE.Reference(e).ToString()) == Some(MessageTarget(e.id, e.attribute))
  {
    var s := RFE.Reference(e).ToString();
    if e.attribute.None? {
      StripPrefixOf(MessagePrefix, e.id);
      ReferencePrefixesDiffer(s, MessagePrefix, [FunctionPrefix]);
    } else {
      var rest := e.id + "." + e.attribute.value;
      assert s == AttributePrefix + rest;
      StripPrefixOf(AttributePrefix, rest);
      ReferencePrefixesDiffer(s, AttributePrefix, [FunctionPrefix, MessagePrefix, TermPrefix, VariablePrefix]);
      IdentifierHasNoDot(e.id);
      assert rest[0] == e.id[0];
      SplitFirstOf(e.id, '.', e.attribute.value);
    }
  }

  lemma TermTextRoundTrip(e: InlineExpression)
    requires e.TermReference? && IsIdentifier(e.id)
    ensures ParseReferenceText(RFE.Reference(e).ToString()) == Some(TermTarget(e.id, e.attribute))
  {
    var s := RFE.Reference(e).ToString();
    if e.attribute.None? {
      StripPrefixOf(TermPrefix, e.id);
      ReferencePrefixesDiffer(s, TermPrefix, [FunctionPrefix, MessagePrefix]);
    } else {
      var rest := "-" + e.id + "." + e.attribute.value;
      assert s == AttributePrefix + rest;
      StripPrefixOf(AttributePrefix, rest);
      ReferencePrefixesDiffer(s, AttributePrefix, [FunctionPrefix, MessagePrefix, TermPrefix, VariablePrefix]);
      IdentifierHasNoDot(e.id);
      assert rest[1..] == e.id + "." + e.attribute.value;
      SplitFirstOf(e.id, '.', e.attribute.value);
    }
  }

  lemma VariableTextRoundTrip(e: InlineExpression)
    requires e.VariableReference?
    ensures ParseReferenceText(RFE.Reference(e).ToString()) == Some(VariableTarget(e.id))
  {
    var s := RFE.Reference(e).ToString();
    StripPrefixOf(VariablePrefix, e.id);
    ReferencePrefixesDiffer(s, VariablePrefix, [FunctionPrefix, MessagePrefix, TermPrefix]);
  }

  /** A reference error's text determines the referenced target, given Fluent identifiers. */
  lemma ReferenceTextRoundTrip(e: InlineExpression)
    requires IsReference(e)
    requires IsIdentifier(e.id)
    ensures ParseReferenceText(RFE.Reference(e).ToString()) == Some(TargetOf(e))
  {
    match e
    case FunctionReference(_, _) => FunctionTextRoundTrip(e);
    case MessageReference(_, _) => MessageTextRoundTrip(e);
    case TermReference(_, _, _) => TermTextRoundTrip(e);
    case VariableReference(_) => VariableTextRoundTrip(e);
  }

  /** Distinct references (up to call arguments) never share an error text. */
  lemma ReferenceTextsDistinguish(a: InlineExpression, b: InlineExpression)
    requires IsReference(a) && IsReference(b)
    requires IsIdentifier(a.id) && IsIdentifier(b.id)
    requires TargetOf(a) != TargetOf(b)
    ensures RFE.Reference(a).ToString() != RFE.Reference(b).ToString()
  {
    ReferenceTextRoundTrip(a);
    ReferenceTextRoundTrip(b);
  }

  // ------------------------------------------------------------ resolver kinds

  /** One call of a ResolverFluentError factory, with its arguments. */
  datatype ResolverCall =
    | NoValueCall(pattern: string)
    | NoValueOfIdCall(idName: RFE.CharMemory)
    | UnknownVariableCall(variable: InlineExpression)
    | TooManyPlaceablesCall
    | ReferenceCall(expression: InlineExpression)
    | CyclicCall(cyclePattern: Pattern, stringify: Pattern -> string)
    | MissingDefaultCall

  /** The factory's own argument requirement (a VariableReference, a reference). */
  predicate Callable(c: ResolverCall)
  {
    match c
    case UnknownVariableCall(v) => v.VariableReference?
    case ReferenceCall(e) => IsReference(e)
    case _ => true
  }

  function Make(c: ResolverCall): FE.FluentError
    requires Callable(c)
  {
    match c
    case NoValueCall(p) => RFE.NoValue(p)
    case NoValueOfIdCall(m) => RFE.NoValueOfId(m)
    case UnknownVariableCall(v) => RFE.UnknownVariable(v)
    case TooManyPlaceablesCall => RFE.TooManyPlaceables()
    case ReferenceCall(e) => RFE.Reference(e)
    case CyclicCall(p, stringify) => RFE.Cyclic(p, stringify)
    case MissingDefaultCall => RFE.MissingDefault()
  }

  /** Classifies a resolver description by its fixed opening words. */
  function KindOfDescription(d: string): Option<FE.ErrorType>
  {
    if "No value: " <= d then Some(FE.ErrorType.NoValue)
    else if d == "No default" then Some(FE.ErrorType.MissingDefault)
    else if "Unknown " <= d then Some(FE.ErrorType.Reference)
    else if d == "Too many placeables" then Some(FE.ErrorType.TooManyPlaceables)
    else if "Cyclic pattern " <= d then Some(FE.ErrorType.Cyclic)
    else None
  }

  lemma PrefixExtends(a: string, p: string, x: string)
    requires a <= p
    ensures a <= p + x
  {
    assert (p + x)[..|a|] == p[..|a|];
  }

  lemma ReferenceTextIsUnknown(e: InlineExpression)
    requires IsReference(e)
    ensures "Unknown " <= RFE.Reference(e).ToString()
  {
    var s := RFE.Reference(e).ToString();
    if e.FunctionReference? {
      PrefixExtends("Unknown ", FunctionPrefix, e.id + "()");
      assert s == FunctionPrefix + (e.id + "()");
    } else if e.MessageReference? && e.attribute.None? {
      PrefixExtends("Unknown ", MessagePrefix, e.id);
    } else if e.TermReference? && e.attribute.None? {
      PrefixExtends("Unknown ", TermPrefix, e.id);
    } else if e.VariableReference? {
      PrefixExtends("Unknown ", VariablePrefix, e.id);
    } else if e.MessageReference? {
      PrefixExtends("Unknown ", AttributePrefix, e.id + "." + e.attribute.value);
      assert s == AttributePrefix + (e.id + "." + e.attribute.value);
    } else {
      PrefixExtends("Unknown ", AttributePrefix, "-" + e.id + "." + e.attribute.value);
      assert s == AttributePrefix + ("-" + e.id + "." + e.attribute.value);
    }
  }

  /**
    Every resolver error's description names its kind: the kinds are never
    Parser or Overriding, and the text alone gives the kind back.
   */
  lemma DescriptionGivesKind(c: ResolverCall)
    requires Callable(c)
    ensures Make(c).ErrorKind() != FE.ErrorType.Parser && Make(c).ErrorKind() != FE.ErrorType.Overriding
    ensures KindOfDescription(Make(c).ToString()) == Some(Make(c).ErrorKind())
  {
    var d := Make(c).ToString();
    match c
    case NoValueCall(p) => StripPrefixOf("No value: ", p);
    case NoValueOfIdCall(m) => StripPrefixOf("No value: ", RFE.SpanText(m));
    case UnknownVariableCall(v) =>
      assert d == "Unknown " + ("variable: $" + v.id);
      NotPrefixAt("No value: ", d, 1);
    case TooManyPlaceablesCall =>
      NotPrefixAt("No value: ", d, 0);
      NotPrefixAt("Unknown ", d, 0);
    case ReferenceCall(e) =>
      ReferenceTextIsUnknown(e);
      NotPrefixAt("No value: ", d, 1);
    case CyclicCall(p, stringify) =>
      assert d == "Cyclic pattern " + (stringify(p) + " detected!");
      NotPrefixAt("No value: ", d, 0);
      NotPrefixAt("Unknown ", d, 0);
    case MissingDefaultCall =>
      NotPrefixAt("No value: ", d, 3);
  }

  /** Resolver errors of different kinds never render the same text. */
  lemma DistinctKindsDistinctTexts(a: ResolverCall, b: ResolverCall)
    requires Callable(a) && Callable(b)
    requires Make(a).ErrorKind() != Make(b).ErrorKind()
    ensures Make(a).ToString() != Make(b).ToString()
  {
    DescriptionGivesKind(a);
    DescriptionGivesKind(b);
  }
}
