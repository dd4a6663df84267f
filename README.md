# Linguini bundle errors and bundle builder, in Dafny

This project models two parts of Linguini, a C# implementation of Project
Fluent localization bundles.

1. **The error taxonomy** (`Linguini.Bundle.Errors`). This is the closed family of
   errors a bundle reports:
   - override errors, for an id that is registered twice;
   - resolver errors, built only by the static factories of `ResolverFluentError`;
   - parser errors, which wrap a parse failure.

   Each error reports an `ErrorType` kind and renders a fixed diagnostic text.
   `EntryHelper.ToKind` classifies entries for override messages.
   The files `ast.dfy` and `fluent_error.dfy` model these as datatypes and pure
   functions. `error_text.dfy` adds decoders that read the texts back. They are
   used to prove the text layouts unambiguous:
   - an override message gives back its id and entry kind;
   - an unknown-reference message gives back what was referenced, when the
     referenced ids are Fluent identifiers (a letter, then letters, digits,
     `_` or `-`);
   - every resolver description gives back its kind.

2. **The staged bundle builder** (`LinguiniBundler.StepBuilder`, in `bundler.dfy`).
   This is a class whose steps update its fields in place:
   - the culture and the locale list;
   - the resource list;
   - the isolation flag;
   - the optional formatter and transform callables;
   - the function map.

   Each step is proved to change only its own fields and to return the same
   builder. `Build` is a loop proved against the specification function
   `BuildOutcome`. Lemmas about `BuildOutcome` give:
   - the order of the error list;
   - the rule that accepted resources contribute nothing;
   - how the error lists of successive resources compose;
   - the settings the bundle receives.

   `UncheckedBuild` fails exactly when that error list is non-empty.

   `Locales(xs)` takes the culture from the first locale recorded so far. That
   locale is not necessarily the first element of `xs`. The model keeps this
   behaviour.

The bundle's own `AddResource` and `AddFunctions` are not part of this model.
`Build` receives them as functions over the bundle's entry registry. Each
returns the new registry, a success flag, and the errors it reports. The parser
is a parameter of the overloads that parse text or streams. `Pattern.Stringify()`
is a parameter of `Cyclic`.

## Model

| member | source | states |
|---|---|---|
| `FluentErrors.KindName` | Linguini.Bundle/Errors/FluentError.cs:31 | the entry kind's name as the enum's `ToString()` renders it: `Message`, `Term`, `Unknown` |
| `FluentErrors.FluentError.ErrorKind` | Linguini.Bundle/Errors/FluentError.cs:24-27 | kind Overriding exactly for override errors, Parser exactly for parser errors, and a resolver error's own kind (never Parser or Overriding) otherwise; the overrides at lines 10, 46-49 and 137-140 |
| `FluentErrors.FluentError.ToString` | Linguini.Bundle/Errors/FluentError.cs:29-32 | the override text, a resolver error's stored description, or the parse error's message; the overrides at lines 51-54 and 142-145 |
| `FluentErrors.NewOverride` | Linguini.Bundle/Errors/FluentError.cs:13-32 | an override error reports kind Overriding and renders `For id:<id> already exist entry of type: <Kind>` |
| `FluentErrors.OfParseError` | Linguini.Bundle/Errors/FluentError.cs:123-145 | a parser error reports kind Parser and renders the wrapped parse error's message unchanged |
| `FluentErrors.ToKind` | Linguini.Bundle/Errors/FluentError.cs:155-165 | an entry's kind is Term exactly for terms, Message exactly for messages, Unknown exactly for comments and junk |
| `ResolverFluentError.SpanText` | Linguini.Bundle/Errors/FluentError.cs:56-59 | the text of a character window has the window's length and its characters, in order |
| `ResolverFluentError.NoValue` | Linguini.Bundle/Errors/FluentError.cs:61-64 | the string overload reports kind NoValue and renders `No value: <pattern>` |
| `ResolverFluentError.NoValueOfId` | Linguini.Bundle/Errors/FluentError.cs:56-59 | the memory overload reports kind NoValue and equals the string overload applied to the window's text |
| `ResolverFluentError.UnknownVariable` | Linguini.Bundle/Errors/FluentError.cs:66-69 | reports kind Reference and renders `Unknown variable: $<id>` |
| `ResolverFluentError.TooManyPlaceables` | Linguini.Bundle/Errors/FluentError.cs:71-74 | reports kind TooManyPlaceables and renders `Too many placeables` |
| `ResolverFluentError.Reference` | Linguini.Bundle/Errors/FluentError.cs:76-110 | reports kind Reference; `Unknown function: id()`, `Unknown message: id`, `Unknown attribute: id.attr`, `Unknown term: -id`, `Unknown attribute: -id.attr`; a variable gives the same error as UnknownVariable; non-reference expressions are excluded |
| `ResolverFluentError.Cyclic` | Linguini.Bundle/Errors/FluentError.cs:112-115 | reports kind Cyclic and renders `Cyclic pattern <stringified pattern> detected!` |
| `ResolverFluentError.MissingDefault` | Linguini.Bundle/Errors/FluentError.cs:117-120 | reports kind MissingDefault and renders `No default` |
| `ErrorText.OverrideTextRoundTrip` | Linguini.Bundle/Errors/FluentError.cs:29-32 | for every id and kind, the override text decodes back to exactly that id and kind |
| `ErrorText.ReferenceTextRoundTrip` | Linguini.Bundle/Errors/FluentError.cs:76-107 | for references with Fluent identifiers, the reference text decodes back to the referenced function, message, term or variable, with its attribute |
| `ErrorText.ReferenceTextsDistinguish` | Linguini.Bundle/Errors/FluentError.cs:76-107 | when their ids are Fluent identifiers, two references naming different targets never render the same text |
| `ErrorText.DescriptionGivesKind` | Linguini.Bundle/Errors/FluentError.cs:46-120 | no resolver factory yields kind Parser or Overriding, and the description alone determines the kind |
| `ErrorText.DistinctKindsDistinctTexts` | Linguini.Bundle/Errors/FluentError.cs:46-120 | resolver errors of different kinds never render the same text |
| `LinguiniBundler.ParseAll` | Linguini.Bundle/Bundler/LinguiniBundler.cs:172-192 | parsing a list gives one resource per input, in input order |
| `LinguiniBundler.CultureFromName` | Linguini.Bundle/Bundler/LinguiniBundler.cs:124 | `new CultureInfo(name)` gives a culture with that name and default settings |
| `LinguiniBundler.New` | Linguini.Bundle/Bundler/LinguiniBundler.cs:14-17 | a new builder is fresh and in its initial state |
| `LinguiniBundler.StepBuilder.constructor` | Linguini.Bundle/Bundler/LinguiniBundler.cs:55-61 | isolation on, no culture, no formatter, no transform, empty locale, resource and function collections |
| `LinguiniBundler.StepBuilder.SetUseIsolating` | Linguini.Bundle/Bundler/LinguiniBundler.cs:63-67 | sets only the isolation flag and returns the same builder |
| `LinguiniBundler.StepBuilder.SetTransformFunc` | Linguini.Bundle/Bundler/LinguiniBundler.cs:69-73 | sets only the transform callable and returns the same builder |
| `LinguiniBundler.StepBuilder.SetFormatterFunc` | Linguini.Bundle/Bundler/LinguiniBundler.cs:75-79 | sets only the formatter callable and returns the same builder |
| `LinguiniBundler.StepBuilder.Locale` | Linguini.Bundle/Bundler/LinguiniBundler.cs:122-127 | appends the locale and sets the culture from it; nothing else changes |
| `LinguiniBundler.StepBuilder.Locales` | Linguini.Bundle/Bundler/LinguiniBundler.cs:129-143 | appends all locales in order and takes the culture from the first recorded locale; fails with ArgumentException, leaving the state unchanged, exactly when no locale is recorded |
| `LinguiniBundler.StepBuilder.CultureInfo` | Linguini.Bundle/Bundler/LinguiniBundler.cs:145-150 | sets the culture and appends its name to the locales; nothing else changes |
| `LinguiniBundler.StepBuilder.AddUnparsedResource` | Linguini.Bundle/Bundler/LinguiniBundler.cs:152-164 | appends the parsed resource at the end; nothing else changes |
| `LinguiniBundler.StepBuilder.AddResource` | Linguini.Bundle/Bundler/LinguiniBundler.cs:166-170 | appends the resource at the end; nothing else changes |
| `LinguiniBundler.StepBuilder.AddUnparsedResources` | Linguini.Bundle/Bundler/LinguiniBundler.cs:172-192 | appends the parsed resources at the end, in input order; nothing else changes |
| `LinguiniBundler.StepBuilder.AddResources` | Linguini.Bundle/Bundler/LinguiniBundler.cs:194-198 | appends the resources at the end, in order; nothing else changes |
| `LinguiniBundler.StepBuilder.SkipResources` | Linguini.Bundle/Bundler/LinguiniBundler.cs:200-203 | returns the same builder with no change |
| `LinguiniBundler.StepBuilder.Build` | Linguini.Bundle/Bundler/LinguiniBundler.cs:93-120 | the bundle and the error list are those of BuildOutcome on the builder's state; the builder is not modified |
| `LinguiniBundler.StepBuilder.UncheckedBuild` | Linguini.Bundle/Bundler/LinguiniBundler.cs:81-91 | returns Build's bundle exactly when Build's error list is empty; otherwise fails with LinguiniException carrying that same list |
| `LinguiniBundler.AddAll` | Linguini.Bundle/Bundler/LinguiniBundler.cs:111-117 | the resources added one after the other in list order, each on the registry the previous ones left, keeping the errors of each resource whose AddResource reports failure |
| `LinguiniBundler.BuildOutcome` | Linguini.Bundle/Bundler/LinguiniBundler.cs:93-120 | a bundle from the builder's culture, locales, flag and callables; the function errors first, and only when the function map is non-empty; then the resources' errors from AddAll |
| `LinguiniBundler.AddAllAppend` | Linguini.Bundle/Bundler/LinguiniBundler.cs:111-117 | adding resources `a + b` equals adding `a` and then `b` to the registry `a` left, with `b`'s errors after `a`'s |
| `LinguiniBundler.AddAllErrorsInOrder` | Linguini.Bundle/Bundler/LinguiniBundler.cs:111-117 | the error list is the concatenation, in resource order, of each failing resource's errors; accepted resources contribute nothing |
| `LinguiniBundler.AddAllAllAccepted` | Linguini.Bundle/Bundler/LinguiniBundler.cs:111-117 | when every AddResource call, made on the registry its predecessors left, succeeds, no error is collected |
| `LinguiniBundler.BuildKeepsSettings` | Linguini.Bundle/Bundler/LinguiniBundler.cs:95-102 | the bundle receives the builder's culture, locales, isolation flag, formatter and transform unchanged |
| `LinguiniBundler.BuildErrorsFromResources` | Linguini.Bundle/Bundler/LinguiniBundler.cs:104-119 | with no functions, Build's errors are the resources' errors, and one more resource appends only its own contribution |
| `LinguiniBundler.ValidBuildErrors` | Linguini.Bundle/Bundler/LinguiniBundler.cs:61 | no builder step registers a function, so a builder's Build reports resource errors only |

## Left out

- Parsing: `LinguiniParser(...).Parse()` is a parameter `parse` of `AddUnparsedResource` and `AddUnparsedResources`. These stand for the string and `TextReader` overloads. Parse failures, stream reading and exceptions are not modelled.
- Cultures: `Culture` is a name plus opaque settings. `new CultureInfo(name)` is `CultureFromName`, which gives default settings, so `Locales` after `CultureInfo(c)` drops `c`'s customisation, as in the source. Several .NET behaviours are not modelled:
  - the name normalisation that `new CultureInfo(name)` performs;
  - the exception it throws for an unknown name;
  - `Clone()`, which here is the same value.
- The bundle: `FluentBundle.AddResource`, `AddFunctions` and the resolver are not part of this model. Build receives the first two as functions over a `Registry` value. The bundle is a value, not an object. The source's bundle shares the builder's `List<string>` of locales (an alias), so later `Locale` calls would show in an already built bundle. The model hands over a copy.
- `AddFunctions`' success flag is ignored, as in the source. Its errors are always appended.
- The staged interfaces `ILocaleStep`, `IResourceStep`, `IReadyStep` and `IBuildStep` are compile-time ordering only. They appear only as `requires culture.Some?` on `Build` and `UncheckedBuild`. The source would dereference a null culture there.
- LinguiniBundler.StepBuilder.SkipResources: returns the builder without a `modifies` clause, so "nothing changes" follows from the frame, not from a postcondition.
- ResolverFluentError.Reference: the `ArgumentException` thrown for a non-reference expression is a precondition (`IsReference`), not a modelled error path. The source throws it as a programming error, not a reported error.
- ResolverFluentError.Cyclic: `Pattern.Stringify()` is a foreign syntax printer. It is the parameter `stringify`.
- The formatter and transform callables are stored and handed over, never called.
- Identifiers are plain strings rather than `Identifier` objects over character memory. `ReadOnlyMemory<char>` appears only as `CharMemory` for the `NoValue` overload.
- C# `null` arguments, record value equality and hashing, and the byte values of the enums are not modelled.
