# Luc convention checker and generated-source aggregator, in Dafny

This project models the build-time core of the Luc web framework's source
generators. The core has two parts.

The **per-declaration checker** (`LucUtilTypeProcessor`) looks at one class
declaration and runs five passes in a fixed order:

- naming conventions;
- the ban on legacy MVC controllers;
- the `[LucEndpoint]` pipeline;
- the `[LucAuthPolicy]` pipeline;
- the `[LucAuthScheme]` pipeline.

Each pipeline is a chain of guards. A guard that fails reports one diagnostic
and leaves that pass. LUC0022 is the one warning that lets the pass carry on.
A pass that succeeds registers a code fragment under its generator key, which
is the name of the generated method.

The **aggregator** (`LwxGenerator_Assembly`) does three things:

- It keeps three ordered dictionaries of fragment lists, one per role, filled
  by get-or-create-then-append.
- It drives the checker over every declaration. A declaration whose processing
  throws gets one LUC0912, and the loop goes on.
- It renders the three `*.g.cs` sources. Each source has one callable per group
  key, whose body is that group's fragments in insertion order.

The model has these modules:

- `Wrappers`: the `Option` type.
- `Text`: the .NET string operations the code relies on, namely prefix and
  suffix tests, `Replace` and `Trim`, and the reading given to the project's
  null-or-empty helpers (see below). It also has
  Roslyn's `SymbolDisplay.FormatLiteral`, which quotes and escapes the route's
  display name, tag, summary and policy, and a reader for C# string literals
  to state its round trip.
- `Grammar`: the three regular expressions, the method-plus-path parser, the
  HTTP-verb normalisation and the expected endpoint type name.
- `Model`: declarations, diagnostics, fragments and the aggregator's tables. It
  also has the effects a checker pass has on them: a report, or an append to a
  group.
- `TypeRules`: each pass as a pure function from a declaration to an
  `Outcome`. An outcome is the ordered list of effects plus a flag telling
  whether the pass threw.
- `CheckerProperties`: what the passes promise, proved about those functions.
- `AssemblySpec`: the settings fallback, the driver loop (`Run`) and the
  renderers (`Render`), as functions with their lemmas.
- `Generator`: the imperative code, as classes.
  - `Assembly` holds the three tables as mutable fields. It has the `Add*`
    methods, `Execute` and the `Generate*` methods.
  - `TypeProcessor` has the `Do*` passes as guard chains with early returns,
    and the `foreach` over attributes as a loop.
  - `ProductionContext` holds the diagnostic log and the added sources.
  - Every method is proved equal to its specification function. For example,
    `Execute` leaves exactly `Run(old state, declarations, checker)` and appends
    exactly the three `Render` results.

Some things the source calls are not shown in the repository. The model treats
them as follows:

- The URL helpers (`LucGetFileNameFromUrl`, `LucGetDirNameFromUrlPath`,
  `LucPathElementToCamelCase`, `LucPathToCamelCase`) are the fields of a
  `UrlNaming` value. No property depends on what they compute, but each is
  taken to return a string, never null.
- The project helpers `LucIsNullOrEmpty` and `LucIfNullOrEmptyReturn` are read
  as `string.IsNullOrEmpty` and as "the value, or the fallback when the value is
  null or empty" (`Text.IsNullOrEmpty`, `Text.IfNullOrEmpty`). The default
  generator keys, the justification test of the base-path check, the root-level
  endpoint type name and the `.WithDisplayName` choice rest on this reading.
- The JSON deserializer and `Path.GetDirectoryName` are function parameters of
  `Assembly.Create`.
- `LwxGenerator_Type`, the per-declaration processor that
  `LwxGenerator_Assembly.Execute` instantiates, is not part of this model.
  In its place the driver runs the Luc.Util checker above, which is a sibling
  class of the same design. The checker's `AddGeneratedSrc_*` calls become
  appends to the aggregator's tables.

Where the code and its description disagree, the model follows the code:

- The expected file of a public type removes every `{asm}.` from the type name,
  not only the leading one, so an occurrence that straddles two segments goes
  too. With assembly `Api`, `Api.MyApi.Foo` is expected in `MyFoo.cs`, and a
  file `MyApi/Foo.cs` draws LUC004 (`TypeRules.CrossingSegmentsDrawsLuc004`).
- LUC0022 is reported with Error severity, although it is an advisory that
  lets the pass continue.
- LUC0911 is reported with Error severity.
- When a not-in-API-manager justification is present, the base-path check never
  lets the pass proceed. It reports LUC0215 when the path is under the base and
  LUC0015 when it is not, so the justification only switches the rule off when
  it is absent.
- A valid auth scheme adds its fragment to the policy group. The scheme group
  only ever receives the empty placeholder.
- The endpoint fragment's description repeats the summary argument.
- `$` in the .NET regular expressions also matches before a final line feed,
  so a key or a path may end with one `\n`.

## Model

In the `source` column, paths are relative to the repository root.
`LucUtilTypeProcessor.cs` is `Luc.Util.Generator/Generator/LucUtilTypeProcessor.cs`;
`LwxGenerator_Assembly.cs` is `Luc.Lwx/Generator/LwxGenerator_Assembly.cs`.

| member | source | states |
|---|---|---|
| Text.IfNullOrEmpty | Luc.Util.Generator/Generator/LucUtilTypeProcessor.cs:380 | the fallback exactly when the argument is null or empty, otherwise the (non-empty) argument |
| Text.Replace | Luc.Util.Generator/Generator/LucUtilTypeProcessor.cs:722-723 | replacing every occurrence introduces no new character; a one-character pattern absent from the replacement is absent from the result |
| Text.ReplaceLeading | Luc.Util.Generator/Generator/LucUtilTypeProcessor.cs:722 | an occurrence at the start becomes the replacement, and the scan resumes after it |
| Text.ReplaceSkip | Luc.Util.Generator/Generator/LucUtilTypeProcessor.cs:722 | where the pattern does not start, the first character is kept and the scan goes on after it |
| Text.ReplaceKeepsPrefix | Luc.Util.Generator/Generator/LucUtilTypeProcessor.cs:722 | a prefix holding no first character of the pattern is kept unchanged in front of the replaced rest |
| Text.ReplaceAbsent | Luc.Util.Generator/Generator/LucUtilTypeProcessor.cs:722 | a string in which the pattern occurs nowhere is unchanged |
| Text.ReplaceChar | Luc.Util.Generator/Generator/LucUtilTypeProcessor.cs:723 | a one-character pattern and replacement: same length, each pattern character replaced, every other character kept |
| Text.TrimStart | Luc.Util.Generator/Generator/LucUtilTypeProcessor.cs:579 | the result does not start with the character and is a suffix of the input |
| Text.TrimStartDrops | Luc.Util.Generator/Generator/LucUtilTypeProcessor.cs:579 | everything `TrimStart` drops before the result is that character |
| Text.TrimEnd | Luc.Util.Generator/Generator/LucUtilTypeProcessor.cs:579 | the result does not end with the character and is a prefix of the input |
| Text.TrimEndDrops | Luc.Util.Generator/Generator/LucUtilTypeProcessor.cs:579 | everything `TrimEnd` drops after the result is that character |
| Text.Trim | Luc.Util.Generator/Generator/LucUtilTypeProcessor.cs:579 | the result neither starts nor ends with the character |
| Text.TrimDrops | Luc.Util.Generator/Generator/LucUtilTypeProcessor.cs:579 | the input is some copies of the character, then the result, then only that character |
| Text.TrimKeeps | Luc.Util.Generator/Generator/LucUtilTypeProcessor.cs:579 | the trimmed string only holds characters of the input |
| Text.EscapeReadsBack | Luc.Util.Generator/Generator/LucUtilTypeProcessor.cs:643 | the escaped body of a literal, read as a C# regular string literal body, denotes exactly the input |
| Text.FormatLiteralReadsBack | Luc.Util.Generator/Generator/LucUtilTypeProcessor.cs:661-664 | round trip: the quoted literal `SymbolDisplay.FormatLiteral(s, true)` writes denotes exactly `s` |
| Grammar.FirstWhiteSpace | Luc.Util.Generator/Generator/LucUtilTypeProcessor.cs:802 | the extent of `\S*`: no white space before the index, white space at it unless it is the end |
| Grammar.ParseMethodAndPath | Luc.Util.Generator/Generator/LucUtilTypeProcessor.cs:802 | a match yields a well-formed pair (white-space-free verb, possibly empty; path starting with '/' without line feed) whose text, optionally followed by one line feed, is exactly the input |
| Grammar.PathGroup | Luc.Util.Generator/Generator/LucUtilTypeProcessor.cs:802 | the group `(/.*)$`: a path starting with '/' without line feed, which is the text after the space, or that text without its final line feed |
| Grammar.ParseSplit | Luc.Util.Generator/Generator/LucUtilTypeProcessor.cs:802 | after a white-space-free verb and one space, the match is decided by the path group alone |
| Grammar.ParseLine | Luc.Util.Generator/Generator/LucUtilTypeProcessor.cs:399-429 | round trip: every well-formed pair is read back from its own text, with or without a final line feed |
| Grammar.ParseBareLine | Luc.Util.Generator/Generator/LucUtilTypeProcessor.cs:399-429 | round trip for the text without a final line feed |
| Grammar.ParseLineFeed | Luc.Util.Generator/Generator/LucUtilTypeProcessor.cs:399-429 | round trip for the text followed by one line feed |
| Grammar.ParseRejectsOnlyMalformed | Luc.Util.Generator/Generator/LucUtilTypeProcessor.cs:399-426 | the pattern fails exactly on strings that are not the text of any well-formed pair (both directions) |
| Grammar.NormalizeMethod | Luc.Util.Generator/Generator/LucUtilTypeProcessor.cs:612-629 | an accepted token upper-cases to the chosen verb's name; the empty token is refused |
| Grammar.NormalizeMethodRefuses | Luc.Util.Generator/Generator/LucUtilTypeProcessor.cs:612-629 | a token is refused (LUC0017) exactly when its upper-cased form is none of GET, POST, PUT, PATCH, DELETE, HEAD |
| Grammar.NormalizeName | Luc.Util.Generator/Generator/LucUtilTypeProcessor.cs:614-619 | each verb's display name and upper-case name normalise back to that verb |
| Grammar.DefaultKeyIsMethodName | Luc.Util.Generator/Generator/LucUtilTypeProcessor.cs:380 | a default key (identifier prefix + assembly name without dots) passes the method-name pattern when the assembly name is word characters and dots |
| Grammar.TypeNameReference | Luc.Util.Generator/Generator/LucUtilTypeProcessor.cs:579-581 | the slice past the base throws exactly when the path is shorter than the base; the reference holds no brace |
| Grammar.ExpectedEndpointTypeName | Luc.Util.Generator/Generator/LucUtilTypeProcessor.cs:578-590 | the name starts with `{asm}.Web.Endpoints.`, ends with `.Endpoint{short}`, and is the root-level spelling exactly when the derived namespace is empty |
| Grammar.EndpointNameShape | Luc.Util.Generator/Generator/LucUtilTypeProcessor.cs:586-590 | both spellings share prefix and suffix, and differ whenever the namespace is non-empty |
| Model.AppendSpec | Luc.Lwx/Generator/LwxGenerator_Assembly.cs:24-57 | append semantics: the group gets the fragment at its end, every other group is unchanged, the key joins the order only if new, validity is kept, nothing is removed |
| Model.ApplyAllGrows | Luc.Lwx/Generator/LwxGenerator_Assembly.cs:20-57 | any run of effects keeps the tables valid and removes no key, fragment or diagnostic |
| Model.ApplyAllDiagnostics | Luc.Lwx/Generator/LwxGenerator_Assembly.cs:349-368 | the log after a run of effects is the old log followed by exactly the reported diagnostics, in order |
| Model.ApplyAllConcat | Luc.Util.Generator/Generator/LucUtilTypeProcessor.cs:38-45 | applying two runs of effects in turn is applying their concatenation |
| TypeRules.NamingPass | Luc.Util.Generator/Generator/LucUtilTypeProcessor.cs:692-760 | at most one of LUC005/LUC003/LUC004; LUC005 exactly for a `{asm}.src.` prefix in any case; LUC003 exactly for a missing `{asm}.` prefix otherwise; LUC004 exactly for a public non-partial type whose file path does not end with its expected file |
| TypeRules.ExpectedFileCrossesSegments | Luc.Util.Generator/Generator/LucUtilTypeProcessor.cs:721-725 | every `{asm}.` is removed, also one that straddles two segments: `{asm}.X{asm}.Y` (X and Y free of dots and of the assembly's first letter) is expected in `XY.cs`; with assembly `Api`, `Api.MyApi.Foo` is expected in `MyFoo.cs` |
| TypeRules.CrossingSegmentsDrawsLuc004 | Luc.Util.Generator/Generator/LucUtilTypeProcessor.cs:708-757 | such a public non-partial type kept in `X{asm}/Y.cs` (`Api.MyApi.Foo` in `MyApi/Foo.cs`) passes the name guards and draws LUC004 |
| TypeRules.ExpectedFileOfRelative | Luc.Util.Generator/Generator/LucUtilTypeProcessor.cs:721-727 | a type `{asm}.A.B.C` (no further `{asm}.` inside) must live in a file ending in `A/B/C.cs`: the relative name with dots turned into slashes, plus `.cs` |
| TypeRules.ControllerAttributeReports | Luc.Util.Generator/Generator/LucUtilTypeProcessor.cs:776-788 | one Error LUC002 per `[Controller]` attribute, each anchored at such an attribute, in attribute order |
| TypeRules.LegacyPass | Luc.Util.Generator/Generator/LucUtilTypeProcessor.cs:762-789 | exactly one LUC001, first, when the direct base is `ControllerBase` and none otherwise; the rest is exactly one LUC002 per `[Controller]` attribute in attribute order |
| TypeRules.CheckBase | Luc.Util.Generator/Generator/LucUtilTypeProcessor.cs:463-576 | the base-path decision table, each verdict as an if-and-only-if; with a justification present the pass never proceeds |
| CheckerProperties.MappingFacts | Luc.Util.Generator/Generator/LucUtilTypeProcessor.cs:578-690 | after the base check: the route fragment and LUC008 when the name and the verb are accepted, otherwise only stops (LUC0013, LUC0017) or a fault |
| CheckerProperties.MappingGuardOrder | Luc.Util.Generator/Generator/LucUtilTypeProcessor.cs:578-629 | a path shorter than the base throws; then a type-name mismatch stops with LUC0013, then an unknown verb with LUC0017 at the path; a missing title, summary or policy throws |
| CheckerProperties.BaseGuardOrder | Luc.Util.Generator/Generator/LucUtilTypeProcessor.cs:463-576 | each base-path verdict stops with its own diagnostic at the path (missing base LUC0016, trailing slash LUC06546, unneeded justification LUC0215, not under the base LUC0015); only `Proceed` reaches the mapping checks |
| CheckerProperties.RouteGuardOrder | Luc.Util.Generator/Generator/LucUtilTypeProcessor.cs:397-461 | no path throws; an unparsable path stops with LUC0014; a parsed one gives the LUC0022 advisory when due and then the base-path checks |
| CheckerProperties.EndpointGuardOrder | Luc.Util.Generator/Generator/LucUtilTypeProcessor.cs:334-399 | LUC006 for an unmarked public type in the endpoint namespace and for a marked type outside it, nothing for other unmarked types, LUC0018 at the key for an invalid key; past these the placeholder is the first effect and the route checks follow |
| CheckerProperties.RouteFragment | Luc.Util.Generator/Generator/LucUtilTypeProcessor.cs:647-667 | the registered mapping targets the declared type, keeps the path, and uses the verb the token upper-cases to |
| CheckerProperties.WarningFacts | Luc.Util.Generator/Generator/LucUtilTypeProcessor.cs:430-461 | LUC0022 is reported, once, with Error severity at the path argument, exactly when the path holds `{` and the justification is null or white space; it registers nothing |
| CheckerProperties.RouteFacts | Luc.Util.Generator/Generator/LucUtilTypeProcessor.cs:399-690 | the route checks report only checker ids; accepted: optional LUC0022, the route, LUC008; otherwise no fragment and no Info |
| CheckerProperties.RouteStops | Luc.Util.Generator/Generator/LucUtilTypeProcessor.cs:399-426 | a missing path throws; an unparsable path is one LUC0014 at the Path argument and a stop |
| CheckerProperties.EndpointAcceptedEffects | Luc.Util.Generator/Generator/LucUtilTypeProcessor.cs:334-690 | an accepted endpoint pass is exactly: placeholder, optional LUC0022, route fragment, Info LUC008 |
| CheckerProperties.EndpointRejected | Luc.Util.Generator/Generator/LucUtilTypeProcessor.cs:334-690 | a rejected endpoint pass registers no fragment beyond the placeholder and reports no Info |
| CheckerProperties.EndpointRegistration | Luc.Util.Generator/Generator/LucUtilTypeProcessor.cs:671-689 | an accepted pass registers exactly one fragment under its key (verb, path, target type) and exactly one Info LUC008; a rejected one neither |
| CheckerProperties.EndpointGroupRegistered | Luc.Util.Generator/Generator/LucUtilTypeProcessor.cs:380-397 | the group exists under the key after the pass, even when a later check fails |
| CheckerProperties.ParamInPathIsAdvisory | Luc.Util.Generator/Generator/LucUtilTypeProcessor.cs:430-461 | adding the justification changes nothing but the removal of LUC0022: same fault, same other effects |
| CheckerProperties.RouteChecksAdvisory | Luc.Util.Generator/Generator/LucUtilTypeProcessor.cs:430-461 | the same, for the route checks |
| CheckerProperties.ParsedRouteAdvisory | Luc.Util.Generator/Generator/LucUtilTypeProcessor.cs:430-461 | the same, once the path has parsed |
| CheckerProperties.AcceptedEndpointApply | Luc.Util.Generator/Generator/LucUtilTypeProcessor.cs:397 | an accepted pass appends the placeholder and then its route to its group |
| CheckerProperties.SharedKeyKeepsSupplyOrder | Luc.Util.Generator/Generator/LucUtilTypeProcessor.cs:671 | two endpoints with the same key end up in one group, in processing order |
| CheckerProperties.AuthGuardOrder | Luc.Util.Generator/Generator/LucUtilTypeProcessor.cs:198-295 | the policy/scheme guards in source order: LUC0012 or silent without marker, then LUC0011, LUC006, LUC0018 for the key, a fault exactly for a missing Name, LUC0018 at Name for a Name that is not a property name, and the placeholder followed by LUC0013 for a full-name mismatch |
| CheckerProperties.AuthStops | Luc.Util.Generator/Generator/LucUtilTypeProcessor.cs:51-133 | before the placeholder an auth pass reports nothing or a single Error among LUC0012/LUC0011/LUC006/LUC0018 |
| CheckerProperties.AuthAcceptedEffects | Luc.Util.Generator/Generator/LucUtilTypeProcessor.cs:280-329 | an accepted auth pass is exactly: placeholder in its own group, binding in the policy group, Info LUC008 |
| CheckerProperties.AuthRegistration | Luc.Util.Generator/Generator/LucUtilTypeProcessor.cs:175-189 | an accepted policy or scheme registers exactly its binding under its key in the policy group and one Info LUC008; a rejected one neither |
| CheckerProperties.AuthTargets | Luc.Util.Generator/Generator/LucUtilTypeProcessor.cs:175 | auth passes never touch the endpoint group; the scheme group only receives placeholders; a scheme's binding is an authentication registration |
| CheckerProperties.EndpointIds | Luc.Util.Generator/Generator/LucUtilTypeProcessor.cs:334-690 | the endpoint pass reports only checker ids |
| CheckerProperties.AuthIds | Luc.Util.Generator/Generator/LucUtilTypeProcessor.cs:47-330 | the auth passes report only checker ids |
| CheckerProperties.AndThenSpec | Luc.Util.Generator/Generator/LucUtilTypeProcessor.cs:38-45 | sequencing keeps the first pass's effects, adds the next pass's unless the first threw, and throws if either does |
| CheckerProperties.ChainSpec | Luc.Util.Generator/Generator/LucUtilTypeProcessor.cs:38-45 | the five-pass chain: all effects in order when nothing throws, throws iff a pass throws, ids stay within any common set |
| CheckerProperties.Phase1Ids | Luc.Util.Generator/Generator/LucUtilTypeProcessor.cs:38-45 | the checker never reports LUC0911 or LUC0912 itself |
| CheckerProperties.PassesInOrder | Luc.Util.Generator/Generator/LucUtilTypeProcessor.cs:38-45 | the naming and legacy reports always come first and never stop the other passes; without a fault the result is the five passes' effects concatenated |
| AssemblySpec.FirstText | Luc.Lwx/Generator/LwxGenerator_Assembly.cs:73 | `FirstOrDefault`: a text exactly when the first file is present |
| AssemblySpec.LoadSettings | Luc.Lwx/Generator/LwxGenerator_Assembly.cs:70-95 | one Error LUC0911 exactly when the first text does not parse; defaults when absent, malformed or null; parsed sections kept; the Lwx section is never null |
| AssemblySpec.OnlyFirstSettingsFile | Luc.Lwx/Generator/LwxGenerator_Assembly.cs:73-77 | files after the first never change the settings or the log |
| AssemblySpec.Settle | Luc.Lwx/Generator/LwxGenerator_Assembly.cs:117-136 | one loop step: the tables as the effects leave them; the log gains the step's reports and then LUC0912 exactly when it threw |
| AssemblySpec.DeclarationLogFacts | Luc.Lwx/Generator/LwxGenerator_Assembly.cs:117-136 | a declaration's share of the log holds one LUC0912, last, exactly when it threw, and otherwise only checker ids |
| AssemblySpec.RunDiagnostics | Luc.Lwx/Generator/LwxGenerator_Assembly.cs:115-137 | the loop appends exactly the declarations' shares of the log, in declaration order |
| AssemblySpec.FaultIsolation | Luc.Lwx/Generator/LwxGenerator_Assembly.cs:113-137 | the log holds exactly as many LUC0912 as there are declarations that threw |
| AssemblySpec.CheckerFaultIsolation | Luc.Lwx/Generator/LwxGenerator_Assembly.cs:113-137 | the same for the checker the driver runs |
| AssemblySpec.RunConcat | Luc.Lwx/Generator/LwxGenerator_Assembly.cs:115-137 | processing two lists in turn is processing their concatenation: every remaining declaration is still processed |
| AssemblySpec.RunGrows | Luc.Lwx/Generator/LwxGenerator_Assembly.cs:113-137 | the loop keeps the tables valid and removes nothing |
| AssemblySpec.BodyTextConcat | Luc.Lwx/Generator/LwxGenerator_Assembly.cs:198-201 | a group body is the in-order concatenation of its fragments' code |
| AssemblySpec.IdClassTextConcat | Luc.Lwx/Generator/LwxGenerator_Assembly.cs:246-250 | the auxiliary declarations are concatenated in fragment order |
| AssemblySpec.PlaceholdersRenderEmpty | Luc.Lwx/Generator/LwxGenerator_Assembly.cs:300-304 | a group of placeholders only, as every scheme group is, renders an empty body and no auxiliary text |
| AssemblySpec.CallableNamed | Luc.Lwx/Generator/LwxGenerator_Assembly.cs:203-210 | every callable rendered for a valid key declares exactly that key as its name |
| AssemblySpec.SignatureNamed | Luc.Lwx/Generator/LwxGenerator_Assembly.cs:254-259 | a `public static void` signature declares the name it was built from |
| AssemblySpec.MethodsAgree | Luc.Lwx/Generator/LwxGenerator_Assembly.cs:195-211 | deterministic rendering: tables whose groups agree render the same callables |
| AssemblySpec.OthersAgree | Luc.Lwx/Generator/LwxGenerator_Assembly.cs:243-250 | tables whose groups agree render the same auxiliary declarations |
| AssemblySpec.AppendExtendsBody | Luc.Lwx/Generator/LwxGenerator_Assembly.cs:24-33 | appending a fragment appends its code to its group's body |
| AssemblySpec.NewGroupRendersLast | Luc.Lwx/Generator/LwxGenerator_Assembly.cs:195-211 | a new group's callable comes after every existing one, which are unchanged |
| AssemblySpec.ExistingGroupGrowsInPlace | Luc.Lwx/Generator/LwxGenerator_Assembly.cs:195-211 | appending to an existing group changes only that group's callable, in its first-insertion position |
| AssemblySpec.MethodsSplit | Luc.Lwx/Generator/LwxGenerator_Assembly.cs:195-211 | the rendering is the groups before a key, that key's callable, and the groups after it |
| Generator.ProductionContext.ReportDiagnostic | Luc.Lwx/Generator/LwxGenerator_Assembly.cs:351-367 | the log grows by exactly the reported diagnostic; sources unchanged |
| Generator.ProductionContext.AddSource | Luc.Lwx/Generator/LwxGenerator_Assembly.cs:235 | the sources grow by exactly the added one; log unchanged |
| Generator.Assembly.Create | Luc.Lwx/Generator/LwxGenerator_Assembly.cs:60-111 | the log gains exactly `LoadSettings`'s diagnostics; construction fails exactly when `ProjectDir` has no value (no declaration, a first node that is not a type declaration, or no directory); otherwise the stored project directory is `ProjectDir`'s, the tables are empty and the settings are the loaded ones |
| Generator.Assembly.AddEndpointMappingMethod | Luc.Lwx/Generator/LwxGenerator_Assembly.cs:24-33 | the endpoint table becomes `Append(group, f)`; the other tables unchanged; validity kept |
| Generator.Assembly.AddPolicyType | Luc.Lwx/Generator/LwxGenerator_Assembly.cs:36-45 | the policy table becomes `Append(group, f)`; the other tables unchanged; validity kept |
| Generator.Assembly.AddSchemeType | Luc.Lwx/Generator/LwxGenerator_Assembly.cs:48-57 | the scheme table becomes `Append(group, f)`; the other tables unchanged; validity kept |
| Generator.Assembly.ReportWarning | Luc.Lwx/Generator/LwxGenerator_Assembly.cs:349-368 | the state is the old one with one report applied; sources unchanged |
| Generator.Assembly.Execute | Luc.Lwx/Generator/LwxGenerator_Assembly.cs:113-189 | the state becomes `Run` over all declarations, then exactly the endpoint, policy and scheme sources are added, in that order |
| Generator.Assembly.GenerateAll | Luc.Lwx/Generator/LwxGenerator_Assembly.cs:185-187 | the three renderers add exactly the endpoint, policy and scheme sources, in that order; the log is unchanged |
| Generator.Assembly.ProcessDeclarations | Luc.Lwx/Generator/LwxGenerator_Assembly.cs:115-137 | the loop leaves exactly `Run(old state, declarations, checker)` and adds no source |
| Generator.Assembly.RenderGroups | Luc.Lwx/Generator/LwxGenerator_Assembly.cs:195-211 | the outer loop builds exactly `Methods` and `Others`: one callable per key in key order, bodies in insertion order |
| Generator.Assembly.RenderGroup | Luc.Lwx/Generator/LwxGenerator_Assembly.cs:197-201 | the inner loop builds exactly `BodyText` and `IdClassText` of the group: every fragment's code and auxiliary declarations, in insertion order |
| Generator.Assembly.GenerateEndpointMappings | Luc.Lwx/Generator/LwxGenerator_Assembly.cs:191-236 | adds exactly `Render(Endpoints, asm, table)` as `GeneratedEndpointMappings.g.cs`, even for an empty table; log unchanged |
| Generator.Assembly.GenerateAuthPolicyMappings | Luc.Lwx/Generator/LwxGenerator_Assembly.cs:238-289 | adds exactly `Render(Policies, asm, table)`; log unchanged |
| Generator.Assembly.GenerateAuthSchemeMappings | Luc.Lwx/Generator/LwxGenerator_Assembly.cs:292-346 | adds exactly `Render(Schemes, asm, table)`; log unchanged |
| Generator.RunStep | Luc.Lwx/Generator/LwxGenerator_Assembly.cs:115-137 | one more loop iteration settles one more declaration |
| Generator.PhaseChain | Luc.Util.Generator/Generator/LucUtilTypeProcessor.cs:38-45 | the chained passes' effects applied pass by pass, stopping at the first that throws |
| Generator.ControllerAttributeStep | Luc.Util.Generator/Generator/LucUtilTypeProcessor.cs:776-788 | one more attribute adds one LUC002 exactly when it is `[Controller]` |
| Generator.TypeProcessor.ExecutePhase1 | Luc.Util.Generator/Generator/LucUtilTypeProcessor.cs:38-45 | the state becomes the old one with `Phase1`'s effects applied, and it throws exactly when `Phase1` does |
| Generator.TypeProcessor.ReportWarning | Luc.Util.Generator/Generator/LucUtilTypeProcessor.cs:791-800 | forwards one report to the aggregator |
| Generator.TypeProcessor.DoEnforceNamingConventions | Luc.Util.Generator/Generator/LucUtilTypeProcessor.cs:692-760 | applies exactly `NamingPass`, so LUC005, LUC003 or LUC004 under its conditions |
| Generator.TypeProcessor.DoBlockOldStyleEndpoints | Luc.Util.Generator/Generator/LucUtilTypeProcessor.cs:762-789 | applies exactly `LegacyPass`: LUC001 for a `ControllerBase` base, then one LUC002 per `[Controller]` attribute |
| Generator.TypeProcessor.DoGenerateEndpointMappings | Luc.Util.Generator/Generator/LucUtilTypeProcessor.cs:334-397 | applies exactly `EndpointPass`, and throws exactly when it does |
| Generator.TypeProcessor.MatchRoute | Luc.Util.Generator/Generator/LucUtilTypeProcessor.cs:399-461 | applies exactly `RouteChecks` |
| Generator.TypeProcessor.CheckBasePath | Luc.Util.Generator/Generator/LucUtilTypeProcessor.cs:463-576 | applies exactly the base-path checks |
| Generator.TypeProcessor.CheckMapping | Luc.Util.Generator/Generator/LucUtilTypeProcessor.cs:578-690 | applies exactly the mapping checks and registration |
| Generator.TypeProcessor.RegisterRoute | Luc.Util.Generator/Generator/LucUtilTypeProcessor.cs:671-689 | the route fragment appended under its key, then one Info LUC008 |
| Generator.TypeProcessor.DoGenerateAuthPolicyMappings | Luc.Util.Generator/Generator/LucUtilTypeProcessor.cs:194-330 | applies exactly `AuthPass(PolicyKind)` |
| Generator.TypeProcessor.DoGenerateAuthSchemeMappings | Luc.Util.Generator/Generator/LucUtilTypeProcessor.cs:47-190 | applies exactly `AuthPass(SchemeKind)` |
| Generator.TypeProcessor.DoGenerateAuthMappings | Luc.Util.Generator/Generator/LucUtilTypeProcessor.cs:51-133 | the shared guard chain, applying exactly `AuthPass(kind)` |
| Generator.TypeProcessor.RegisterAuthorization | Luc.Util.Generator/Generator/LucUtilTypeProcessor.cs:135-150 | the placeholder in the kind's own group, then the binding checks |
| Generator.TypeProcessor.CheckBinding | Luc.Util.Generator/Generator/LucUtilTypeProcessor.cs:137-189 | applies exactly `BindingChecks`: LUC0013, or the binding in the policy group and Info LUC008 |

## Left out

- Roslyn plumbing is not modelled: symbols, `SemanticModel`, `Location`, and
  `DiagnosticDescriptor` construction. A declaration is a plain record, and a
  diagnostic is an id, a severity and an anchor (the type, a marker argument,
  an attribute, or nowhere).
- Diagnostic message texts are not modelled.
- The generated C# templates keep their structure: usings, namespace, class,
  signatures, the `AddAuthorization` wrapper, and the position of the auxiliary
  declarations. Their indentation and blank lines are simplified.
- The comment header of each generated fragment is left out. It contains the
  file, line and column.
- The culture-sensitive `StartsWith`, `EndsWith` and `ToUpper` are modelled as
  ordinal comparison and ASCII upper-casing.
- The URL naming helpers, the JSON deserializer, `Path.GetDirectoryName` and
  `LucGetAttributeValue` are inputs to the model. An absent marker argument is
  read as null.
- `LucUtilAssemblyProcessor` and `LwxGenerator_Type` are not part of this
  model. The Luc.Util checker stands in for the Lwx per-declaration processor.
- Text.IsNullOrEmpty, Text.IfNullOrEmpty, Grammar.UrlNaming: the code of
  `LucIsNullOrEmpty`, `LucIfNullOrEmptyReturn` and the four URL helpers is not
  part of this model. The first two are fixed to the null-or-empty reading, and
  the URL helpers are total functions on strings. A URL helper that returned
  null would make the following `Trim('/')` (lines 582-583) throw and end in
  LUC0912; the model cannot express that case.
- The constructor's `ProjectDir` is computed and stored but not used further.
- Text.FormatLiteral: the escaping of unassigned code points (Unicode category
  Cn) as `\uXXXX` is not modelled, because it needs the Unicode tables. Lone
  surrogates cannot occur in a Dafny string. Every other character is escaped
  as Roslyn does.
- The assembly-name throw (line 109) is left out. A missing assembly name
  cannot be expressed in the declaration record.
- The throws in the checker's constructor for a missing symbol or name are
  left out. Only its cast to a class declaration is modelled, as a fault that
  becomes LUC0912.
- The commented-out LUC0913 scan and LUC012 check are not modelled.
- The values that feed only commented-out code are not modelled.
- Dictionary enumeration is taken to follow first-insertion order. .NET gives
  this for a dictionary that is only ever added to, which is the case here.
- Generator.Assembly.Execute: the claim that nothing is removed is not in its
  own contract. It follows from `Execute`'s ensures together with
  `AssemblySpec.RunGrows`.
