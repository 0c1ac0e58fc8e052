/**
 * The per-declaration rule checker of LucUtilTypeProcessor.cs as pure
 * functions: each pass yields the effects it has on the aggregator and on the
 * diagnostic log, in order, and whether it ends in a fault (a .NET exception,
 * which the per-declaration boundary of the driver catches).
 */
module TypeRules {
  import opened Wrappers
  import opened Text
  import opened Grammar
  import opened Model

  // Marker arguments read by the checker.
  const PathArg := "Path"
  const ParamInPathJustification := "LowMaintanability_ParameterInPath_Justification"
  const NotInApiManagerPathJustification := "LowMaintanability_NotInApiManagerPath_Justification"
  const KeyArg := "GeneratedMethodName"
  const NameArg := "Name"

  const ControllerBase := "Microsoft.AspNetCore.Mvc.ControllerBase"
  const ControllerAttribute := "Microsoft.AspNetCore.Mvc.ControllerAttribute"

  /** Every diagnostic id the checker can report. */
  const CheckerIds: set<string> := {
    "LUC001", "LUC002", "LUC003", "LUC004", "LUC005", "LUC006", "LUC008", "LUC0011", "LUC0012",
    "LUC0013", "LUC0014", "LUC0015", "LUC0016", "LUC0017", "LUC0018", "LUC0022", "LUC0215", "LUC06546"
  }

  /** The effects of a pass, and whether it ended by throwing. */
  datatype Outcome = Outcome(effects: seq<Effect>, fault: bool)

  const Done := Outcome([], false)
  const Fault := Outcome([], true)

  /** `ReportWarning(Error, id, ...)` followed by `return`. */
  function Stop(id: string, anchor: Anchor): Outcome {
    Outcome([Report(Diagnostic(id, Error, anchor))], false)
  }

  function Prepend(es: seq<Effect>, o: Outcome): Outcome {
    Outcome(es + o.effects, o.fault)
  }

  /** `next` runs after `first` unless `first` threw. */
  function AndThen(first: Outcome, next: Outcome): Outcome {
    if first.fault then first else Prepend(first.effects, next)
  }

  /** `LucGetAttributeValue(name)`: the argument's value, or null when it is not given. */
  function Arg(m: Marker, name: string): Option<string> {
    if name in m.args then Some(m.args[name]) else None
  }

  /** The `GeneratedMethodName` argument, defaulting to `{prefix}{assembly name without dots}`. */
  function GeneratorKey(m: Marker, prefix: string, assembly: string): string {
    IfNullOrEmpty(Arg(m, KeyArg), prefix + Replace(assembly, ".", ""))
  }

  predicate IdsWithin(es: seq<Effect>, ids: set<string>) {
    forall e <- es :: e.Report? ==> e.diagnostic.id in ids
  }

  // ------------------------------------------------------------------
  // DoEnforceNamingConventions
  // ------------------------------------------------------------------

  /** The file a public non-partial type must live in: its name relative to the
      assembly (every `{asm}.` removed), dots turned into '/', plus ".cs". */
  function ExpectedFile(d: Declaration): string {
    Replace(Replace(d.fullName, d.assemblyName + ".", ""), ".", "/") + ".cs"
  }

  /** A type `{asm}.A.B.C`, whose relative name holds no further `{asm}.`, belongs in a file ending in `A/B/C.cs`. */
  lemma ExpectedFileOfRelative(d: Declaration, relative: string)
    requires d.fullName == d.assemblyName + "." + relative
    requires forall i: nat :: !OccursAt(relative, d.assemblyName + ".", i)
    ensures ExpectedFile(d) == Replace(relative, ".", "/") + ".cs"
    ensures |ExpectedFile(d)| == |relative| + 3
    ensures forall i :: 0 <= i < |relative| ==> ExpectedFile(d)[i] == if relative[i] == '.' then '/' else relative[i]
  {
    var prefix := d.assemblyName + ".";
    ReplaceLeading(prefix, "", relative);
    ReplaceAbsent(relative, prefix, "");
    assert Replace(d.fullName, prefix, "") == relative;
    ReplaceChar(relative, '.', '/');
  }

  /**
   * `Replace` also removes an `{asm}.` that straddles two segments: the type `{asm}.X{asm}.Y` is
   * expected in `XY.cs`. With assembly `Api`, `Api.MyApi.Foo` is expected in `MyFoo.cs`.
   */
  lemma ExpectedFileCrossesSegments(d: Declaration, x: string, y: string)
    requires d.assemblyName != [] && d.fullName == d.assemblyName + "." + x + d.assemblyName + "." + y
    requires d.assemblyName[0] !in x && d.assemblyName[0] !in y && '.' !in x && '.' !in y
    ensures ExpectedFile(d) == x + y + ".cs"
  {
    var p := d.assemblyName + ".";
    calc {
      Replace(d.fullName, p, "");
      { assert d.fullName == p + (x + (p + y)); }
      Replace(p + (x + (p + y)), p, "");
      { ReplaceLeading(p, "", x + (p + y)); assert "" + Replace(x + (p + y), p, "") == Replace(x + (p + y), p, ""); }
      Replace(x + (p + y), p, "");
      { ReplaceKeepsPrefix(x, p + y, p, ""); }
      x + Replace(p + y, p, "");
      { ReplaceLeading(p, "", y); assert "" + Replace(y, p, "") == Replace(y, p, ""); }
      x + Replace(y, p, "");
      x + y;
    }
    ReplaceKeepsPrefix(x, y, ".", "/");
  }

  /** `{asm}.X{asm}.Y` passes the two name guards when X does not start with `s` or `S`. */
  lemma CrossingSegmentsGuards(d: Declaration, x: string, y: string)
    requires d.fullName == d.assemblyName + "." + x + d.assemblyName + "." + y
    requires x != [] && UpperChar(x[0]) != 'S'
    ensures StartsWith(d.fullName, d.assemblyName + ".")
    ensures !StartsWithIgnoreCase(d.fullName, d.assemblyName + ".src.")
  {
    var a := d.assemblyName;
    assert d.fullName == (a + ".") + (x + a + "." + y);
    assert d.fullName[|a| + 1] == x[0] && (a + ".src.")[|a| + 1] == 's';
    assert ToUpper(d.fullName)[|a| + 1] != ToUpper(a + ".src.")[|a| + 1];
  }

  /** The file `X{asm}/Y.cs` does not end with `XY.cs` when X is a '/'-free non-empty segment. */
  lemma CrossingSegmentsMisplaced(d: Declaration, x: string, y: string)
    requires x != [] && '/' !in x
    requires d.filePath == x + d.assemblyName + "/" + y + ".cs"
    ensures !EndsWith(d.filePath, x + y + ".cs")
  {
    var e := x + y + ".cs";
    var k := |d.filePath| - |e|;
    assert k == |d.assemblyName| + 1;
    assert d.filePath[k + |x| - 1] == '/' && e[|x| - 1] == x[|x| - 1];
  }

  /**
   * Hence such a public non-partial type, kept in `X{asm}/Y.cs` (`Api.MyApi.Foo` in `MyApi/Foo.cs`),
   * draws LUC004.
   */
  lemma CrossingSegmentsDrawsLuc004(d: Declaration, x: string, y: string)
    requires d.assemblyName != [] && d.fullName == d.assemblyName + "." + x + d.assemblyName + "." + y
    requires d.assemblyName[0] !in x && d.assemblyName[0] !in y && '.' !in x && '.' !in y
    requires x != [] && '/' !in x && UpperChar(x[0]) != 'S'
    requires d.isPublic && !d.isPartial && d.filePath == x + d.assemblyName + "/" + y + ".cs"
    ensures NamingPass(d) == [Report(Diagnostic("LUC004", Error, AtType))]
  {
    ExpectedFileCrossesSegments(d, x, y);
    CrossingSegmentsGuards(d, x, y);
    CrossingSegmentsMisplaced(d, x, y);
  }

  function NamingPass(d: Declaration): (es: seq<Effect>)
    ensures IdsWithin(es, {"LUC003", "LUC004", "LUC005"})
    ensures |es| <= 1
    ensures es == [Report(Diagnostic("LUC005", Error, AtType))] <==>
            StartsWithIgnoreCase(d.fullName, d.assemblyName + ".src.")
    ensures es == [Report(Diagnostic("LUC003", Error, AtType))] <==>
            !StartsWithIgnoreCase(d.fullName, d.assemblyName + ".src.") && !StartsWith(d.fullName, d.assemblyName + ".")
    ensures es == [Report(Diagnostic("LUC004", Error, AtType))] <==>
            && !StartsWithIgnoreCase(d.fullName, d.assemblyName + ".src.") && StartsWith(d.fullName, d.assemblyName + ".")
            && d.isPublic && !d.isPartial && !EndsWith(d.filePath, ExpectedFile(d))
  {
    if StartsWithIgnoreCase(d.fullName, d.assemblyName + ".src.") then
      [Report(Diagnostic("LUC005", Error, AtType))]
    else if !StartsWith(d.fullName, d.assemblyName + ".") then
      [Report(Diagnostic("LUC003", Error, AtType))]
    else if d.isPublic && !d.isPartial && !EndsWith(d.filePath, ExpectedFile(d)) then
      [Report(Diagnostic("LUC004", Error, AtType))]
    else
      []
  }

  // ------------------------------------------------------------------
  // DoBlockOldStyleEndpoints
  // ------------------------------------------------------------------

  function CountOf(xs: seq<string>, x: string): nat
    decreases |xs|
  {
    if xs == [] then 0 else CountOf(xs[..|xs| - 1], x) + (if xs[|xs| - 1] == x then 1 else 0)
  }

  /** One LUC002 per `[Controller]` attribute, anchored at that attribute, in attribute order. */
  function ControllerAttributeReports(attrs: seq<string>): (es: seq<Effect>)
    ensures |es| == CountOf(attrs, ControllerAttribute)
    ensures forall k :: 0 <= k < |es| ==>
              && es[k].Report?
              && es[k].diagnostic.id == "LUC002"
              && es[k].diagnostic.severity == Error
              && es[k].diagnostic.anchor.AtAttribute?
              && es[k].diagnostic.anchor.index < |attrs|
              && attrs[es[k].diagnostic.anchor.index] == ControllerAttribute
    ensures forall k, l :: 0 <= k < l < |es| ==> es[k].diagnostic.anchor.index < es[l].diagnostic.anchor.index
    decreases |attrs|
  {
    if attrs == [] then []
    else
      var i := |attrs| - 1;
      ControllerAttributeReports(attrs[..i])
      + if attrs[i] == ControllerAttribute then [Report(Diagnostic("LUC002", Error, AtAttribute(i)))] else []
  }

  /** One LUC001 first when the direct base is `ControllerBase`, then one LUC002 per `[Controller]` attribute. */
  function LegacyPass(d: Declaration): (es: seq<Effect>)
    ensures IdsWithin(es, {"LUC001", "LUC002"})
    ensures d.baseType == Some(ControllerBase) <==> |es| > 0 && es[0] == Report(Diagnostic("LUC001", Error, AtType))
    ensures forall k :: 0 <= k < |es| && es[k].Report? && es[k].diagnostic.id == "LUC001" ==>
              k == 0 && d.baseType == Some(ControllerBase)
    ensures es[if d.baseType == Some(ControllerBase) then 1 else 0..] == ControllerAttributeReports(d.attributeClasses)
    ensures |es| == (if d.baseType == Some(ControllerBase) then 1 else 0) + CountOf(d.attributeClasses, ControllerAttribute)
  {
    (if d.baseType == Some(ControllerBase) then [Report(Diagnostic("LUC001", Error, AtType))] else [])
    + ControllerAttributeReports(d.attributeClasses)
  }

  // ------------------------------------------------------------------
  // DoGenerateEndpointMappings
  // ------------------------------------------------------------------

  function EndpointNamespace(d: Declaration): string {
    d.assemblyName + ".Web.Endpoints."
  }

  function EndpointKey(d: Declaration, m: Marker): string {
    GeneratorKey(m, "MapEndpoints_", d.assemblyName)
  }

  function EndpointPass(d: Declaration, base: Option<string>, n: UrlNaming): Outcome {
    var ns := EndpointNamespace(d);
    if StartsWith(d.fullName, ns) && d.isPublic && d.endpoint.None? then Stop("LUC006", AtType)
    else if d.endpoint.None? then Done
    else if !StartsWith(d.fullName, ns) then Stop("LUC006", AtType)
    else
      var m := d.endpoint.value;
      var key := EndpointKey(d, m);
      if !IsMethodName(key) then Stop("LUC0018", AtArgument(KeyArg))
      else Prepend([Add(Endpoints, key, Placeholder)], RouteChecks(d, m, key, base, n))
  }

  /** From the path match on; the placeholder is already registered. */
  function RouteChecks(d: Declaration, m: Marker, key: string, base: Option<string>, n: UrlNaming): Outcome {
    match Arg(m, PathArg)
    case None => Fault  // Regex.Match(null) throws
    case Some(raw) =>
      match ParseMethodAndPath(raw)
      case None => Stop("LUC0014", AtArgument(PathArg))
      case Some(mp) =>
        Prepend(ParamInPathWarning(m, mp.path),
                BaseChecks(d.fullName, d.assemblyName, !IsNullOrEmpty(Arg(m, NotInApiManagerPathJustification)),
                           RouteArgsOf(m), key, mp, base, n))
  }

  /** LUC0022, reported with Error severity, without stopping the pass. */
  function ParamInPathWarning(m: Marker, path: string): seq<Effect> {
    if '{' in path && IsNullOrWhiteSpace(Arg(m, ParamInPathJustification)) then
      [Report(Diagnostic("LUC0022", Error, AtArgument(PathArg)))]
    else []
  }

  /** The marker arguments the route template reads. */
  datatype RouteArgs = RouteArgs(title: Option<string>, summary: Option<string>, policy: Option<string>, displayName: Option<string>)

  function RouteArgsOf(m: Marker): RouteArgs {
    RouteArgs(Arg(m, "SwaggerGroupTitle"), Arg(m, "SwaggerFuncSummary"), Arg(m, "AuthPolicy"), Arg(m, "SwaggerFuncName"))
  }

  datatype BaseVerdict = MissingBase | BaseEndsWithSlash | UnneededJustification | NotUnderBase | Proceed

  /** The API-manager base-path decision (lines 463-576). */
  function CheckBase(path: string, base: Option<string>, justified: bool): (v: BaseVerdict)
    ensures v == MissingBase <==> base.None?
    ensures v == BaseEndsWithSlash <==> base.Some? && EndsWith(base.value, "/")
    ensures v == UnneededJustification <==>
            base.Some? && !EndsWith(base.value, "/") && StartsWith(path, base.value + "/") && justified
    ensures v == NotUnderBase <==>
            base.Some? && !EndsWith(base.value, "/") && !StartsWith(path, base.value + "/") && justified
    // with a justification the pass never gets past this check
    ensures v == Proceed <==> base.Some? && !EndsWith(base.value, "/") && !justified
  {
    if base.None? then MissingBase
    else if EndsWith(base.value, "/") then BaseEndsWithSlash
    else if StartsWith(path, base.value + "/") then (if justified then UnneededJustification else Proceed)
    else if justified then NotUnderBase
    else Proceed
  }

  /** From the base-path check on; reads the type's name, its assembly and the route arguments. */
  function BaseChecks(fullName: string, assembly: string, justified: bool, args: RouteArgs,
                      key: string, mp: MethodAndPath, base: Option<string>, n: UrlNaming): Outcome {
    match CheckBase(mp.path, base, justified)
    case MissingBase => Stop("LUC0016", AtArgument(PathArg))
    case BaseEndsWithSlash => Stop("LUC06546", AtArgument(PathArg))
    case UnneededJustification => Stop("LUC0215", AtArgument(PathArg))
    case NotUnderBase => Stop("LUC0015", AtArgument(PathArg))
    case Proceed => MappingChecks(fullName, assembly, args, key, mp, base.value, n)
  }

  function MappingChecks(fullName: string, assembly: string, args: RouteArgs,
                         key: string, mp: MethodAndPath, base: string, n: UrlNaming): Outcome {
    match TypeNameReference(mp.path, base)
    case None => Fault  // the slice attrPath[apiManagerPath.Length..] throws
    case Some(reference) =>
      var expected := ExpectedEndpointTypeName(assembly, reference, n);
      if fullName != expected then Stop("LUC0013", AtType)
      else
        match NormalizeMethod(mp.verb)
        case None => Stop("LUC0017", AtArgument(PathArg))
        case Some(verb) =>
          match RouteOf(args, verb, mp.path, expected)
          case None => Fault  // SymbolDisplay.FormatLiteral(null, true) throws
          case Some(route) =>
            Outcome([Add(Endpoints, key, Fragment(route, "")), Report(Diagnostic("LUC008", Info, AtType))], false)
  }

  /** The route fragment; the description slot repeats the summary, as the template does. */
  function RouteOf(args: RouteArgs, verb: Verb, path: string, target: string): Option<Registration> {
    if args.title.None? || args.summary.None? || args.policy.None? then None
    else Some(MapRoute(verb, path, target, if IsNullOrEmpty(args.displayName) then None else args.displayName,
                       args.title.value, args.summary.value, args.summary.value, args.policy.value))
  }

  // ------------------------------------------------------------------
  // DoGenerateAuthPolicyMappings / DoGenerateAuthSchemeMappings
  // ------------------------------------------------------------------

  datatype AuthKind = PolicyKind | SchemeKind {

    function Segment(): string {
      if PolicyKind? then "AuthPolicies" else "AuthSchemes"
    }

    function TypePrefix(): string {
      if PolicyKind? then "AuthPolicy" else "AuthScheme"
    }

    function KeyPrefix(): string {
      if PolicyKind? then "MapAuthPolicies_" else "MapAuthSchemes_"
    }

    /** The group that receives the empty placeholder. */
    function OwnRole(): Role {
      if PolicyKind? then Policies else Schemes
    }

    function MarkerOf(d: Declaration): Option<Marker> {
      if PolicyKind? then d.policy else d.scheme
    }

    function Binding(name: string, target: string): Registration {
      if PolicyKind? then AddPolicy(name, target) else AddScheme(name, target)
    }
  }

  function AuthNamespace(kind: AuthKind, d: Declaration): string {
    d.assemblyName + ".Web." + kind.Segment() + "."
  }

  function AuthKey(kind: AuthKind, d: Declaration, m: Marker): string {
    GeneratorKey(m, kind.KeyPrefix(), d.assemblyName)
  }

  function AuthPass(kind: AuthKind, d: Declaration): Outcome {
    var ns := AuthNamespace(kind, d);
    var marker := kind.MarkerOf(d);
    if StartsWith(d.fullName, ns) && d.isPublic && marker.None? then Stop("LUC0012", AtType)
    else if marker.None? then Done
    else if !d.isPartial then Stop("LUC0011", AtType)
    else if !StartsWith(d.fullName, ns) then Stop("LUC006", AtType)
    else
      var m := marker.value;
      var key := AuthKey(kind, d, m);
      if !IsMethodName(key) then Stop("LUC0018", AtArgument(KeyArg))
      else
        match Arg(m, NameArg)
        case None => Fault  // Regex.IsMatch(null) throws
        case Some(name) =>
          if !IsPropertyName(name) then Stop("LUC0018", AtArgument(NameArg))
          else Prepend([Add(kind.OwnRole(), key, Placeholder)], BindingChecks(kind, d, key, name))
  }

  /** After the placeholder: the name check, then the binding, which always goes to the policy group. */
  function BindingChecks(kind: AuthKind, d: Declaration, key: string, name: string): Outcome {
    if d.fullName != AuthNamespace(kind, d) + kind.TypePrefix() + name then Stop("LUC0013", AtType)
    else Outcome([Add(Policies, key, Fragment(kind.Binding(name, d.fullName), "")),
                  Report(Diagnostic("LUC008", Info, AtType))], false)
  }

  // ------------------------------------------------------------------
  // ExecutePhase1
  // ------------------------------------------------------------------

  /** The constructor's cast to a class declaration, then the five passes in order; a fault ends the run early. */
  function Phase1(d: Declaration, base: Option<string>, n: UrlNaming): Outcome {
    if d.node != ClassDeclaration then Fault
    else
      AndThen(Outcome(NamingPass(d) + LegacyPass(d), false),
        AndThen(EndpointPass(d, base, n),
          AndThen(AuthPass(PolicyKind, d), AuthPass(SchemeKind, d))))
  }
}
