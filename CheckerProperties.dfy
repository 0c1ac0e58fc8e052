/**
 * What the checker of LucUtilTypeProcessor.cs promises, stated over the pass
 * functions of TypeRules: when a declaration is accepted and what it then
 * registers, the order of the guards, the advisory nature of LUC0022, the
 * placeholder rule and the diagnostic ids a pass can produce.
 */
module CheckerProperties {
  import opened Wrappers
  import opened Text
  import opened Grammar
  import opened Model
  import opened TypeRules

  // ------------------------------------------------------------------
  // Endpoints
  // ------------------------------------------------------------------

  /** Neither registers a fragment other than a placeholder nor reports an Info diagnostic. */
  predicate Silent(es: seq<Effect>) {
    Registered(es) == [] && Infos(es) == []
  }

  lemma SilentConcat(a: seq<Effect>, b: seq<Effect>)
    ensures Silent(a + b) <==> Silent(a) && Silent(b)
  {
    RegisteredConcat(a, b);
    InfosConcat(a, b);
  }

  lemma IdsWithinConcat(a: seq<Effect>, b: seq<Effect>, ids: set<string>)
    ensures IdsWithin(a + b, ids) <==> IdsWithin(a, ids) && IdsWithin(b, ids)
  {
    if IdsWithin(a, ids) && IdsWithin(b, ids) {
      forall e | e in a + b ensures e.Report? ==> e.diagnostic.id in ids {
        assert e in a || e in b;
      }
    }
  }

  /** A single Error report, or a placeholder, is silent. */
  lemma SingleSilent(e: Effect)
    requires (e.Report? && e.diagnostic.severity == Error) || (e.Add? && e.fragment == Placeholder)
    ensures Silent([e])
  {
    assert [e][1..] == [];
  }

  /** The base-path checks as RouteChecks applies them to `d` and its marker `m`. */
  function BaseOf(d: Declaration, m: Marker, key: string, mp: MethodAndPath, base: Option<string>, n: UrlNaming): Outcome {
    BaseChecks(d.fullName, d.assemblyName, !IsNullOrEmpty(Arg(m, NotInApiManagerPathJustification)),
               RouteArgsOf(m), key, mp, base, n)
  }

  /** The mapping checks as BaseChecks applies them to `d` and its marker `m`. */
  function MappingOf(d: Declaration, m: Marker, key: string, mp: MethodAndPath, base: string, n: UrlNaming): Outcome {
    MappingChecks(d.fullName, d.assemblyName, RouteArgsOf(m), key, mp, base, n)
  }

  /** The checks after the base path was accepted, as one condition. */
  predicate MappingAccepted(d: Declaration, m: Marker, mp: MethodAndPath, base: string, n: UrlNaming) {
    && |base| <= |mp.path|
    && d.fullName == ExpectedEndpointTypeName(d.assemblyName, TypeNameReference(mp.path, base).value, n)
    && NormalizeMethod(mp.verb).Some?
    && Arg(m, "SwaggerGroupTitle").Some?
    && Arg(m, "SwaggerFuncSummary").Some?
    && Arg(m, "AuthPolicy").Some?
  }

  /** The route fragment of an accepted mapping. */
  function RouteFragment(d: Declaration, m: Marker, mp: MethodAndPath, base: string, n: UrlNaming): (f: Fragment)
    requires MappingAccepted(d, m, mp, base, n)
    ensures f != Placeholder && f.code.MapRoute?
    ensures f.code.target == d.fullName && f.code.path == mp.path
    ensures f.code.verb.Upper() == ToUpper(mp.verb)
  {
    Fragment(RouteOf(RouteArgsOf(m), NormalizeMethod(mp.verb).value, mp.path, d.fullName).value, "")
  }

  lemma MappingFacts(d: Declaration, m: Marker, key: string, mp: MethodAndPath, base: string, n: UrlNaming)
    ensures IdsWithin(MappingOf(d, m, key, mp, base, n).effects, {"LUC0013", "LUC0017", "LUC008"})
    ensures MappingAccepted(d, m, mp, base, n) ==>
              MappingOf(d, m, key, mp, base, n) ==
                Outcome([Add(Endpoints, key, RouteFragment(d, m, mp, base, n)), Report(Diagnostic("LUC008", Info, AtType))], false)
    ensures !MappingAccepted(d, m, mp, base, n) ==> Silent(MappingOf(d, m, key, mp, base, n).effects)
  {
    var o := MappingOf(d, m, key, mp, base, n);
    if MappingAccepted(d, m, mp, base, n) {
      MappingAcceptedOutcome(d, m, key, mp, base, n);
    } else {
      MappingRejectedOutcome(d, m, key, mp, base, n);
      if o != Fault {
        var id := o.effects[0].diagnostic.id;
        assert id == "LUC0013" || id == "LUC0017";
        SingleSilent(o.effects[0]);
      }
    }
  }

  lemma MappingAcceptedOutcome(d: Declaration, m: Marker, key: string, mp: MethodAndPath, base: string, n: UrlNaming)
    requires MappingAccepted(d, m, mp, base, n)
    ensures MappingOf(d, m, key, mp, base, n) ==
              Outcome([Add(Endpoints, key, RouteFragment(d, m, mp, base, n)), Report(Diagnostic("LUC008", Info, AtType))], false)
  {
  }

  lemma MappingRejectedOutcome(d: Declaration, m: Marker, key: string, mp: MethodAndPath, base: string, n: UrlNaming)
    requires !MappingAccepted(d, m, mp, base, n)
    ensures MappingOf(d, m, key, mp, base, n) in {Fault, Stop("LUC0013", AtType), Stop("LUC0017", AtArgument(PathArg))}
  {
  }

  /** The accepted path of RouteChecks, from the path argument on. */
  predicate RouteAccepted(d: Declaration, m: Marker, base: Option<string>, n: UrlNaming) {
    && Arg(m, PathArg).Some?
    && ParseMethodAndPath(Arg(m, PathArg).value).Some?
    && base.Some?
    && !EndsWith(base.value, "/")
    && IsNullOrEmpty(Arg(m, NotInApiManagerPathJustification))
    && MappingAccepted(d, m, ParseMethodAndPath(Arg(m, PathArg).value).value, base.value, n)
  }

  /** LUC0022 is reported, with Error severity at the path argument, exactly for a path
      with a parameter and no justification; it neither registers nor informs. */
  lemma WarningFacts(m: Marker, path: string)
    ensures Silent(ParamInPathWarning(m, path)) && IdsWithin(ParamInPathWarning(m, path), CheckerIds)
    ensures |ParamInPathWarning(m, path)| <= 1
    ensures ParamInPathWarning(m, path) != [] <==> '{' in path && IsNullOrWhiteSpace(Arg(m, ParamInPathJustification))
    ensures ParamInPathWarning(m, path) != [] ==>
              ParamInPathWarning(m, path) == [Report(Diagnostic("LUC0022", Error, AtArgument(PathArg)))]
  {
    if ParamInPathWarning(m, path) != [] {
      SingleSilent(ParamInPathWarning(m, path)[0]);
    }
  }

  lemma RouteFacts(d: Declaration, m: Marker, key: string, base: Option<string>, n: UrlNaming)
    ensures IdsWithin(RouteChecks(d, m, key, base, n).effects, CheckerIds)
    ensures RouteAccepted(d, m, base, n) ==>
              var mp := ParseMethodAndPath(Arg(m, PathArg).value).value;
              RouteChecks(d, m, key, base, n) ==
                Outcome(ParamInPathWarning(m, mp.path)
                        + [Add(Endpoints, key, RouteFragment(d, m, mp, base.value, n)), Report(Diagnostic("LUC008", Info, AtType))],
                        false)
    ensures !RouteAccepted(d, m, base, n) ==> Silent(RouteChecks(d, m, key, base, n).effects)
  {
    var o := RouteChecks(d, m, key, base, n);
    if Arg(m, PathArg).Some? && ParseMethodAndPath(Arg(m, PathArg).value).Some? {
      var mp := ParseMethodAndPath(Arg(m, PathArg).value).value;
      var w := ParamInPathWarning(m, mp.path);
      var b := BaseOf(d, m, key, mp, base, n);
      assert o == Prepend(w, b);
      WarningFacts(m, mp.path);
      SilentConcat(w, b.effects);
      IdsWithinConcat(w, b.effects, CheckerIds);
      BaseFacts(d, m, key, mp, base, n);
      IdsWithinMono(b.effects, {"LUC0016", "LUC06546", "LUC0215", "LUC0015", "LUC0013", "LUC0017", "LUC008"}, CheckerIds);
      if CheckBase(mp.path, base, !IsNullOrEmpty(Arg(m, NotInApiManagerPathJustification))) == Proceed {
        MappingFacts(d, m, key, mp, base.value, n);
      } else {
        SingleSilent(b.effects[0]);
        assert b.effects == [b.effects[0]];
      }
    } else if o.effects != [] {
      SingleSilent(o.effects[0]);
      assert o.effects == [o.effects[0]];
    }
  }

  /** The guards of the mapping checks in source order: the first one that fails decides. */
  lemma MappingGuardOrder(d: Declaration, m: Marker, key: string, mp: MethodAndPath, base: string, n: UrlNaming)
    ensures |mp.path| < |base| ==> MappingOf(d, m, key, mp, base, n) == Fault
    ensures |base| <= |mp.path| && d.fullName != ExpectedEndpointTypeName(d.assemblyName, TypeNameReference(mp.path, base).value, n) ==>
              MappingOf(d, m, key, mp, base, n) == Stop("LUC0013", AtType)
    ensures |base| <= |mp.path| && d.fullName == ExpectedEndpointTypeName(d.assemblyName, TypeNameReference(mp.path, base).value, n)
            && NormalizeMethod(mp.verb).None? ==>
              MappingOf(d, m, key, mp, base, n) == Stop("LUC0017", AtArgument(PathArg))
    ensures |base| <= |mp.path| && d.fullName == ExpectedEndpointTypeName(d.assemblyName, TypeNameReference(mp.path, base).value, n)
            && NormalizeMethod(mp.verb).Some? ==>
              (MappingOf(d, m, key, mp, base, n).fault <==>
                 Arg(m, "SwaggerGroupTitle").None? || Arg(m, "SwaggerFuncSummary").None? || Arg(m, "AuthPolicy").None?)
  {
  }

  /** The base-path verdicts and the diagnostic each one stops with. */
  lemma BaseGuardOrder(d: Declaration, m: Marker, key: string, mp: MethodAndPath, base: Option<string>, n: UrlNaming)
    ensures var v := CheckBase(mp.path, base, !IsNullOrEmpty(Arg(m, NotInApiManagerPathJustification)));
            && (v == MissingBase ==> BaseOf(d, m, key, mp, base, n) == Stop("LUC0016", AtArgument(PathArg)))
            && (v == BaseEndsWithSlash ==> BaseOf(d, m, key, mp, base, n) == Stop("LUC06546", AtArgument(PathArg)))
            && (v == UnneededJustification ==> BaseOf(d, m, key, mp, base, n) == Stop("LUC0215", AtArgument(PathArg)))
            && (v == NotUnderBase ==> BaseOf(d, m, key, mp, base, n) == Stop("LUC0015", AtArgument(PathArg)))
            && (v == Proceed ==> BaseOf(d, m, key, mp, base, n) == MappingOf(d, m, key, mp, base.value, n))
  {
  }

  /** The guards of the route checks in source order: no path throws, an unparsable one
      stops with LUC0014, and a parsed one is LUC0022 (when due) followed by the base-path checks. */
  lemma RouteGuardOrder(d: Declaration, m: Marker, key: string, base: Option<string>, n: UrlNaming)
    ensures Arg(m, PathArg).None? ==> RouteChecks(d, m, key, base, n) == Fault
    ensures Arg(m, PathArg).Some? && ParseMethodAndPath(Arg(m, PathArg).value).None? ==>
              RouteChecks(d, m, key, base, n) == Stop("LUC0014", AtArgument(PathArg))
    ensures Arg(m, PathArg).Some? && ParseMethodAndPath(Arg(m, PathArg).value).Some? ==>
              var mp := ParseMethodAndPath(Arg(m, PathArg).value).value;
              RouteChecks(d, m, key, base, n) == Prepend(ParamInPathWarning(m, mp.path), BaseOf(d, m, key, mp, base, n))
  {
  }

  /** The guards of the endpoint pass in source order: an unmarked public type in the
      endpoint namespace and a marked type outside it get LUC006, an invalid key LUC0018;
      past them the placeholder is registered before the route checks run. */
  lemma EndpointGuardOrder(d: Declaration, base: Option<string>, n: UrlNaming)
    ensures d.endpoint.None? ==>
              EndpointPass(d, base, n) ==
                if StartsWith(d.fullName, EndpointNamespace(d)) && d.isPublic then Stop("LUC006", AtType) else Done
    ensures d.endpoint.Some? && !StartsWith(d.fullName, EndpointNamespace(d)) ==> EndpointPass(d, base, n) == Stop("LUC006", AtType)
    ensures d.endpoint.Some? && StartsWith(d.fullName, EndpointNamespace(d)) && !IsMethodName(EndpointKey(d, d.endpoint.value)) ==>
              EndpointPass(d, base, n) == Stop("LUC0018", AtArgument(KeyArg))
    ensures d.endpoint.Some? && StartsWith(d.fullName, EndpointNamespace(d)) && IsMethodName(EndpointKey(d, d.endpoint.value)) ==>
              var key := EndpointKey(d, d.endpoint.value);
              && EndpointPass(d, base, n).effects[0] == Add(Endpoints, key, Placeholder)
              && EndpointPass(d, base, n).effects[1..] == RouteChecks(d, d.endpoint.value, key, base, n).effects
              && EndpointPass(d, base, n).fault == RouteChecks(d, d.endpoint.value, key, base, n).fault
  {
    if d.endpoint.Some? && StartsWith(d.fullName, EndpointNamespace(d)) && IsMethodName(EndpointKey(d, d.endpoint.value)) {
      EndpointUnfold(d, base, n);
    }
  }

  /** Every guard of the endpoint pass, written as one flat condition. */
  predicate EndpointAccepted(d: Declaration, base: Option<string>, n: UrlNaming) {
    && d.endpoint.Some?
    && StartsWith(d.fullName, EndpointNamespace(d))
    && IsMethodName(EndpointKey(d, d.endpoint.value))
    && RouteAccepted(d, d.endpoint.value, base, n)
  }

  /** The pass once the type is in the endpoint namespace with a valid key: a placeholder, then the route checks. */
  lemma EndpointUnfold(d: Declaration, base: Option<string>, n: UrlNaming)
    requires d.endpoint.Some? && StartsWith(d.fullName, EndpointNamespace(d))
    requires IsMethodName(EndpointKey(d, d.endpoint.value))
    ensures var key := EndpointKey(d, d.endpoint.value);
            EndpointPass(d, base, n) == Prepend([Add(Endpoints, key, Placeholder)], RouteChecks(d, d.endpoint.value, key, base, n))
  {
  }

  /** Placeholder, silent reports, one fragment and LUC008: what an accepted pass amounts to. */
  lemma AcceptedShape(own: Role, role: Role, key: string, w: seq<Effect>, f: Fragment)
    requires Silent(w) && f != Placeholder
    ensures var es := [Add(own, key, Placeholder)] + w + [Add(role, key, f), Report(Diagnostic("LUC008", Info, AtType))];
            Registered(es) == [Add(role, key, f)] && Infos(es) == [Diagnostic("LUC008", Info, AtType)]
  {
    var head := [Add(own, key, Placeholder)];
    var tail := [Add(role, key, f), Report(Diagnostic("LUC008", Info, AtType))];
    SingleSilent(head[0]);
    SilentConcat(head, w);
    RegisteredConcat(head + w, tail);
    InfosConcat(head + w, tail);
    assert tail[1..][1..] == [];
    assert Registered(tail[1..]) == [] && Infos(tail[1..]) == [Diagnostic("LUC008", Info, AtType)];
    assert Registered(tail) == [Add(role, key, f)] && Infos(tail) == [Diagnostic("LUC008", Info, AtType)];
  }

  /** The effects of an accepted endpoint pass. */
  lemma EndpointAcceptedEffects(d: Declaration, base: Option<string>, n: UrlNaming)
    requires EndpointAccepted(d, base, n)
    ensures var m := d.endpoint.value;
            var key := EndpointKey(d, m);
            var mp := ParseMethodAndPath(Arg(m, PathArg).value).value;
            EndpointPass(d, base, n) ==
              Outcome([Add(Endpoints, key, Placeholder)] + ParamInPathWarning(m, mp.path)
                      + [Add(Endpoints, key, RouteFragment(d, m, mp, base.value, n)), Report(Diagnostic("LUC008", Info, AtType))],
                      false)
  {
    var m := d.endpoint.value;
    var key := EndpointKey(d, m);
    EndpointUnfold(d, base, n);
    RouteFacts(d, m, key, base, n);
  }

  lemma EndpointRejected(d: Declaration, base: Option<string>, n: UrlNaming)
    requires !EndpointAccepted(d, base, n)
    ensures Silent(EndpointPass(d, base, n).effects)
  {
    var o := EndpointPass(d, base, n);
    if d.endpoint.Some? && StartsWith(d.fullName, EndpointNamespace(d)) && IsMethodName(EndpointKey(d, d.endpoint.value)) {
      var m := d.endpoint.value;
      var key := EndpointKey(d, m);
      var head := [Add(Endpoints, key, Placeholder)];
      EndpointUnfold(d, base, n);
      RouteFacts(d, m, key, base, n);
      SingleSilent(head[0]);
      SilentConcat(head, RouteChecks(d, m, key, base, n).effects);
    } else if o.effects != [] {
      SingleSilent(o.effects[0]);
      assert o.effects == [o.effects[0]];
    }
  }

  /** An endpoint pass registers exactly one route, for the declaration itself, and
      reports LUC008 exactly when every guard holds; otherwise it registers nothing
      beyond the placeholder and reports no Info diagnostic. */
  lemma EndpointRegistration(d: Declaration, base: Option<string>, n: UrlNaming)
    ensures !EndpointAccepted(d, base, n) ==> Silent(EndpointPass(d, base, n).effects)
    ensures var o := EndpointPass(d, base, n);
            EndpointAccepted(d, base, n) ==>
              && !o.fault
              && Infos(o.effects) == [Diagnostic("LUC008", Info, AtType)]
              && |Registered(o.effects)| == 1
              && var e := Registered(o.effects)[0];
                 var mp := ParseMethodAndPath(Arg(d.endpoint.value, PathArg).value).value;
                 && e.Add?
                 && e.role == Endpoints
                 && e.key == EndpointKey(d, d.endpoint.value)
                 && e.fragment.code.MapRoute?
                 && e.fragment.code.target == d.fullName
                 && e.fragment.code.path == mp.path
                 && e.fragment.code.verb.Upper() == ToUpper(mp.verb)
  {
    if EndpointAccepted(d, base, n) {
      var m := d.endpoint.value;
      var mp := ParseMethodAndPath(Arg(m, PathArg).value).value;
      EndpointAcceptedEffects(d, base, n);
      WarningFacts(m, mp.path);
      AcceptedShape(Endpoints, Endpoints, EndpointKey(d, m), ParamInPathWarning(m, mp.path), RouteFragment(d, m, mp, base.value, n));
    } else {
      EndpointRejected(d, base, n);
    }
  }

  /** `d` with one more argument on its `[LucEndpoint]` marker. */
  function WithEndpointArg(d: Declaration, name: string, value: string): (d': Declaration)
    requires d.endpoint.Some?
    ensures d'.endpoint.Some? && Arg(d'.endpoint.value, name) == Some(value)
    ensures forall other :: other != name ==> Arg(d'.endpoint.value, other) == Arg(d.endpoint.value, other)
  {
    d.(endpoint := Some(Marker(d.endpoint.value.args[name := value])))
  }

  /** `es` without the reports of diagnostic `id`. */
  function Dropping(es: seq<Effect>, id: string): (r: seq<Effect>)
    ensures |r| <= |es|
    ensures forall e <- r :: e in es && !(e.Report? && e.diagnostic.id == id)
    decreases |es|
  {
    if es == [] then []
    else (if es[0].Report? && es[0].diagnostic.id == id then [] else [es[0]]) + Dropping(es[1..], id)
  }

  lemma {:induction false} DroppingConcat(a: seq<Effect>, b: seq<Effect>, id: string)
    ensures Dropping(a + b, id) == Dropping(a, id) + Dropping(b, id)
    decreases |a|
  {
    if a != [] {
      assert (a + b)[0] == a[0] && (a + b)[1..] == a[1..] + b;
      DroppingConcat(a[1..], b, id);
    } else {
      assert a + b == b;
    }
  }

  lemma {:induction false} DroppingAbsent(es: seq<Effect>, id: string)
    requires forall e <- es :: !(e.Report? && e.diagnostic.id == id)
    ensures Dropping(es, id) == es
    decreases |es|
  {
    if es != [] {
      assert es[0] in es;
      assert forall e <- es[1..] :: e in es;
      DroppingAbsent(es[1..], id);
      assert es == [es[0]] + es[1..];
    }
  }

  lemma IdsWithinMono(es: seq<Effect>, a: set<string>, b: set<string>)
    requires IdsWithin(es, a) && a <= b
    ensures IdsWithin(es, b)
  {
  }

  /** The base-path checks: one stop per verdict, or the mapping checks. */
  lemma BaseFacts(d: Declaration, m: Marker, key: string, mp: MethodAndPath, base: Option<string>, n: UrlNaming)
    ensures IdsWithin(BaseOf(d, m, key, mp, base, n).effects,
                      {"LUC0016", "LUC06546", "LUC0215", "LUC0015", "LUC0013", "LUC0017", "LUC008"})
  {
    if CheckBase(mp.path, base, !IsNullOrEmpty(Arg(m, NotInApiManagerPathJustification))) == Proceed {
      MappingFacts(d, m, key, mp, base.value, n);
    }
  }

  lemma DroppingOutside(es: seq<Effect>, ids: set<string>, id: string)
    requires IdsWithin(es, ids) && id !in ids
    ensures Dropping(es, id) == es
  {
    DroppingAbsent(es, id);
  }

  /** The route checks with the parameter-in-path justification given: the same outcome without LUC0022. */
  lemma RouteChecksAdvisory(d: Declaration, d': Declaration, m: Marker, m': Marker,
                            key: string, base: Option<string>, n: UrlNaming)
    requires d.fullName == d'.fullName && d.assemblyName == d'.assemblyName
    requires Arg(m', PathArg) == Arg(m, PathArg) && RouteArgsOf(m') == RouteArgsOf(m)
    requires Arg(m', NotInApiManagerPathJustification) == Arg(m, NotInApiManagerPathJustification)
    requires !IsNullOrWhiteSpace(Arg(m', ParamInPathJustification))
    ensures RouteChecks(d', m', key, base, n).fault == RouteChecks(d, m, key, base, n).fault
    ensures RouteChecks(d', m', key, base, n).effects == Dropping(RouteChecks(d, m, key, base, n).effects, "LUC0022")
    ensures |RouteChecks(d, m, key, base, n).effects| <= |RouteChecks(d', m', key, base, n).effects| + 1
  {
    if Arg(m, PathArg).Some? && ParseMethodAndPath(Arg(m, PathArg).value).Some? {
      ParsedRouteAdvisory(d, d', m, m', key, base, n);
    } else {
      RouteStops(d, m, key, base, n);
      RouteStops(d', m', key, base, n);
      DroppingOutside(RouteChecks(d, m, key, base, n).effects, {"LUC0014"}, "LUC0022");
    }
  }

  lemma ParsedRouteAdvisory(d: Declaration, d': Declaration, m: Marker, m': Marker,
                            key: string, base: Option<string>, n: UrlNaming)
    requires d.fullName == d'.fullName && d.assemblyName == d'.assemblyName
    requires Arg(m', PathArg) == Arg(m, PathArg) && RouteArgsOf(m') == RouteArgsOf(m)
    requires Arg(m', NotInApiManagerPathJustification) == Arg(m, NotInApiManagerPathJustification)
    requires !IsNullOrWhiteSpace(Arg(m', ParamInPathJustification))
    requires Arg(m, PathArg).Some? && ParseMethodAndPath(Arg(m, PathArg).value).Some?
    ensures RouteChecks(d', m', key, base, n).fault == RouteChecks(d, m, key, base, n).fault
    ensures RouteChecks(d', m', key, base, n).effects == Dropping(RouteChecks(d, m, key, base, n).effects, "LUC0022")
    ensures |RouteChecks(d, m, key, base, n).effects| <= |RouteChecks(d', m', key, base, n).effects| + 1
  {
    var mp := ParseMethodAndPath(Arg(m, PathArg).value).value;
    var w := ParamInPathWarning(m, mp.path);
    var b := BaseOf(d, m, key, mp, base, n);
    RouteUnfold(d, m, key, base, n);
    RouteUnfold(d', m', key, base, n);
    assert ParamInPathWarning(m', mp.path) == [];
    BaseFacts(d, m, key, mp, base, n);
    DroppingConcat(w, b.effects, "LUC0022");
    DroppingOutside(b.effects, {"LUC0016", "LUC06546", "LUC0215", "LUC0015", "LUC0013", "LUC0017", "LUC008"}, "LUC0022");
    WarningDropped(m, mp.path);
  }

  /** Before the base-path checks: a fault, or LUC0014 alone. */
  lemma RouteStops(d: Declaration, m: Marker, key: string, base: Option<string>, n: UrlNaming)
    requires Arg(m, PathArg).None? || ParseMethodAndPath(Arg(m, PathArg).value).None?
    ensures RouteChecks(d, m, key, base, n) ==
              if Arg(m, PathArg).None? then Fault else Stop("LUC0014", AtArgument(PathArg))
    ensures IdsWithin(RouteChecks(d, m, key, base, n).effects, {"LUC0014"})
  {
  }

  lemma RouteUnfold(d: Declaration, m: Marker, key: string, base: Option<string>, n: UrlNaming)
    requires Arg(m, PathArg).Some? && ParseMethodAndPath(Arg(m, PathArg).value).Some?
    ensures var mp := ParseMethodAndPath(Arg(m, PathArg).value).value;
            RouteChecks(d, m, key, base, n) == Prepend(ParamInPathWarning(m, mp.path), BaseOf(d, m, key, mp, base, n))
  {
  }

  lemma WarningDropped(m: Marker, path: string)
    ensures Dropping(ParamInPathWarning(m, path), "LUC0022") == []
    ensures |ParamInPathWarning(m, path)| <= 1
  {
    var w := ParamInPathWarning(m, path);
    if w != [] { assert w[1..] == []; }
  }


  /** LUC0022 is advisory: justifying a parameter in the path removes that one report
      and changes nothing else the endpoint pass does. */
  lemma ParamInPathIsAdvisory(d: Declaration, base: Option<string>, n: UrlNaming, j: string)
    requires d.endpoint.Some?
    requires !IsNullOrWhiteSpace(Some(j))
    ensures var o := EndpointPass(d, base, n);
            var o' := EndpointPass(WithEndpointArg(d, ParamInPathJustification, j), base, n);
            && o'.fault == o.fault
            && o'.effects == Dropping(o.effects, "LUC0022")
            && |o.effects| <= |o'.effects| + 1
  {
    var d' := WithEndpointArg(d, ParamInPathJustification, j);
    var o := EndpointPass(d, base, n);
    var m := d.endpoint.value;
    var m' := d'.endpoint.value;
    var key := EndpointKey(d, m);
    assert Arg(m', KeyArg) == Arg(m, KeyArg);
    assert EndpointKey(d', m') == key;
    assert Arg(m', PathArg) == Arg(m, PathArg) && RouteArgsOf(m') == RouteArgsOf(m);
    assert Arg(m', NotInApiManagerPathJustification) == Arg(m, NotInApiManagerPathJustification);
    if StartsWith(d.fullName, EndpointNamespace(d)) && IsMethodName(key) {
      var head := [Add(Endpoints, key, Placeholder)];
      EndpointUnfold(d, base, n);
      EndpointUnfold(d', base, n);
      RouteChecksAdvisory(d, d', m, m', key, base, n);
      DroppingConcat(head, RouteChecks(d, m, key, base, n).effects, "LUC0022");
      DroppingAbsent(head, "LUC0022");
    } else {
      assert o.effects == [] || o.effects == [o.effects[0]];
      DroppingAbsent(o.effects, "LUC0022");
    }
  }

  /** Once the type is in the endpoint namespace with a valid key, the key has a group,
      whatever the later checks decide. */
  lemma EndpointGroupRegistered(s: State, d: Declaration, base: Option<string>, n: UrlNaming)
    requires s.Valid()
    requires d.endpoint.Some? && StartsWith(d.fullName, EndpointNamespace(d))
    requires IsMethodName(EndpointKey(d, d.endpoint.value))
    ensures EndpointKey(d, d.endpoint.value) in s.ApplyAll(EndpointPass(d, base, n).effects).endpoints.keys
  {
    var key := EndpointKey(d, d.endpoint.value);
    var head := [Add(Endpoints, key, Placeholder)];
    var rest := RouteChecks(d, d.endpoint.value, key, base, n).effects;
    EndpointUnfold(d, base, n);
    ApplyAllConcat(s, head, rest);
    var s1 := s.ApplyAll(head);
    assert s1 == s.Apply(head[0]).ApplyAll([]) by { assert head[1..] == []; }
    AppendSpec(s.endpoints, key, Placeholder);
    ApplyAllGrows(s1, rest);
  }

  /** Reports leave every table as it is. */
  lemma {:induction false} ApplyReports(s: State, w: seq<Effect>)
    requires forall e <- w :: e.Report?
    ensures s.ApplyAll(w).endpoints == s.endpoints
    ensures s.ApplyAll(w).policies == s.policies
    ensures s.ApplyAll(w).schemes == s.schemes
    decreases |w|
  {
    if w != [] {
      assert w[0] in w;
      assert forall e <- w[1..] :: e in w;
      ApplyReports(s.Apply(w[0]), w[1..]);
    }
  }

  /** One addition: the group under `key` of that role grows by `f`. */
  lemma ApplyAdd(s: State, role: Role, key: string, f: Fragment)
    requires s.Valid()
    ensures s.Apply(Add(role, key, f)).Valid()
    ensures s.Apply(Add(role, key, f)).Of(role).Group(key) == s.Of(role).Group(key) + [f]
  {
    AppendSpec(s.Of(role), key, f);
  }

  /** A fragment and then its LUC008: the group under `key` grows by the fragment. */
  lemma ApplyRegistration(s: State, role: Role, key: string, f: Fragment)
    requires s.Valid()
    ensures var t := s.ApplyAll([Add(role, key, f), Report(Diagnostic("LUC008", Info, AtType))]);
            t.Valid() && t.Of(role).Group(key) == s.Of(role).Group(key) + [f]
  {
    var tail := [Add(role, key, f), Report(Diagnostic("LUC008", Info, AtType))];
    assert tail == [tail[0]] + [tail[1]];
    ApplyAllConcat(s, [tail[0]], [tail[1]]);
    ApplyAllOne(s, tail[0]);
    ApplyAdd(s, role, key, f);
    ApplyAllOne(s.Apply(tail[0]), tail[1]);
  }

  /** Applying an accepted shape: the group under `key` grows by the placeholder and then the fragment. */
  lemma ApplyAcceptedShape(s: State, role: Role, key: string, w: seq<Effect>, f: Fragment)
    requires s.Valid()
    requires forall e <- w :: e.Report?
    ensures var t := s.ApplyAll([Add(role, key, Placeholder)] + w + [Add(role, key, f), Report(Diagnostic("LUC008", Info, AtType))]);
            t.Of(role).Group(key) == s.Of(role).Group(key) + [Placeholder, f]
  {
    var head := [Add(role, key, Placeholder)];
    var tail := [Add(role, key, f), Report(Diagnostic("LUC008", Info, AtType))];
    ApplyAllConcat(s, head + w, tail);
    ApplyAllConcat(s, head, w);
    ApplyAllOne(s, head[0]);
    ApplyAdd(s, role, key, Placeholder);
    var s1 := s.Apply(head[0]);
    ApplyReports(s1, w);
    var s2 := s1.ApplyAll(w);
    assert s2.Of(role) == s1.Of(role);
    ApplyRegistration(s2, role, key, f);
    assert s.Of(role).Group(key) + [Placeholder] + [f] == s.Of(role).Group(key) + [Placeholder, f];
  }

  /** The route an accepted endpoint pass registers. */
  function AcceptedRoute(d: Declaration, base: Option<string>, n: UrlNaming): Fragment
    requires EndpointAccepted(d, base, n)
  {
    RouteFragment(d, d.endpoint.value, ParseMethodAndPath(Arg(d.endpoint.value, PathArg).value).value, base.value, n)
  }

  /** An accepted pass appends its placeholder and then its route to its group. */
  lemma AcceptedEndpointApply(s: State, d: Declaration, base: Option<string>, n: UrlNaming)
    requires s.Valid()
    requires EndpointAccepted(d, base, n)
    ensures var key := EndpointKey(d, d.endpoint.value);
            && s.ApplyAll(EndpointPass(d, base, n).effects).Valid()
            && s.ApplyAll(EndpointPass(d, base, n).effects).endpoints.Group(key)
                 == s.endpoints.Group(key) + [Placeholder, AcceptedRoute(d, base, n)]
  {
    ApplyAllGrows(s, EndpointPass(d, base, n).effects);
    var m := d.endpoint.value;
    var mp := ParseMethodAndPath(Arg(m, PathArg).value).value;
    EndpointAcceptedEffects(d, base, n);
    var w := ParamInPathWarning(m, mp.path);
    assert forall e <- w :: e.Report?;
    ApplyAcceptedShape(s, Endpoints, EndpointKey(d, m), w, RouteFragment(d, m, mp, base.value, n));
  }

  /** Two accepted declarations sharing a generator key keep their routes in supply order,
      each behind its own placeholder. */
  lemma SharedKeyKeepsSupplyOrder(s: State, d1: Declaration, d2: Declaration, base: Option<string>, n: UrlNaming)
    requires s.Valid()
    requires EndpointAccepted(d1, base, n) && EndpointAccepted(d2, base, n)
    requires EndpointKey(d1, d1.endpoint.value) == EndpointKey(d2, d2.endpoint.value)
    ensures var key := EndpointKey(d1, d1.endpoint.value);
            var s2 := s.ApplyAll(EndpointPass(d1, base, n).effects).ApplyAll(EndpointPass(d2, base, n).effects);
            s2.endpoints.Group(key) ==
              s.endpoints.Group(key) + [Placeholder, AcceptedRoute(d1, base, n)] + [Placeholder, AcceptedRoute(d2, base, n)]
  {
    var s1 := s.ApplyAll(EndpointPass(d1, base, n).effects);
    AcceptedEndpointApply(s, d1, base, n);
    AcceptedEndpointApply(s1, d2, base, n);
  }

  // ------------------------------------------------------------------
  // Authorization policies and schemes
  // ------------------------------------------------------------------

  /** Every guard of an authorization pass, written as one flat condition. */
  predicate AuthAccepted(kind: AuthKind, d: Declaration) {
    && kind.MarkerOf(d).Some?
    && d.isPartial
    && StartsWith(d.fullName, AuthNamespace(kind, d))
    && IsMethodName(AuthKey(kind, d, kind.MarkerOf(d).value))
    && Arg(kind.MarkerOf(d).value, NameArg).Some?
    && IsPropertyName(Arg(kind.MarkerOf(d).value, NameArg).value)
    && d.fullName == AuthNamespace(kind, d) + kind.TypePrefix() + Arg(kind.MarkerOf(d).value, NameArg).value
  }

  /** The pass once the name is a valid property name: a placeholder, then the binding checks. */
  lemma AuthUnfold(kind: AuthKind, d: Declaration)
    requires kind.MarkerOf(d).Some? && d.isPartial && StartsWith(d.fullName, AuthNamespace(kind, d))
    requires IsMethodName(AuthKey(kind, d, kind.MarkerOf(d).value))
    requires Arg(kind.MarkerOf(d).value, NameArg).Some? && IsPropertyName(Arg(kind.MarkerOf(d).value, NameArg).value)
    ensures var m := kind.MarkerOf(d).value;
            var key := AuthKey(kind, d, m);
            AuthPass(kind, d) ==
              Prepend([Add(kind.OwnRole(), key, Placeholder)], BindingChecks(kind, d, key, Arg(m, NameArg).value))
  {
  }

  /** Before the placeholder: no effect, or a single Error report, or a fault. */
  lemma AuthStops(kind: AuthKind, d: Declaration)
    requires !(kind.MarkerOf(d).Some? && d.isPartial && StartsWith(d.fullName, AuthNamespace(kind, d))
               && IsMethodName(AuthKey(kind, d, kind.MarkerOf(d).value))
               && Arg(kind.MarkerOf(d).value, NameArg).Some? && IsPropertyName(Arg(kind.MarkerOf(d).value, NameArg).value))
    ensures var es := AuthPass(kind, d).effects;
            es == [] || (es == [es[0]] && es[0].Report? && es[0].diagnostic.severity == Error)
    ensures IdsWithin(AuthPass(kind, d).effects, {"LUC0012", "LUC0011", "LUC006", "LUC0018"})
  {
  }

  /** The binding of a policy or scheme. */
  function AuthBinding(kind: AuthKind, d: Declaration): Fragment
    requires kind.MarkerOf(d).Some? && Arg(kind.MarkerOf(d).value, NameArg).Some?
  {
    Fragment(kind.Binding(Arg(kind.MarkerOf(d).value, NameArg).value, d.fullName), "")
  }

  lemma AuthAcceptedEffects(kind: AuthKind, d: Declaration)
    requires AuthAccepted(kind, d)
    ensures var key := AuthKey(kind, d, kind.MarkerOf(d).value);
            AuthPass(kind, d) ==
              Outcome([Add(kind.OwnRole(), key, Placeholder)] + []
                      + [Add(Policies, key, AuthBinding(kind, d)), Report(Diagnostic("LUC008", Info, AtType))], false)
  {
    AuthUnfold(kind, d);
  }

  /** An accepted policy or scheme registers one binding, always in the policy group,
      named by its `Name` argument and targeting the type; a rejected one registers nothing. */
  lemma AuthRegistration(kind: AuthKind, d: Declaration)
    ensures !AuthAccepted(kind, d) ==> Silent(AuthPass(kind, d).effects)
    ensures var o := AuthPass(kind, d);
            AuthAccepted(kind, d) ==>
              var m := kind.MarkerOf(d).value;
              && !o.fault
              && Infos(o.effects) == [Diagnostic("LUC008", Info, AtType)]
              && Registered(o.effects) ==
                   [Add(Policies, AuthKey(kind, d, m), Fragment(kind.Binding(Arg(m, NameArg).value, d.fullName), ""))]
  {
    var o := AuthPass(kind, d);
    var marker := kind.MarkerOf(d);
    if AuthAccepted(kind, d) {
      AuthAcceptedEffects(kind, d);
      assert Silent([]) && AuthBinding(kind, d) != Placeholder;
      AcceptedShape(kind.OwnRole(), Policies, AuthKey(kind, d, marker.value), [], AuthBinding(kind, d));
    } else if marker.Some? && d.isPartial && StartsWith(d.fullName, AuthNamespace(kind, d))
              && IsMethodName(AuthKey(kind, d, marker.value)) && Arg(marker.value, NameArg).Some?
              && IsPropertyName(Arg(marker.value, NameArg).value)
    {
      var head := [Add(kind.OwnRole(), AuthKey(kind, d, marker.value), Placeholder)];
      var b := BindingChecks(kind, d, AuthKey(kind, d, marker.value), Arg(marker.value, NameArg).value);
      AuthUnfold(kind, d);
      assert b.effects == [b.effects[0]] && b.effects[0].diagnostic.severity == Error;
      SingleSilent(head[0]);
      SingleSilent(b.effects[0]);
      SilentConcat(head, b.effects);
    } else {
      AuthStops(kind, d);
      if o.effects != [] {
        SingleSilent(o.effects[0]);
      }
    }
  }

  /** The scheme group only ever receives placeholders, neither authorization pass
      touches the endpoint group, and a scheme pass adds a scheme binding to the policy group. */
  lemma AuthTargets(kind: AuthKind, d: Declaration)
    ensures forall e <- AuthPass(kind, d).effects :: e.Add? ==> e.role != Endpoints
    ensures forall e <- AuthPass(kind, d).effects :: e.Add? && e.role == Schemes ==> e.fragment == Placeholder
    ensures kind == SchemeKind ==>
              forall e <- AuthPass(kind, d).effects :: e.Add? && e.role == Policies ==> e.fragment.code.AddScheme?
  {
    var marker := kind.MarkerOf(d);
    if marker.Some? && d.isPartial && StartsWith(d.fullName, AuthNamespace(kind, d))
       && IsMethodName(AuthKey(kind, d, marker.value)) && Arg(marker.value, NameArg).Some?
       && IsPropertyName(Arg(marker.value, NameArg).value)
    {
      AuthUnfold(kind, d);
    } else {
      AuthStops(kind, d);
    }
  }

  /** The guards of an authorization pass in source order: the first one that fails decides. */
  lemma AuthGuardOrder(kind: AuthKind, d: Declaration)
    ensures var ns := AuthNamespace(kind, d);
            kind.MarkerOf(d).None? ==>
              AuthPass(kind, d) == if StartsWith(d.fullName, ns) && d.isPublic then Stop("LUC0012", AtType) else Done
    ensures kind.MarkerOf(d).Some? && !d.isPartial ==> AuthPass(kind, d) == Stop("LUC0011", AtType)
    ensures kind.MarkerOf(d).Some? && d.isPartial && !StartsWith(d.fullName, AuthNamespace(kind, d)) ==>
              AuthPass(kind, d) == Stop("LUC006", AtType)
    ensures kind.MarkerOf(d).Some? && d.isPartial && StartsWith(d.fullName, AuthNamespace(kind, d))
            && !IsMethodName(AuthKey(kind, d, kind.MarkerOf(d).value)) ==>
              AuthPass(kind, d) == Stop("LUC0018", AtArgument(KeyArg))
    ensures kind.MarkerOf(d).Some? && d.isPartial && StartsWith(d.fullName, AuthNamespace(kind, d))
            && IsMethodName(AuthKey(kind, d, kind.MarkerOf(d).value)) ==>
              (AuthPass(kind, d).fault <==> Arg(kind.MarkerOf(d).value, NameArg).None?)
    ensures kind.MarkerOf(d).Some? && d.isPartial && StartsWith(d.fullName, AuthNamespace(kind, d))
            && IsMethodName(AuthKey(kind, d, kind.MarkerOf(d).value))
            && Arg(kind.MarkerOf(d).value, NameArg).Some? && !IsPropertyName(Arg(kind.MarkerOf(d).value, NameArg).value) ==>
              AuthPass(kind, d) == Stop("LUC0018", AtArgument(NameArg))
    ensures var m := kind.MarkerOf(d);
            m.Some? && d.isPartial && StartsWith(d.fullName, AuthNamespace(kind, d))
            && IsMethodName(AuthKey(kind, d, m.value))
            && Arg(m.value, NameArg).Some? && IsPropertyName(Arg(m.value, NameArg).value)
            && d.fullName != AuthNamespace(kind, d) + kind.TypePrefix() + Arg(m.value, NameArg).value ==>
              AuthPass(kind, d) ==
                Outcome([Add(kind.OwnRole(), AuthKey(kind, d, m.value), Placeholder), Report(Diagnostic("LUC0013", Error, AtType))], false)
  {
  }

  // ------------------------------------------------------------------
  // The whole of phase 1
  // ------------------------------------------------------------------

  lemma EndpointIds(d: Declaration, base: Option<string>, n: UrlNaming)
    ensures IdsWithin(EndpointPass(d, base, n).effects, CheckerIds)
  {
    var o := EndpointPass(d, base, n);
    if d.endpoint.Some? && StartsWith(d.fullName, EndpointNamespace(d)) && IsMethodName(EndpointKey(d, d.endpoint.value)) {
      var key := EndpointKey(d, d.endpoint.value);
      var head := [Add(Endpoints, key, Placeholder)];
      EndpointUnfold(d, base, n);
      RouteFacts(d, d.endpoint.value, key, base, n);
      IdsWithinConcat(head, RouteChecks(d, d.endpoint.value, key, base, n).effects, CheckerIds);
    } else {
      assert o.effects == [] || o.effects == [o.effects[0]];
    }
  }

  lemma AuthIds(kind: AuthKind, d: Declaration)
    ensures IdsWithin(AuthPass(kind, d).effects, CheckerIds)
  {
    AuthTargets(kind, d);
    var marker := kind.MarkerOf(d);
    if marker.Some? && d.isPartial && StartsWith(d.fullName, AuthNamespace(kind, d))
       && IsMethodName(AuthKey(kind, d, marker.value)) && Arg(marker.value, NameArg).Some?
       && IsPropertyName(Arg(marker.value, NameArg).value)
    {
      AuthUnfold(kind, d);
    } else {
      AuthStops(kind, d);
    }
  }

  /** `AndThen` keeps the first outcome's effects and adds the second's unless the first threw. */
  lemma AndThenSpec(first: Outcome, next: Outcome)
    ensures AndThen(first, next).fault <==> first.fault || next.fault
    ensures first.effects <= AndThen(first, next).effects
    ensures !first.fault ==> AndThen(first, next).effects == first.effects + next.effects
    ensures first.fault ==> AndThen(first, next).effects == first.effects
  {
  }

  /** The shape of phase 1 for any four outcomes. */
  lemma ChainSpec(h: seq<Effect>, e: Outcome, p: Outcome, q: Outcome, ids: set<string>)
    ensures var r := AndThen(Outcome(h, false), AndThen(e, AndThen(p, q)));
            && h <= r.effects
            && (!r.fault ==> r.effects == h + e.effects + p.effects + q.effects)
            && (r.fault <==> e.fault || p.fault || q.fault)
            && (IdsWithin(h, ids) && IdsWithin(e.effects, ids) && IdsWithin(p.effects, ids) && IdsWithin(q.effects, ids)
                ==> IdsWithin(r.effects, ids))
  {
    var pq := AndThen(p, q);
    var epq := AndThen(e, pq);
    if IdsWithin(h, ids) && IdsWithin(e.effects, ids) && IdsWithin(p.effects, ids) && IdsWithin(q.effects, ids) {
      IdsWithinConcat(p.effects, q.effects, ids);
      IdsWithinConcat(e.effects, pq.effects, ids);
      IdsWithinConcat(h, epq.effects, ids);
    }
  }

  lemma Phase1Unfold(d: Declaration, base: Option<string>, n: UrlNaming)
    requires d.node == ClassDeclaration
    ensures Phase1(d, base, n) ==
              AndThen(Outcome(NamingPass(d) + LegacyPass(d), false),
                AndThen(EndpointPass(d, base, n), AndThen(AuthPass(PolicyKind, d), AuthPass(SchemeKind, d))))
  {
  }

  /** The checker reports only its own ids: LUC0911 and LUC0912 come from the driver. */
  lemma Phase1Ids(d: Declaration, base: Option<string>, n: UrlNaming)
    ensures IdsWithin(Phase1(d, base, n).effects, CheckerIds)
    ensures forall e <- Phase1(d, base, n).effects :: e.Report? ==> e.diagnostic.id !in {"LUC0911", "LUC0912"}
  {
    if d.node == ClassDeclaration {
      Phase1Unfold(d, base, n);
      EndpointIds(d, base, n);
      AuthIds(PolicyKind, d);
      AuthIds(SchemeKind, d);
      IdsWithinConcat(NamingPass(d), LegacyPass(d), CheckerIds);
      ChainSpec(NamingPass(d) + LegacyPass(d), EndpointPass(d, base, n), AuthPass(PolicyKind, d), AuthPass(SchemeKind, d), CheckerIds);
    }
    assert "LUC0911" !in CheckerIds && "LUC0912" !in CheckerIds;
  }

  /** Naming and legacy-controller reports never stop the pass: they lead its effects,
      and without a fault all five passes contribute in source order. */
  lemma PassesInOrder(d: Declaration, base: Option<string>, n: UrlNaming)
    requires d.node == ClassDeclaration
    ensures NamingPass(d) + LegacyPass(d) <= Phase1(d, base, n).effects
    ensures !Phase1(d, base, n).fault ==>
              Phase1(d, base, n).effects ==
                NamingPass(d) + LegacyPass(d) + EndpointPass(d, base, n).effects
                + AuthPass(PolicyKind, d).effects + AuthPass(SchemeKind, d).effects
    ensures Phase1(d, base, n).fault <==>
              EndpointPass(d, base, n).fault || AuthPass(PolicyKind, d).fault || AuthPass(SchemeKind, d).fault
  {
    Phase1Unfold(d, base, n);
    ChainSpec(NamingPass(d) + LegacyPass(d), EndpointPass(d, base, n), AuthPass(PolicyKind, d), AuthPass(SchemeKind, d), {});
  }
}
