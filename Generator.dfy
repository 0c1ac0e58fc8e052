/**
 * The imperative core. `Assembly` is the aggregator object of
 * LwxGenerator_Assembly.cs: three group dictionaries filled by get-or-create
 * then append, a driver loop that isolates faults per declaration, and three
 * renderers. `TypeProcessor` is the per-declaration checker of
 * LucUtilTypeProcessor.cs: its passes are guard chains that append to the
 * aggregator and to the diagnostic log step by step. Each method is proved
 * against the pure functions of TypeRules and AssemblySpec.
 */
module Generator {
  import opened Wrappers
  import opened Text
  import opened Grammar
  import opened Model
  import opened TypeRules
  import opened AssemblySpec
  import CheckerProperties

  /** Roslyn's `SourceProductionContext`: the reported diagnostics and the added sources, in order. */
  class ProductionContext {
    var diagnostics: seq<Diagnostic>
    var sources: seq<GeneratedSource>

    constructor ()
      ensures diagnostics == [] && sources == []
    {
      diagnostics := [];
      sources := [];
    }

    method ReportDiagnostic(d: Diagnostic)
      modifies this
      ensures diagnostics == old(diagnostics) + [d]
      ensures sources == old(sources)
    {
      diagnostics := diagnostics + [d];
    }

    method AddSource(hintName: string, text: string)
      modifies this
      ensures sources == old(sources) + [GeneratedSource(hintName, text)]
      ensures diagnostics == old(diagnostics)
    {
      sources := sources + [GeneratedSource(hintName, text)];
    }
  }

  class Assembly {
    const context: ProductionContext
    const declarations: seq<Declaration>
    const settings: AppSettings
    const projectDir: string
    const assemblyName: string
    const naming: UrlNaming

    var endpointMappingMethods: Table
    var policyTypes: Table
    var schemeTypes: Table

    predicate Valid()
      reads this
    {
      endpointMappingMethods.Valid() && policyTypes.Valid() && schemeTypes.Valid()
    }

    /** The three tables and the diagnostic log, as the checker's effects act on them. */
    function Model(): State
      reads this, context
    {
      State(endpointMappingMethods, policyTypes, schemeTypes, context.diagnostics)
    }

    /** The API-manager base path the endpoint checks compare against. */
    function Base(): Option<string> {
      ApiManagerPath(settings)
    }

    constructor Init(context: ProductionContext, declarations: seq<Declaration>, settings: AppSettings,
                     projectDir: string, assemblyName: string, naming: UrlNaming)
      ensures this.context == context && this.declarations == declarations && this.settings == settings
      ensures this.projectDir == projectDir && this.assemblyName == assemblyName && this.naming == naming
      ensures endpointMappingMethods == EmptyTable && policyTypes == EmptyTable && schemeTypes == EmptyTable
      ensures Valid()
    {
      this.context := context;
      this.declarations := declarations;
      this.settings := settings;
      this.projectDir := projectDir;
      this.assemblyName := assemblyName;
      this.naming := naming;
      endpointMappingMethods := EmptyTable;
      policyTypes := EmptyTable;
      schemeTypes := EmptyTable;
    }

    /**
     * The constructor. It reads the settings (reporting LUC0911 when the first text
     * does not parse, and carrying on), then throws, here `null`, when there is no
     * declaration, when the first node is not a type declaration, or when its file
     * has no directory. `deserialize` and `directoryOf` stand for the JSON
     * serializer and `Path.GetDirectoryName`.
     */
    static method Create(context: ProductionContext, files: seq<Option<string>>, declarations: seq<Declaration>,
                         deserialize: string -> JsonResult, directoryOf: string -> Option<string>, naming: UrlNaming)
      returns (a: Assembly?)
      modifies context
      ensures context.diagnostics == old(context.diagnostics) + LoadSettings(files, deserialize).diagnostics
      ensures context.sources == old(context.sources)
      ensures a == null <==>
                declarations == [] || declarations[0].node == OtherNode || directoryOf(declarations[0].filePath).None?
      ensures a == null <==> ProjectDir(declarations, directoryOf).None?
      ensures a != null ==> a.projectDir == ProjectDir(declarations, directoryOf).value
      ensures a != null ==>
                && fresh(a) && a.Valid() && a.context == context && a.declarations == declarations
                && a.settings == LoadSettings(files, deserialize).settings && a.settings.lwx.Some?
                && a.assemblyName == declarations[0].assemblyName && a.naming == naming
                && a.endpointMappingMethods == EmptyTable && a.policyTypes == EmptyTable && a.schemeTypes == EmptyTable
    {
      var appSettings: Option<AppSettings> := None;
      var text := FirstText(files);
      if text.Some? {
        match deserialize(text.value)
        case Malformed =>
          context.ReportDiagnostic(SettingsError);
        case Parsed(value) =>
          appSettings := value;
      }
      var loaded := appSettings.GetOr(AppSettings(None, None));
      if loaded.lwx.None? {
        loaded := loaded.(lwx := Some(Section(None)));
      }
      var dir := ProjectDir(declarations, directoryOf);
      if dir.None? {
        return null;
      }
      a := new Assembly.Init(context, declarations, loaded, dir.value, declarations[0].assemblyName, naming);
    }

    /** `AddEndpointMappingMethod`: get or create the list under `group`, then append. */
    method AddEndpointMappingMethod(group: string, f: Fragment)
      requires Valid()
      modifies this
      ensures Valid()
      ensures endpointMappingMethods == old(endpointMappingMethods).Append(group, f)
      ensures policyTypes == old(policyTypes) && schemeTypes == old(schemeTypes)
    {
      AppendSpec(endpointMappingMethods, group, f);
      var list := endpointMappingMethods.Group(group);
      var keys := endpointMappingMethods.keys;
      if group !in endpointMappingMethods.groups {
        keys := keys + [group];
      }
      endpointMappingMethods := Table(keys, endpointMappingMethods.groups[group := list + [f]]);
    }

    /** `AddPolicyType`: get or create the list under `group`, then append. */
    method AddPolicyType(group: string, f: Fragment)
      requires Valid()
      modifies this
      ensures Valid()
      ensures policyTypes == old(policyTypes).Append(group, f)
      ensures endpointMappingMethods == old(endpointMappingMethods) && schemeTypes == old(schemeTypes)
    {
      AppendSpec(policyTypes, group, f);
      var list := policyTypes.Group(group);
      var keys := policyTypes.keys;
      if group !in policyTypes.groups {
        keys := keys + [group];
      }
      policyTypes := Table(keys, policyTypes.groups[group := list + [f]]);
    }

    /** `AddSchemeType`: get or create the list under `group`, then append. */
    method AddSchemeType(group: string, f: Fragment)
      requires Valid()
      modifies this
      ensures Valid()
      ensures schemeTypes == old(schemeTypes).Append(group, f)
      ensures endpointMappingMethods == old(endpointMappingMethods) && policyTypes == old(policyTypes)
    {
      AppendSpec(schemeTypes, group, f);
      var list := schemeTypes.Group(group);
      var keys := schemeTypes.keys;
      if group !in schemeTypes.groups {
        keys := keys + [group];
      }
      schemeTypes := Table(keys, schemeTypes.groups[group := list + [f]]);
    }

    /** `ReportWarning`: one diagnostic into the context. */
    method ReportWarning(severity: Severity, id: string, anchor: Anchor)
      modifies context
      ensures Model() == old(Model()).ApplyAll([Report(Diagnostic(id, severity, anchor))])
      ensures context.sources == old(context.sources)
    {
      context.ReportDiagnostic(Diagnostic(id, severity, anchor));
      ApplyAllOne(old(Model()), Report(Diagnostic(id, severity, anchor)));
    }

    /**
     * `Execute`: every declaration is checked in turn; a declaration whose check
     * throws gets one LUC0912 and the loop goes on; then the three renderers run
     * on the final tables.
     */
    method Execute()
      requires Valid()
      modifies this, context
      ensures Valid()
      ensures Model() == Run(old(Model()), declarations, Phase1Checker(Base(), naming))
      ensures context.sources == old(context.sources)
                                 + [Render(Endpoints, assemblyName, endpointMappingMethods)]
                                 + [Render(Policies, assemblyName, policyTypes)]
                                 + [Render(Schemes, assemblyName, schemeTypes)]
    {
      ProcessDeclarations();
      GenerateAll();
    }

    /** The three renderers, in the order `Execute` calls them. */
    method GenerateAll()
      requires Valid()
      modifies context
      ensures context.diagnostics == old(context.diagnostics)
      ensures context.sources == old(context.sources)
                                 + [Render(Endpoints, assemblyName, endpointMappingMethods)]
                                 + [Render(Policies, assemblyName, policyTypes)]
                                 + [Render(Schemes, assemblyName, schemeTypes)]
    {
      GenerateEndpointMappings();
      GenerateAuthPolicyMappings();
      GenerateAuthSchemeMappings();
    }

    /** The loop of `Execute`: each declaration in turn, a fault isolated to its declaration. */
    method ProcessDeclarations()
      requires Valid()
      modifies this, context
      ensures Valid()
      ensures Model() == Run(old(Model()), declarations, Phase1Checker(Base(), naming))
      ensures context.sources == old(context.sources)
    {
      ghost var check := Phase1Checker(Base(), naming);
      for i := 0 to |declarations|
        invariant Valid()
        invariant Model() == Run(old(Model()), declarations[..i], check)
        invariant context.sources == old(context.sources)
      {
        var d := declarations[i];
        ghost var before := Model();
        var threw: bool;
        if d.node != ClassDeclaration {
          threw := true;  // the checker's constructor casts the node to a class declaration
          ApplyAllEmpty(before);
        } else {
          var processor := new TypeProcessor(this, d);
          threw := processor.ExecutePhase1();
        }
        if threw {
          ReportWarning(Error, "LUC0912", AtType);
          ApplyAllOne(before.ApplyAll(check(d).effects), Report(FaultReport));
        }
        RunStep(old(Model()), declarations, i, check);
      }
      assert declarations[..|declarations|] == declarations;
    }

    /** The callables and the auxiliary declarations of every group of `t`, walking
        the groups in key order and each group's fragments in insertion order. */
    static method RenderGroups(layout: Layout, t: Table) returns (methods: string, others: string)
      requires t.Valid()
      ensures methods == Methods(layout, t, t.keys)
      ensures others == Others(t, t.keys)
    {
      methods, others := "", "";
      for i := 0 to |t.keys|
        invariant methods == Methods(layout, t, t.keys[..i])
        invariant others == Others(t, t.keys[..i])
      {
        var key := t.keys[i];
        var body, idClasses := RenderGroup(t.groups[key]);
        methods := methods + layout(key, body);
        others := others + idClasses;
        assert t.keys[..i + 1][..i] == t.keys[..i];
      }
      assert t.keys[..|t.keys|] == t.keys;
    }

    /** One group's fragments, in insertion order: their code and their auxiliary declarations. */
    static method RenderGroup(group: seq<Fragment>) returns (body: string, idClasses: string)
      ensures body == BodyText(group)
      ensures idClasses == IdClassText(group)
    {
      body, idClasses := "", "";
      for j := 0 to |group|
        invariant body == BodyText(group[..j])
        invariant idClasses == IdClassText(group[..j])
      {
        body := body + group[j].Body();
        idClasses := idClasses + group[j].idClass;
        assert group[..j + 1][..j] == group[..j];
      }
      assert group[..|group|] == group;
    }

    method GenerateEndpointMappings()
      requires Valid()
      modifies context
      ensures context.sources == old(context.sources) + [Render(Endpoints, assemblyName, endpointMappingMethods)]
      ensures context.diagnostics == old(context.diagnostics)
    {
      var methods, others := RenderGroups(LayoutOf(Endpoints), endpointMappingMethods);
      context.AddSource(HintName(Endpoints), SourceText(Endpoints, assemblyName, methods, others));
    }

    method GenerateAuthPolicyMappings()
      requires Valid()
      modifies context
      ensures context.sources == old(context.sources) + [Render(Policies, assemblyName, policyTypes)]
      ensures context.diagnostics == old(context.diagnostics)
    {
      var methods, others := RenderGroups(LayoutOf(Policies), policyTypes);
      context.AddSource(HintName(Policies), SourceText(Policies, assemblyName, methods, others));
    }

    method GenerateAuthSchemeMappings()
      requires Valid()
      modifies context
      ensures context.sources == old(context.sources) + [Render(Schemes, assemblyName, schemeTypes)]
      ensures context.diagnostics == old(context.diagnostics)
    {
      var methods, others := RenderGroups(LayoutOf(Schemes), schemeTypes);
      context.AddSource(HintName(Schemes), SourceText(Schemes, assemblyName, methods, others));
    }
  }

  /** The effects of the chained passes, applied one pass at a time. */
  lemma PhaseChain(s: State, h: seq<Effect>, e: Outcome, p: Outcome, q: Outcome)
    ensures var r := AndThen(Outcome(h, false), AndThen(e, AndThen(p, q)));
            var s1 := s.ApplyAll(h);
            var s2 := s1.ApplyAll(e.effects);
            var s3 := s2.ApplyAll(p.effects);
            && r.fault == (e.fault || (!e.fault && p.fault) || (!e.fault && !p.fault && q.fault))
            && s.ApplyAll(r.effects) == (if e.fault then s2 else if p.fault then s3 else s3.ApplyAll(q.effects))
  {
    var s1 := s.ApplyAll(h);
    if !e.fault {
      ApplyAllConcat(s1, e.effects, AndThen(p, q).effects);
      if !p.fault {
        ApplyAllConcat(s1.ApplyAll(e.effects), p.effects, q.effects);
      }
    }
    ApplyAllConcat(s, h, AndThen(e, AndThen(p, q)).effects);
  }

  /** One more attribute of the legacy pass's loop. */
  lemma ControllerAttributeStep(s: State, attrs: seq<string>, i: nat)
    requires i < |attrs|
    ensures var before := s.ApplyAll(ControllerAttributeReports(attrs[..i]));
            s.ApplyAll(ControllerAttributeReports(attrs[..i + 1]))
            == if attrs[i] == ControllerAttribute
               then before.ApplyAll([Report(Diagnostic("LUC002", Error, AtAttribute(i)))])
               else before
  {
    assert attrs[..i + 1][..i] == attrs[..i];
    var tail := if attrs[i] == ControllerAttribute then [Report(Diagnostic("LUC002", Error, AtAttribute(i)))] else [];
    ApplyAllConcat(s, ControllerAttributeReports(attrs[..i]), tail);
    assert ControllerAttributeReports(attrs[..i]) + [] == ControllerAttributeReports(attrs[..i]);
  }

  lemma ApplyAllEmpty(s: State)
    ensures s.ApplyAll([]) == s
  {
  }

  /** One more iteration of the driver loop. */
  lemma RunStep(s: State, ds: seq<Declaration>, i: nat, check: Checker)
    requires i < |ds|
    ensures Run(s, ds[..i + 1], check) == Settle(Run(s, ds[..i], check), check(ds[i]))
  {
    assert ds[..i + 1][..i] == ds[..i];
  }

  /** The per-declaration checker: the five passes of `ExecutePhase1` over one class declaration. */
  class TypeProcessor {
    const assembly: Assembly
    const decl: Declaration

    constructor (assembly: Assembly, decl: Declaration)
      requires decl.node == ClassDeclaration
      ensures this.assembly == assembly && this.decl == decl
    {
      this.assembly := assembly;
      this.decl := decl;
    }

    /** The passes in their fixed order; a pass that throws ends the declaration. */
    method ExecutePhase1() returns (threw: bool)
      requires assembly.Valid() && decl.node == ClassDeclaration
      modifies assembly, assembly.context
      ensures assembly.Valid()
      ensures assembly.Model() == old(assembly.Model()).ApplyAll(Phase1(decl, assembly.Base(), assembly.naming).effects)
      ensures threw == Phase1(decl, assembly.Base(), assembly.naming).fault
      ensures assembly.context.sources == old(assembly.context.sources)
    {
      ghost var s0 := assembly.Model();
      DoEnforceNamingConventions();
      DoBlockOldStyleEndpoints();
      ghost var s1 := assembly.Model();
      ApplyAllConcat(s0, NamingPass(decl), LegacyPass(decl));
      threw := DoGenerateEndpointMappings();
      ghost var s2 := assembly.Model();
      if !threw {
        threw := DoGenerateAuthPolicyMappings();
        ghost var s3 := assembly.Model();
        if !threw {
          threw := DoGenerateAuthSchemeMappings();
        }
      }
      PhaseChain(s0, NamingPass(decl) + LegacyPass(decl), EndpointPass(decl, assembly.Base(), assembly.naming),
                 AuthPass(PolicyKind, decl), AuthPass(SchemeKind, decl));
      CheckerProperties.Phase1Unfold(decl, assembly.Base(), assembly.naming);
    }

    /** `ReportWarning`, forwarded to the aggregator. */
    method ReportWarning(severity: Severity, id: string, anchor: Anchor)
      requires assembly.Valid()
      modifies assembly.context
      ensures assembly.Valid()
      ensures assembly.Model() == old(assembly.Model()).ApplyAll([Report(Diagnostic(id, severity, anchor))])
      ensures assembly.context.sources == old(assembly.context.sources)
    {
      assembly.ReportWarning(severity, id, anchor);
    }

    method DoEnforceNamingConventions()
      requires assembly.Valid()
      modifies assembly.context
      ensures assembly.Valid()
      ensures assembly.Model() == old(assembly.Model()).ApplyAll(NamingPass(decl))
      ensures assembly.context.sources == old(assembly.context.sources)
    {
      var wrongNamespace := decl.assemblyName + ".src.";
      if StartsWithIgnoreCase(decl.fullName, wrongNamespace) {
        ReportWarning(Error, "LUC005", AtType);
        return;
      }
      if !StartsWith(decl.fullName, decl.assemblyName + ".") {
        ReportWarning(Error, "LUC003", AtType);
        return;
      }
      if decl.isPublic {
        var expectedFile := ExpectedFile(decl);
        if !decl.isPartial && !EndsWith(decl.filePath, expectedFile) {
          ReportWarning(Error, "LUC004", AtType);
          return;
        }
      }
    }

    method DoBlockOldStyleEndpoints()
      requires assembly.Valid()
      modifies assembly.context
      ensures assembly.Valid()
      ensures assembly.Model() == old(assembly.Model()).ApplyAll(LegacyPass(decl))
      ensures assembly.context.sources == old(assembly.context.sources)
    {
      var head: seq<Effect> := [];
      if decl.baseType == Some(ControllerBase) {
        ReportWarning(Error, "LUC001", AtType);
        head := [Report(Diagnostic("LUC001", Error, AtType))];
      }
      ghost var mid := assembly.Model();
      var attrs := decl.attributeClasses;
      for i := 0 to |attrs|
        invariant assembly.Valid()
        invariant assembly.Model() == mid.ApplyAll(ControllerAttributeReports(attrs[..i]))
        invariant assembly.context.sources == old(assembly.context.sources)
      {
        ControllerAttributeStep(mid, attrs, i);
        if attrs[i] == ControllerAttribute {
          ReportWarning(Error, "LUC002", AtAttribute(i));
        }
      }
      assert attrs[..|attrs|] == attrs;
      ApplyAllConcat(old(assembly.Model()), head, ControllerAttributeReports(attrs));
    }

    method DoGenerateEndpointMappings() returns (threw: bool)
      requires assembly.Valid()
      modifies assembly, assembly.context
      ensures assembly.Valid()
      ensures assembly.Model() == old(assembly.Model()).ApplyAll(EndpointPass(decl, assembly.Base(), assembly.naming).effects)
      ensures threw == EndpointPass(decl, assembly.Base(), assembly.naming).fault
      ensures assembly.context.sources == old(assembly.context.sources)
    {
      var ns := EndpointNamespace(decl);
      if StartsWith(decl.fullName, ns) && decl.isPublic && decl.endpoint.None? {
        ReportWarning(Error, "LUC006", AtType);
        return false;
      }
      if decl.endpoint.None? {
        return false;
      }
      if !StartsWith(decl.fullName, ns) {
        ReportWarning(Error, "LUC006", AtType);
        return false;
      }
      var attr := decl.endpoint.value;
      var generatedMethodName := EndpointKey(decl, attr);
      if !IsMethodName(generatedMethodName) {
        ReportWarning(Error, "LUC0018", AtArgument(KeyArg));
        return false;
      }
      ghost var s0 := assembly.Model();
      assembly.AddEndpointMappingMethod(generatedMethodName, Placeholder);
      ApplyAllOne(s0, Add(Endpoints, generatedMethodName, Placeholder));
      threw := MatchRoute(attr, generatedMethodName);
      ApplyAllConcat(s0, [Add(Endpoints, generatedMethodName, Placeholder)],
                     RouteChecks(decl, attr, generatedMethodName, assembly.Base(), assembly.naming).effects);
    }

    /** From the path match on, once the placeholder is registered. */
    method MatchRoute(attr: Marker, generatedMethodName: string) returns (threw: bool)
      requires assembly.Valid()
      modifies assembly, assembly.context
      ensures assembly.Valid()
      ensures var o := RouteChecks(decl, attr, generatedMethodName, assembly.Base(), assembly.naming);
              assembly.Model() == old(assembly.Model()).ApplyAll(o.effects) && threw == o.fault
      ensures assembly.context.sources == old(assembly.context.sources)
    {
      var attrMethodAndPath := Arg(attr, PathArg);
      if attrMethodAndPath.None? {
        return true;  // matching null throws
      }
      var matched := ParseMethodAndPath(attrMethodAndPath.value);
      if matched.None? {
        ReportWarning(Error, "LUC0014", AtArgument(PathArg));
        return false;
      }
      var mp := matched.value;
      ghost var s0 := assembly.Model();
      if '{' in mp.path && IsNullOrWhiteSpace(Arg(attr, ParamInPathJustification)) {
        ReportWarning(Error, "LUC0022", AtArgument(PathArg));
      }
      var justified := !IsNullOrEmpty(Arg(attr, NotInApiManagerPathJustification));
      threw := CheckBasePath(justified, RouteArgsOf(attr), generatedMethodName, mp);
      ApplyAllConcat(s0, ParamInPathWarning(attr, mp.path),
                     BaseChecks(decl.fullName, decl.assemblyName, justified, RouteArgsOf(attr),
                                generatedMethodName, mp, assembly.Base(), assembly.naming).effects);
    }

    /** The API-manager base-path checks. */
    method CheckBasePath(justified: bool, args: RouteArgs, generatedMethodName: string, mp: MethodAndPath)
      returns (threw: bool)
      requires assembly.Valid()
      modifies assembly, assembly.context
      ensures assembly.Valid()
      ensures var o := BaseChecks(decl.fullName, decl.assemblyName, justified, args, generatedMethodName, mp,
                                  assembly.Base(), assembly.naming);
              assembly.Model() == old(assembly.Model()).ApplyAll(o.effects) && threw == o.fault
      ensures assembly.context.sources == old(assembly.context.sources)
    {
      var apiManagerPath := assembly.Base();
      if apiManagerPath.Some? {
        if EndsWith(apiManagerPath.value, "/") {
          ReportWarning(Error, "LUC06546", AtArgument(PathArg));
          return false;
        } else if StartsWith(mp.path, apiManagerPath.value + "/") {
          if justified {
            ReportWarning(Error, "LUC0215", AtArgument(PathArg));
            return false;
          }
        } else {
          if justified {
            ReportWarning(Error, "LUC0015", AtArgument(PathArg));
            return false;
          }
        }
      } else {
        ReportWarning(Error, "LUC0016", AtArgument(PathArg));
        return false;
      }
      threw := CheckMapping(args, generatedMethodName, mp, apiManagerPath.value);
    }

    /** The expected type name, the method normalisation and the registration. */
    method CheckMapping(args: RouteArgs, generatedMethodName: string, mp: MethodAndPath, apiManagerPath: string)
      returns (threw: bool)
      requires assembly.Valid()
      modifies assembly, assembly.context
      ensures assembly.Valid()
      ensures var o := MappingChecks(decl.fullName, decl.assemblyName, args, generatedMethodName, mp,
                                     apiManagerPath, assembly.naming);
              assembly.Model() == old(assembly.Model()).ApplyAll(o.effects) && threw == o.fault
      ensures assembly.context.sources == old(assembly.context.sources)
    {
      var reference := TypeNameReference(mp.path, apiManagerPath);
      if reference.None? {
        return true;  // the slice past the base path throws
      }
      var expectedFullTypeName := ExpectedEndpointTypeName(decl.assemblyName, reference.value, assembly.naming);
      if decl.fullName != expectedFullTypeName {
        ReportWarning(Error, "LUC0013", AtType);
        return false;
      }
      var verb := NormalizeMethod(mp.verb);
      if verb.None? {
        ReportWarning(Error, "LUC0017", AtArgument(PathArg));
        return false;
      }
      var route := RouteOf(args, verb.value, mp.path, expectedFullTypeName);
      if route.None? {
        return true;  // formatting a null argument as a literal throws
      }
      RegisterRoute(generatedMethodName, Fragment(route.value, ""));
      threw := false;
    }

    /** The route fragment under its key, then the Info LUC008 that announces it. */
    method RegisterRoute(generatedMethodName: string, fragment: Fragment)
      requires assembly.Valid()
      modifies assembly, assembly.context
      ensures assembly.Valid()
      ensures assembly.Model() == old(assembly.Model()).ApplyAll(
                [Add(Endpoints, generatedMethodName, fragment), Report(Diagnostic("LUC008", Info, AtType))])
      ensures assembly.context.sources == old(assembly.context.sources)
    {
      ghost var s0 := assembly.Model();
      assembly.AddEndpointMappingMethod(generatedMethodName, fragment);
      ReportWarning(Info, "LUC008", AtType);
      ApplyAllOne(s0, Add(Endpoints, generatedMethodName, fragment));
      ApplyAllConcat(s0, [Add(Endpoints, generatedMethodName, fragment)], [Report(Diagnostic("LUC008", Info, AtType))]);
    }

    method DoGenerateAuthPolicyMappings() returns (threw: bool)
      requires assembly.Valid()
      modifies assembly, assembly.context
      ensures assembly.Valid()
      ensures assembly.Model() == old(assembly.Model()).ApplyAll(AuthPass(PolicyKind, decl).effects)
      ensures threw == AuthPass(PolicyKind, decl).fault
      ensures assembly.context.sources == old(assembly.context.sources)
    {
      threw := DoGenerateAuthMappings(PolicyKind);
    }

    method DoGenerateAuthSchemeMappings() returns (threw: bool)
      requires assembly.Valid()
      modifies assembly, assembly.context
      ensures assembly.Valid()
      ensures assembly.Model() == old(assembly.Model()).ApplyAll(AuthPass(SchemeKind, decl).effects)
      ensures threw == AuthPass(SchemeKind, decl).fault
      ensures assembly.context.sources == old(assembly.context.sources)
    {
      threw := DoGenerateAuthMappings(SchemeKind);
    }

    /** The guard chain the policy and the scheme passes share. */
    method DoGenerateAuthMappings(kind: AuthKind) returns (threw: bool)
      requires assembly.Valid()
      modifies assembly, assembly.context
      ensures assembly.Valid()
      ensures assembly.Model() == old(assembly.Model()).ApplyAll(AuthPass(kind, decl).effects)
      ensures threw == AuthPass(kind, decl).fault
      ensures assembly.context.sources == old(assembly.context.sources)
    {
      var ns := AuthNamespace(kind, decl);
      var attr := kind.MarkerOf(decl);
      if StartsWith(decl.fullName, ns) && decl.isPublic && attr.None? {
        ReportWarning(Error, "LUC0012", AtType);
        return false;
      }
      if attr.None? {
        return false;
      }
      if !decl.isPartial {
        ReportWarning(Error, "LUC0011", AtType);
        return false;
      }
      if !StartsWith(decl.fullName, ns) {
        ReportWarning(Error, "LUC006", AtType);
        return false;
      }
      var generatedMethodName := AuthKey(kind, decl, attr.value);
      if !IsMethodName(generatedMethodName) {
        ReportWarning(Error, "LUC0018", AtArgument(KeyArg));
        return false;
      }
      var attrName := Arg(attr.value, NameArg);
      if attrName.None? {
        return true;  // matching null throws
      }
      if !IsPropertyName(attrName.value) {
        ReportWarning(Error, "LUC0018", AtArgument(NameArg));
        return false;
      }
      RegisterAuthorization(kind, generatedMethodName, attrName.value);
      threw := false;
    }

    /** The placeholder in the kind's own group, then the binding checks. */
    method RegisterAuthorization(kind: AuthKind, generatedMethodName: string, attrName: string)
      requires assembly.Valid()
      modifies assembly, assembly.context
      ensures assembly.Valid()
      ensures assembly.Model() == old(assembly.Model()).ApplyAll(
                [Add(kind.OwnRole(), generatedMethodName, Placeholder)]
                + BindingChecks(kind, decl, generatedMethodName, attrName).effects)
      ensures assembly.context.sources == old(assembly.context.sources)
    {
      ghost var s0 := assembly.Model();
      if kind.PolicyKind? {
        assembly.AddPolicyType(generatedMethodName, Placeholder);
      } else {
        assembly.AddSchemeType(generatedMethodName, Placeholder);
      }
      ApplyAllOne(s0, Add(kind.OwnRole(), generatedMethodName, Placeholder));
      CheckBinding(kind, generatedMethodName, attrName);
      ApplyAllConcat(s0, [Add(kind.OwnRole(), generatedMethodName, Placeholder)],
                     BindingChecks(kind, decl, generatedMethodName, attrName).effects);
    }

    /** The type-name check, then the binding, which goes to the policy group for both kinds. */
    method CheckBinding(kind: AuthKind, generatedMethodName: string, attrName: string)
      requires assembly.Valid()
      modifies assembly, assembly.context
      ensures assembly.Valid()
      ensures assembly.Model() == old(assembly.Model()).ApplyAll(BindingChecks(kind, decl, generatedMethodName, attrName).effects)
      ensures !BindingChecks(kind, decl, generatedMethodName, attrName).fault
      ensures assembly.context.sources == old(assembly.context.sources)
    {
      if decl.fullName != AuthNamespace(kind, decl) + kind.TypePrefix() + attrName {
        ReportWarning(Error, "LUC0013", AtType);
        return;
      }
      var fragment := Fragment(kind.Binding(attrName, decl.fullName), "");
      ghost var s0 := assembly.Model();
      assembly.AddPolicyType(generatedMethodName, fragment);
      ReportWarning(Info, "LUC008", AtType);
      ApplyAllOne(s0, Add(Policies, generatedMethodName, fragment));
      ApplyAllConcat(s0, [Add(Policies, generatedMethodName, fragment)], [Report(Diagnostic("LUC008", Info, AtType))]);
    }
  }
}
