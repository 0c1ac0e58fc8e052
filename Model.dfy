/**
 * The values the checker and the aggregator exchange: the declaration under
 * analysis, diagnostics, registration fragments, the per-role fragment tables,
 * and the effects a checker pass has on them.
 */
module Model {
  import opened Wrappers
  import opened Grammar
  import opened Text

  /** The kind of syntax node a candidate declaration was found on. */
  datatype NodeKind = ClassDeclaration | OtherTypeDeclaration | OtherNode

  /** A `[LucEndpoint]`, `[LucAuthPolicy]` or `[LucAuthScheme]` application: its named arguments. */
  datatype Marker = Marker(args: map<string, string>)

  /** One candidate type, as the checker sees it. */
  datatype Declaration = Declaration(
    node: NodeKind,
    fullName: string,              // ToDisplayString() of the type symbol
    assemblyName: string,
    isPublic: bool,
    isPartial: bool,
    filePath: string,
    baseType: Option<string>,      // display name of the direct base type
    attributeClasses: seq<string>, // display names of every attribute class applied to the type
    endpoint: Option<Marker>,
    policy: Option<Marker>,
    scheme: Option<Marker>)

  datatype Severity = Info | Error

  /** Where a diagnostic points: the type, one marker argument, one attribute, or nowhere. */
  datatype Anchor = AtType | AtArgument(name: string) | AtAttribute(index: nat) | Nowhere

  datatype Diagnostic = Diagnostic(id: string, severity: Severity, anchor: Anchor)

  /** The code a fragment contributes to a generated callable, with its structured fields. */
  datatype Registration =
    | Verbatim(text: string)
    | MapRoute(verb: Verb, path: string, target: string, displayName: Option<string>,
               tag: string, summary: string, description: string, policy: string)
    | AddPolicy(name: string, target: string)
    | AddScheme(name: string, target: string)
  {
    /** The rendered C# statement; the template layout is not significant. The
        route's display name, tag, summary, description and policy are written
        with `FormatLiteral`, the path and the authorization names as they are. */
    function Code(): string {
      match this
      case Verbatim(text) => text
      case MapRoute(verb, path, target, displayName, tag, summary, description, policy) =>
        "app.Map" + verb.Name() + "(\"" + path + "\", " + target + ".Execute)"
        + (if displayName.Some? then ".WithDisplayName(" + FormatLiteral(displayName.value) + ")" else "")
        + ".WithTags([" + FormatLiteral(tag) + "]).WithSummary(" + FormatLiteral(summary)
        + ").WithDescription(" + FormatLiteral(description)
        + ").RequireAuthorization(" + FormatLiteral(policy) + ");"
      case AddPolicy(name, target) =>
        "options.AddPolicy(\"" + name + "\", " + target + ".Configure);"
      case AddScheme(name, target) =>
        target + ".Configure(services.AddAuthentication(\"" + name + "\"));"
    }
  }

  /** A fragment: the code for the group's callable and an auxiliary declaration placed after the unit. */
  datatype Fragment = Fragment(code: Registration, idClass: string) {

    /** The text the fragment contributes to its group's method body. */
    function Body(): string {
      code.Code()
    }
  }

  /** The empty fragment registered under a key before the later checks run. */
  const Placeholder := Fragment(Verbatim(""), "")

  /** A `Dictionary<string, List<...>>`: the keys in first-insertion order and the list under each. */
  datatype Table = Table(keys: seq<string>, groups: map<string, seq<Fragment>>) {

    predicate Valid() {
      && (forall i, j :: 0 <= i < j < |keys| ==> keys[i] != keys[j])
      && (forall k :: k in keys ==> k in groups)
      && (forall k :: k in groups ==> k in keys)
    }

    /** The list under `key`; an absent key reads as an empty list. */
    function Group(key: string): seq<Fragment> {
      if key in groups then groups[key] else []
    }

    /** Get-or-create the list under `key`, then append `f` to it. */
    function Append(key: string, f: Fragment): Table {
      Table(if key in groups then keys else keys + [key], groups[key := Group(key) + [f]])
    }

    /** Nothing of `this` is lost in `t`: its keys are a prefix, and each of its lists a prefix. */
    predicate ExtendedBy(t: Table) {
      && keys <= t.keys
      && forall k :: k in groups ==> k in t.groups && groups[k] <= t.groups[k]
    }
  }

  const EmptyTable := Table([], map[])

  /** Append semantics: the list at `key` grows by `f`, every other list is unchanged,
      and `key` joins the key order only if it was new. */
  lemma AppendSpec(t: Table, key: string, f: Fragment)
    requires t.Valid()
    ensures t.Append(key, f).Valid()
    ensures t.Append(key, f).Group(key) == t.Group(key) + [f]
    ensures forall k :: k != key ==> t.Append(key, f).Group(k) == t.Group(k)
    ensures t.Append(key, f).keys == if key in t.keys then t.keys else t.keys + [key]
    ensures t.ExtendedBy(t.Append(key, f))
  {
    var u := t.Append(key, f);
    if key !in t.groups {
      forall i, j | 0 <= i < j < |u.keys| ensures u.keys[i] != u.keys[j] {
        if j == |t.keys| {
          assert u.keys[i] == t.keys[i] && t.keys[i] in t.groups;
        }
      }
    }
  }

  lemma ExtendedByTransitive(a: Table, b: Table, c: Table)
    requires a.ExtendedBy(b) && b.ExtendedBy(c)
    ensures a.ExtendedBy(c)
  {
  }

  /** The three generated roles. */
  datatype Role = Endpoints | Policies | Schemes

  /** One observable action of a checker pass. */
  datatype Effect =
    | Report(diagnostic: Diagnostic)
    | Add(role: Role, key: string, fragment: Fragment)

  /** The aggregator's tables together with the diagnostic log. */
  datatype State = State(endpoints: Table, policies: Table, schemes: Table, diagnostics: seq<Diagnostic>) {

    predicate Valid() {
      endpoints.Valid() && policies.Valid() && schemes.Valid()
    }

    function Of(role: Role): Table {
      match role
      case Endpoints => endpoints
      case Policies => policies
      case Schemes => schemes
    }

    function Apply(e: Effect): State {
      match e
      case Report(d) => this.(diagnostics := diagnostics + [d])
      case Add(Endpoints, key, f) => this.(endpoints := endpoints.Append(key, f))
      case Add(Policies, key, f) => this.(policies := policies.Append(key, f))
      case Add(Schemes, key, f) => this.(schemes := schemes.Append(key, f))
    }

    function ApplyAll(es: seq<Effect>): State
      decreases |es|
    {
      if es == [] then this else Apply(es[0]).ApplyAll(es[1..])
    }

    /** Nothing is removed: every table is extended and the log only grows. */
    predicate ExtendedBy(s: State) {
      && endpoints.ExtendedBy(s.endpoints)
      && policies.ExtendedBy(s.policies)
      && schemes.ExtendedBy(s.schemes)
      && diagnostics <= s.diagnostics
    }
  }

  /** The diagnostics reported by `es`, in order. */
  function Reports(es: seq<Effect>): seq<Diagnostic>
    decreases |es|
  {
    if es == [] then []
    else (if es[0].Report? then [es[0].diagnostic] else []) + Reports(es[1..])
  }

  /** The fragments other than placeholders that `es` adds, in order. */
  function Registered(es: seq<Effect>): seq<Effect>
    decreases |es|
  {
    if es == [] then []
    else (if es[0].Add? && es[0].fragment != Placeholder then [es[0]] else []) + Registered(es[1..])
  }

  /** The Info diagnostics reported by `es`, in order. */
  function Infos(es: seq<Effect>): seq<Diagnostic>
    decreases |es|
  {
    if es == [] then []
    else (if es[0].Report? && es[0].diagnostic.severity == Info then [es[0].diagnostic] else []) + Infos(es[1..])
  }

  lemma {:induction false} InfosConcat(a: seq<Effect>, b: seq<Effect>)
    ensures Infos(a + b) == Infos(a) + Infos(b)
    decreases |a|
  {
    if a != [] {
      assert (a + b)[0] == a[0] && (a + b)[1..] == a[1..] + b;
      InfosConcat(a[1..], b);
    } else {
      assert a + b == b;
    }
  }

  lemma {:induction false} ReportsConcat(a: seq<Effect>, b: seq<Effect>)
    ensures Reports(a + b) == Reports(a) + Reports(b)
    decreases |a|
  {
    if a != [] {
      assert (a + b)[0] == a[0] && (a + b)[1..] == a[1..] + b;
      ReportsConcat(a[1..], b);
    } else {
      assert a + b == b;
    }
  }

  lemma {:induction false} RegisteredConcat(a: seq<Effect>, b: seq<Effect>)
    ensures Registered(a + b) == Registered(a) + Registered(b)
    decreases |a|
  {
    if a != [] {
      assert (a + b)[0] == a[0] && (a + b)[1..] == a[1..] + b;
      RegisteredConcat(a[1..], b);
    } else {
      assert a + b == b;
    }
  }

  lemma {:induction false} ApplyAllConcat(s: State, a: seq<Effect>, b: seq<Effect>)
    ensures s.ApplyAll(a + b) == s.ApplyAll(a).ApplyAll(b)
    decreases |a|
  {
    if a != [] {
      assert (a + b)[0] == a[0] && (a + b)[1..] == a[1..] + b;
      ApplyAllConcat(s.Apply(a[0]), a[1..], b);
    } else {
      assert a + b == b;
    }
  }

  lemma ApplyAllOne(s: State, e: Effect)
    ensures s.ApplyAll([e]) == s.Apply(e)
  {
    assert [e][1..] == [];
  }

  /** The log after a run of effects is the old log followed by exactly the reported diagnostics. */
  lemma {:induction false} ApplyAllDiagnostics(s: State, es: seq<Effect>)
    ensures s.ApplyAll(es).diagnostics == s.diagnostics + Reports(es)
    decreases |es|
  {
    if es != [] {
      ApplyAllDiagnostics(s.Apply(es[0]), es[1..]);
    }
  }

  /** One effect keeps the tables valid and removes nothing. */
  lemma ApplyGrows(s: State, e: Effect)
    requires s.Valid()
    ensures s.Apply(e).Valid() && s.ExtendedBy(s.Apply(e))
  {
    match e
    case Report(_) =>
    case Add(role, key, f) =>
      AppendSpec(s.Of(role), key, f);
  }

  /** Effects keep the tables valid and never remove a key, a fragment or a diagnostic. */
  lemma {:induction false} ApplyAllGrows(s: State, es: seq<Effect>)
    requires s.Valid()
    ensures s.ApplyAll(es).Valid()
    ensures s.ExtendedBy(s.ApplyAll(es))
    decreases |es|
  {
    if es != [] {
      var s1 := s.Apply(es[0]);
      ApplyGrows(s, es[0]);
      ApplyAllGrows(s1, es[1..]);
      var s2 := s1.ApplyAll(es[1..]);
      ExtendedByTransitive(s.endpoints, s1.endpoints, s2.endpoints);
      ExtendedByTransitive(s.policies, s1.policies, s2.policies);
      ExtendedByTransitive(s.schemes, s1.schemes, s2.schemes);
    }
  }

  /** The artefact handed to `Context.AddSource`. */
  datatype GeneratedSource = GeneratedSource(hintName: string, text: string)
}
