/**
 * The aggregator of LwxGenerator_Assembly.cs as pure functions: the settings
 * fallback of its constructor, the per-declaration driver loop of `Execute`
 * (with the checker of TypeRules as the per-declaration step), and the text
 * its three renderers produce from the fragment tables.
 */
module AssemblySpec {
  import opened Wrappers
  import opened Text
  import opened Grammar
  import opened Model
  import opened TypeRules
  import CheckerProperties

  // ------------------------------------------------------------------
  // Settings
  // ------------------------------------------------------------------

  /** A settings section; only the API-manager base path is read. */
  datatype Section = Section(apiManagerPath: Option<string>)

  /** `AppSettingsDto`: the `LucUtil` section the checker reads and the `Lwx` section the aggregator defaults. */
  datatype AppSettings = AppSettings(lucUtil: Option<Section>, lwx: Option<Section>)

  /** What `JsonSerializer.Deserialize<AppSettingsDto>` does with a text: a value
      (null for the JSON literal `null`), or an exception. */
  datatype JsonResult = Parsed(value: Option<AppSettings>) | Malformed

  /** The settings the constructor keeps and the diagnostics it reports while reading them. */
  datatype LoadedSettings = LoadedSettings(settings: AppSettings, diagnostics: seq<Diagnostic>)

  const SettingsError := Diagnostic("LUC0911", Error, Nowhere)

  const DefaultSettings := AppSettings(None, Some(Section(None)))

  /** `FirstOrDefault()` of the settings texts, a missing file being null. */
  function FirstText(files: seq<Option<string>>): (r: Option<string>)
    ensures r.Some? <==> files != [] && files[0].Some?
  {
    if files == [] then None else files[0]
  }

  /**
   * The constructor's settings fallback: only the first text is deserialized; an
   * exception is reported as LUC0911 (Error, no location) and does not abort;
   * a null result and a null `Lwx` section are replaced by defaults.
   */
  function LoadSettings(files: seq<Option<string>>, deserialize: string -> JsonResult): (r: LoadedSettings)
    ensures r.settings.lwx.Some?
    ensures r.diagnostics == [] || r.diagnostics == [SettingsError]
    ensures r.diagnostics == [SettingsError] <==>
            files != [] && files[0].Some? && deserialize(files[0].value).Malformed?
    ensures (files == [] || files[0].None?) ==> r.settings == DefaultSettings
    ensures files != [] && files[0].Some? && deserialize(files[0].value).Malformed? ==> r.settings == DefaultSettings
    ensures files != [] && files[0].Some? && deserialize(files[0].value) == Parsed(None) ==> r.settings == DefaultSettings
    ensures files != [] && files[0].Some? && deserialize(files[0].value).Parsed? && deserialize(files[0].value).value.Some? ==>
              var parsed := deserialize(files[0].value).value.value;
              && r.settings.lucUtil == parsed.lucUtil
              && (parsed.lwx.Some? ==> r.settings.lwx == parsed.lwx)
  {
    var result := match FirstText(files) case None => Parsed(None) case Some(text) => deserialize(text);
    var settings := if result.Parsed? && result.value.Some? then result.value.value else AppSettings(None, None);
    LoadedSettings(settings.(lwx := if settings.lwx.Some? then settings.lwx else Some(Section(None))),
                   if result.Malformed? then [SettingsError] else [])
  }

  /** The texts after the first never matter. */
  lemma OnlyFirstSettingsFile(first: Option<string>, rest1: seq<Option<string>>, rest2: seq<Option<string>>,
                              deserialize: string -> JsonResult)
    ensures LoadSettings([first] + rest1, deserialize) == LoadSettings([first] + rest2, deserialize)
  {
    assert FirstText([first] + rest1) == first == FirstText([first] + rest2);
  }

  /** `AppSettings?.LucUtil?.ApiManagerPath`, the base path the endpoint checks compare against. */
  function ApiManagerPath(settings: AppSettings): Option<string> {
    match settings.lucUtil
    case None => None
    case Some(section) => section.apiManagerPath
  }

  /** The project directory: the directory of the first declaration's file, when the
      first node is a type declaration; the constructor throws otherwise. */
  function ProjectDir(declarations: seq<Declaration>, directoryOf: string -> Option<string>): Option<string> {
    if declarations != [] && declarations[0].node != OtherNode then directoryOf(declarations[0].filePath) else None
  }

  // ------------------------------------------------------------------
  // The driver loop of Execute
  // ------------------------------------------------------------------

  const FaultReport := Diagnostic("LUC0912", Error, AtType)

  /** One iteration of the loop: the checker's effects, then LUC0912 at the declaration if it threw. */
  function Settle(s: State, o: Outcome): (t: State)
    ensures t.diagnostics == s.diagnostics + Reports(o.effects) + (if o.fault then [FaultReport] else [])
    ensures t.(diagnostics := []) == s.ApplyAll(o.effects).(diagnostics := [])
  {
    var t := s.ApplyAll(o.effects);
    ApplyAllDiagnostics(s, o.effects);
    if o.fault then t.(diagnostics := t.diagnostics + [FaultReport]) else t
  }

  /** The per-declaration step of the loop: what processing one declaration does. */
  type Checker = Declaration -> Outcome

  /** The step `Execute` runs: the constructor's cast and `ExecutePhase1` of the checker. */
  function Phase1Checker(base: Option<string>, n: UrlNaming): Checker {
    d => Phase1(d, base, n)
  }

  /** The state after the loop has processed `ds`, in order. */
  function Run(s: State, ds: seq<Declaration>, check: Checker): State
    decreases |ds|
  {
    if ds == [] then s else Settle(Run(s, ds[..|ds| - 1], check), check(ds[|ds| - 1]))
  }

  /** What one declaration adds to the log. */
  function DeclarationLog(o: Outcome): seq<Diagnostic> {
    Reports(o.effects) + (if o.fault then [FaultReport] else [])
  }

  /** What the loop adds to the log for `ds`: each declaration's share, in order. */
  function RunLog(ds: seq<Declaration>, check: Checker): seq<Diagnostic>
    decreases |ds|
  {
    if ds == [] then [] else RunLog(ds[..|ds| - 1], check) + DeclarationLog(check(ds[|ds| - 1]))
  }

  /** How many of `ds` make the step throw. */
  function Faulted(ds: seq<Declaration>, check: Checker): nat
    decreases |ds|
  {
    if ds == [] then 0 else Faulted(ds[..|ds| - 1], check) + (if check(ds[|ds| - 1]).fault then 1 else 0)
  }

  function CountId(log: seq<Diagnostic>, id: string): nat
    decreases |log|
  {
    if log == [] then 0 else CountId(log[..|log| - 1], id) + (if log[|log| - 1].id == id then 1 else 0)
  }

  lemma {:induction false} CountIdConcat(a: seq<Diagnostic>, b: seq<Diagnostic>, id: string)
    ensures CountId(a + b, id) == CountId(a, id) + CountId(b, id)
    decreases |b|
  {
    if b == [] {
      assert a + b == a;
    } else {
      assert (a + b)[..|a + b| - 1] == a + b[..|b| - 1];
      CountIdConcat(a, b[..|b| - 1], id);
    }
  }

  lemma {:induction false} CountIdAbsent(log: seq<Diagnostic>, id: string)
    requires forall x <- log :: x.id != id
    ensures CountId(log, id) == 0
    decreases |log|
  {
    if log != [] {
      forall x | x in log[..|log| - 1] ensures x.id != id {
        assert x in log;
      }
      CountIdAbsent(log[..|log| - 1], id);
    }
  }

  /** The diagnostics a run of effects reports carry the ids the effects allow. */
  lemma {:induction false} ReportsWithin(es: seq<Effect>, ids: set<string>)
    requires IdsWithin(es, ids)
    ensures forall x <- Reports(es) :: x.id in ids
    decreases |es|
  {
    if es != [] {
      assert IdsWithin(es[1..], ids) by {
        forall e | e in es[1..] ensures e.Report? ==> e.diagnostic.id in ids {
          assert e in es;
        }
      }
      ReportsWithin(es[1..], ids);
    }
  }

  /** A declaration's share of the log holds the step's own ids, plus one trailing LUC0912 exactly when it threw. */
  lemma DeclarationLogFacts(o: Outcome)
    requires IdsWithin(o.effects, CheckerIds)
    ensures var log := DeclarationLog(o);
            && CountId(log, "LUC0912") == (if o.fault then 1 else 0)
            && (o.fault ==> log != [] && log[|log| - 1] == FaultReport)
            && forall x <- log :: x.id in CheckerIds || x == FaultReport
  {
    ReportsWithin(o.effects, CheckerIds);
    assert "LUC0912" !in CheckerIds;
    CountIdAbsent(Reports(o.effects), "LUC0912");
    var tail: seq<Diagnostic> := if o.fault then [FaultReport] else [];
    CountIdConcat(Reports(o.effects), tail, "LUC0912");
    if o.fault {
      assert CountId(tail, "LUC0912") == 1 by {
        assert tail[..0] == [];
      }
    }
  }

  /** The loop appends exactly the declarations' shares of the log, in order. */
  lemma {:induction false} RunDiagnostics(s: State, ds: seq<Declaration>, check: Checker)
    ensures Run(s, ds, check).diagnostics == s.diagnostics + RunLog(ds, check)
    decreases |ds|
  {
    if ds != [] {
      RunDiagnostics(s, ds[..|ds| - 1], check);
    }
  }

  /** Fault isolation: when the step itself never reports a checker-external id, the log holds
      one LUC0912 per declaration that threw, and no other. */
  lemma {:induction false} FaultIsolation(ds: seq<Declaration>, check: Checker)
    requires forall d <- ds :: IdsWithin(check(d).effects, CheckerIds)
    ensures CountId(RunLog(ds, check), "LUC0912") == Faulted(ds, check)
    decreases |ds|
  {
    if ds != [] {
      var init := ds[..|ds| - 1];
      forall d | d in init ensures IdsWithin(check(d).effects, CheckerIds) {
        assert d in ds;
      }
      FaultIsolation(init, check);
      DeclarationLogFacts(check(ds[|ds| - 1]));
      CountIdConcat(RunLog(init, check), DeclarationLog(check(ds[|ds| - 1])), "LUC0912");
    }
  }

  /** The checker satisfies the premise of FaultIsolation: it never reports LUC0911 or LUC0912 itself. */
  lemma CheckerFaultIsolation(ds: seq<Declaration>, base: Option<string>, n: UrlNaming)
    ensures CountId(RunLog(ds, Phase1Checker(base, n)), "LUC0912") == Faulted(ds, Phase1Checker(base, n))
  {
    var check := Phase1Checker(base, n);
    forall d | d in ds ensures IdsWithin(check(d).effects, CheckerIds) {
      CheckerProperties.Phase1Ids(d, base, n);
    }
    FaultIsolation(ds, check);
  }

  /** Processing does not depend on where the run was split: a declaration that
      throws does not keep the ones after it from being processed. */
  lemma {:induction false} RunConcat(s: State, a: seq<Declaration>, b: seq<Declaration>, check: Checker)
    ensures Run(s, a + b, check) == Run(Run(s, a, check), b, check)
    decreases |b|
  {
    if b == [] {
      assert a + b == a;
    } else {
      assert (a + b)[..|a + b| - 1] == a + b[..|b| - 1];
      RunConcat(s, a, b[..|b| - 1], check);
    }
  }

  /** The loop keeps the tables valid and removes nothing. */
  lemma {:induction false} RunGrows(s: State, ds: seq<Declaration>, check: Checker)
    requires s.Valid()
    ensures Run(s, ds, check).Valid()
    ensures s.ExtendedBy(Run(s, ds, check))
    decreases |ds|
  {
    if ds != [] {
      var r := Run(s, ds[..|ds| - 1], check);
      var o := check(ds[|ds| - 1]);
      RunGrows(s, ds[..|ds| - 1], check);
      ApplyAllGrows(r, o.effects);
      var t := Run(s, ds, check);
      assert r.ExtendedBy(t);
      ExtendedByTransitive(s.endpoints, r.endpoints, t.endpoints);
      ExtendedByTransitive(s.policies, r.policies, t.policies);
      ExtendedByTransitive(s.schemes, r.schemes, t.schemes);
    }
  }

  // ------------------------------------------------------------------
  // Rendering
  // ------------------------------------------------------------------

  /** A group's method body: its fragments' code, in insertion order. */
  function BodyText(fs: seq<Fragment>): string
    decreases |fs|
  {
    if fs == [] then "" else BodyText(fs[..|fs| - 1]) + fs[|fs| - 1].Body()
  }

  /** A group's auxiliary declarations, in insertion order. */
  function IdClassText(fs: seq<Fragment>): string
    decreases |fs|
  {
    if fs == [] then "" else IdClassText(fs[..|fs| - 1]) + fs[|fs| - 1].idClass
  }

  lemma {:induction false} BodyTextConcat(a: seq<Fragment>, b: seq<Fragment>)
    ensures BodyText(a + b) == BodyText(a) + BodyText(b)
    decreases |b|
  {
    if b == [] {
      assert a + b == a;
    } else {
      var last := b[|b| - 1].Body();
      assert (a + b)[..|a + b| - 1] == a + b[..|b| - 1];
      BodyTextConcat(a, b[..|b| - 1]);
      calc {
        BodyText(a + b);
        BodyText(a + b[..|b| - 1]) + last;
        BodyText(a) + BodyText(b[..|b| - 1]) + last;
        BodyText(a) + BodyText(b);
      }
    }
  }

  lemma {:induction false} IdClassTextConcat(a: seq<Fragment>, b: seq<Fragment>)
    ensures IdClassText(a + b) == IdClassText(a) + IdClassText(b)
    decreases |b|
  {
    if b == [] {
      assert a + b == a;
    } else {
      assert (a + b)[..|a + b| - 1] == a + b[..|b| - 1];
      IdClassTextConcat(a, b[..|b| - 1]);
    }
  }

  /** Placeholders contribute no text: a group that holds only placeholders renders an empty body. */
  lemma {:induction false} PlaceholdersRenderEmpty(fs: seq<Fragment>)
    requires forall f <- fs :: f == Placeholder
    ensures BodyText(fs) == "" && IdClassText(fs) == ""
    decreases |fs|
  {
    if fs != [] {
      var init := fs[..|fs| - 1];
      forall k | 0 <= k < |init| ensures init[k] == Placeholder {
        assert init[k] == fs[k] && fs[k] in fs;
      }
      PlaceholdersRenderEmpty(fs[..|fs| - 1]);
      assert fs[|fs| - 1] in fs;
    }
  }

  const SignaturePrefix := "public static void "

  /** The signature of a generated extension method. */
  function Signature(key: string, receiver: string): string {
    SignaturePrefix + key + "(this " + receiver + ")"
  }

  /** The receiver of the first (or only) overload rendered for a key. */
  function FirstReceiver(role: Role): string {
    if role == Endpoints then "IEndpointRouteBuilder app" else "WebApplicationBuilder builder"
  }

  /** What follows the first signature: for endpoints the body; for policies and schemes the
      forwarding body of the WebApplicationBuilder overload, then the IServiceCollection
      overload, whose body policies wrap in `AddAuthorization` and schemes do not. */
  function CallableTail(role: Role, key: string, body: string): string {
    match role
    case Endpoints => "\n{\n" + body + "\n}\n"
    case Policies =>
      "\n{\nbuilder.Services." + key + "();\n}\n" + Signature(key, "IServiceCollection services")
      + "\n{\nservices.AddAuthorization( options =>\n{\n" + body + "\n});\n}\n"
    case Schemes =>
      "\n{\nbuilder.Services." + key + "();\n}\n" + Signature(key, "IServiceCollection services")
      + "\n{\n" + body + "\n}\n"
  }

  /** The callable (or pair of overloads) rendered for one group key. */
  function Callable(role: Role, key: string, body: string): string {
    Signature(key, FirstReceiver(role)) + CallableTail(role, key, body)
  }

  /** A callable template: the text rendered for a group, given its key and its body. */
  type Layout = (string, string) -> string

  /** The template each renderer fills in. */
  function LayoutOf(role: Role): Layout {
    (key, body) => Callable(role, key, body)
  }

  /** The callable rendered for the group `key` of `t`: its fragments' code, in order, as the body. */
  function GroupCallable(layout: Layout, t: Table, key: string): string {
    layout(key, BodyText(t.Group(key)))
  }

  /** The callables of the groups `keys` of `t`, in that order. */
  function Methods(layout: Layout, t: Table, keys: seq<string>): string
    decreases |keys|
  {
    if keys == [] then ""
    else
      Methods(layout, t, keys[..|keys| - 1]) + GroupCallable(layout, t, keys[|keys| - 1])
  }

  /** The auxiliary declarations of the groups `keys` of `t`, in that order. */
  function Others(t: Table, keys: seq<string>): string
    decreases |keys|
  {
    if keys == [] then "" else Others(t, keys[..|keys| - 1]) + IdClassText(t.Group(keys[|keys| - 1]))
  }

  function ClassName(role: Role): string {
    match role
    case Endpoints => "GeneratedEndpointMappings"
    case Policies => "GeneratedAuthPolicyMappings"
    case Schemes => "GeneratedAuthSchemeMappings"
  }

  function HintName(role: Role): string {
    ClassName(role) + ".g.cs"
  }

  /** The namespaces each renderer imports, in order. */
  function Namespaces(role: Role): seq<string> {
    var system, asp, ext := "System", "Microsoft.AspNetCore.", "Microsoft.Extensions.";
    var common := [system, system + ".Collections.Generic", system + ".Linq", system + ".Threading.Tasks"];
    match role
    case Endpoints =>
      common + [asp + "Http", asp + "Mvc", ext + "Logging", asp + "Builder", asp + "Routing", asp + "Authorization"]
    case Policies => common
    case Schemes =>
      common + [asp + "Authentication", "Luc.Lwx", ext + "Logging", ext + "Options",
                system + ".Text.Encodings.Web", system + ".Threading.Tasks"]
  }

  /** One using directive per line. */
  function Directives(ns: seq<string>): string
    decreases |ns|
  {
    if ns == [] then "" else "using " + ns[0] + ";\n" + Directives(ns[1..])
  }

  function Usings(role: Role): string {
    Directives(Namespaces(role))
  }

  /** The namespace block `{asm}.Generated` holding the static class with the callables. */
  function Unit(role: Role, assembly: string, methods: string): string {
    Usings(role) + "\nnamespace " + assembly + ".Generated\n{\npublic static class " + ClassName(role) + "\n{\n"
    + methods + "\n}\n}\n"
  }

  /** The text added for `role`: the unit, then (for policies and schemes) the auxiliary
      declarations after the namespace block; `AppendLine` ends it with a line break. */
  function SourceText(role: Role, assembly: string, methods: string, others: string): string {
    if role == Endpoints then Unit(role, assembly, methods) + "\n"
    else Unit(role, assembly, methods) + "\n" + others + "\n"
  }

  /** What the renderer for `role` hands to `AddSource`; it reads only the table and the assembly name. */
  function Render(role: Role, assembly: string, t: Table): GeneratedSource {
    GeneratedSource(HintName(role), SourceText(role, assembly, Methods(LayoutOf(role), t, t.keys), Others(t, t.keys)))
  }

  /** The name a rendered callable declares: the text between the signature prefix and the first '('. */
  function DeclaredName(text: string): Option<string> {
    if SignaturePrefix <= text then Some(TakeUntil(text[|SignaturePrefix|..], '(')) else None
  }

  function TakeUntil(s: string, c: char): (r: string)
    ensures r <= s && c !in r
    decreases |s|
  {
    if s == [] || s[0] == c then [] else [s[0]] + TakeUntil(s[1..], c)
  }

  lemma {:induction false} TakeUntilFirst(a: string, c: char, rest: string)
    requires c !in a
    ensures TakeUntil(a + [c] + rest, c) == a
    decreases |a|
  {
    if a != [] {
      assert (a + [c] + rest)[1..] == a[1..] + [c] + rest;
      TakeUntilFirst(a[1..], c, rest);
    } else {
      assert a + [c] + rest == [c] + rest;
    }
  }

  /** A signature declares the name it was built from, whatever follows it. */
  lemma SignatureNamed(key: string, receiver: string, tail: string)
    requires '(' !in key
    ensures DeclaredName(Signature(key, receiver) + tail) == Some(key)
  {
    var rest := "this " + receiver + ")" + tail;
    assert Signature(key, receiver) + tail == SignaturePrefix + (key + ['('] + rest);
    TakeUntilFirst(key, '(', rest);
  }

  /** Every callable rendered for a valid generator key is declared under exactly that key. */
  lemma CallableNamed(role: Role, key: string, body: string)
    requires IsMethodName(key)
    ensures DeclaredName(Callable(role, key, body)) == Some(key)
  {
    forall k | 0 <= k < |key| ensures key[k] != '(' {
      if IsIdentifier(key, false) {
        assert k == 0 || IsWordChar(key[k]);
      } else {
        assert k == |key| - 1 || IsWordChar(key[..|key| - 1][k]);
      }
    }
    SignatureNamed(key, FirstReceiver(role), CallableTail(role, key, body));
  }

  /** Groups whose fragments agree render the same callables. */
  lemma {:induction false} MethodsAgree(layout: Layout, t: Table, u: Table, keys: seq<string>)
    requires forall k <- keys :: t.Group(k) == u.Group(k)
    ensures Methods(layout, t, keys) == Methods(layout, u, keys)
    decreases |keys|
  {
    if keys != [] {
      var init, last := keys[..|keys| - 1], keys[|keys| - 1];
      forall k | k in init ensures t.Group(k) == u.Group(k) {
        assert k in keys;
      }
      MethodsAgree(layout, t, u, init);
      assert last in keys;
      assert GroupCallable(layout, t, last) == GroupCallable(layout, u, last);
    }
  }

  /** Groups whose fragments agree render the same auxiliary declarations. */
  lemma {:induction false} OthersAgree(t: Table, u: Table, keys: seq<string>)
    requires forall k <- keys :: t.Group(k) == u.Group(k)
    ensures Others(t, keys) == Others(u, keys)
    decreases |keys|
  {
    if keys != [] {
      var init, last := keys[..|keys| - 1], keys[|keys| - 1];
      forall k | k in init ensures t.Group(k) == u.Group(k) {
        assert k in keys;
      }
      OthersAgree(t, u, init);
      assert last in keys;
    }
  }


  /** Appending to a group appends the fragment's code to that group's body. */
  lemma AppendExtendsBody(t: Table, key: string, f: Fragment)
    requires t.Valid()
    ensures BodyText(t.Append(key, f).Group(key)) == BodyText(t.Group(key)) + f.Body()
    ensures IdClassText(t.Append(key, f).Group(key)) == IdClassText(t.Group(key)) + f.idClass
  {
    AppendSpec(t, key, f);
    var g := t.Group(key) + [f];
    assert g[..|g| - 1] == t.Group(key);
  }

  /** A new group's callable is rendered after every existing one, and the existing ones are unchanged. */
  lemma NewGroupRendersLast(layout: Layout, t: Table, key: string, f: Fragment)
    requires t.Valid() && key !in t.keys
    ensures Methods(layout, t.Append(key, f), t.Append(key, f).keys) == Methods(layout, t, t.keys) + layout(key, f.Body())
    ensures Others(t.Append(key, f), t.Append(key, f).keys) == Others(t, t.keys) + f.idClass
  {
    var u := t.Append(key, f);
    AppendSpec(t, key, f);
    AppendExtendsBody(t, key, f);
    assert t.Group(key) == [];
    assert BodyText(u.Group(key)) == f.Body() && IdClassText(u.Group(key)) == f.idClass;
    forall k | k in t.keys ensures t.Group(k) == u.Group(k) {
      assert k != key;
    }
    MethodsAgree(layout, t, u, t.keys);
    OthersAgree(t, u, t.keys);
    assert u.keys[..|u.keys| - 1] == t.keys;
    assert Methods(layout, u, u.keys) == Methods(layout, u, t.keys) + GroupCallable(layout, u, key);
  }

  /** The callables of `keys[from..]`, rendered from `t`. */
  function Suffix(layout: Layout, t: Table, keys: seq<string>, from: nat): string
    requires from <= |keys|
    decreases |keys|
  {
    if |keys| == from then "" else Suffix(layout, t, keys[..|keys| - 1], from) + GroupCallable(layout, t, keys[|keys| - 1])
  }

  /** The rendering of `keys` around its `i`-th group. */
  lemma {:induction false} MethodsSplit(layout: Layout, t: Table, keys: seq<string>, i: nat)
    requires i < |keys|
    ensures Methods(layout, t, keys) == Methods(layout, t, keys[..i]) + GroupCallable(layout, t, keys[i]) + Suffix(layout, t, keys, i + 1)
    decreases |keys|
  {
    var init := keys[..|keys| - 1];
    if i == |keys| - 1 {
      assert init == keys[..i];
    } else {
      MethodsSplit(layout, t, init, i);
      assert init[..i] == keys[..i] && init[i] == keys[i];
    }
  }

  lemma {:induction false} SuffixAgree(layout: Layout, t: Table, u: Table, keys: seq<string>, from: nat)
    requires from <= |keys|
    requires forall k <- keys[from..] :: t.Group(k) == u.Group(k)
    ensures Suffix(layout, t, keys, from) == Suffix(layout, u, keys, from)
    decreases |keys|
  {
    if |keys| != from {
      var init, last := keys[..|keys| - 1], keys[|keys| - 1];
      forall k | k in init[from..] ensures t.Group(k) == u.Group(k) {
        assert init[from..] <= keys[from..];
      }
      SuffixAgree(layout, t, u, init, from);
      assert last == keys[from..][|keys| - 1 - from];
      assert GroupCallable(layout, t, last) == GroupCallable(layout, u, last);
    }
  }

  /** Appending to the `i`-th group keeps the key order and every group before and after it. */
  lemma AppendKeepsNeighbours(t: Table, i: nat, f: Fragment)
    requires t.Valid() && i < |t.keys|
    ensures t.Append(t.keys[i], f).keys == t.keys
    ensures forall k <- t.keys[..i] :: t.Group(k) == t.Append(t.keys[i], f).Group(k)
    ensures forall k <- t.keys[i + 1..] :: t.Group(k) == t.Append(t.keys[i], f).Group(k)
  {
    var key := t.keys[i];
    AppendSpec(t, key, f);
    forall k | k in t.keys[..i] ensures t.Group(k) == t.Append(key, f).Group(k) {
      var a :| 0 <= a < i && t.keys[a] == k;
    }
    forall k | k in t.keys[i + 1..] ensures t.Group(k) == t.Append(key, f).Group(k) {
      var b :| i < b < |t.keys| && t.keys[b] == k;
    }
  }

  /** Appending to an existing group changes only that group's callable, in place: the
      callables before and after it are rendered as before. */
  lemma ExistingGroupGrowsInPlace(layout: Layout, t: Table, i: nat, f: Fragment)
    requires t.Valid() && i < |t.keys|
    ensures var u := t.Append(t.keys[i], f);
            Methods(layout, u, u.keys) ==
              Methods(layout, t, t.keys[..i])
              + layout(t.keys[i], BodyText(t.Group(t.keys[i])) + f.Body())
              + Suffix(layout, t, t.keys, i + 1)
  {
    var key := t.keys[i];
    var u := t.Append(key, f);
    AppendKeepsNeighbours(t, i, f);
    AppendExtendsBody(t, key, f);
    MethodsSplit(layout, u, t.keys, i);
    MethodsAgree(layout, t, u, t.keys[..i]);
    SuffixAgree(layout, t, u, t.keys, i + 1);
  }
}
