/**
 * The two small grammars of the endpoint checker (LucUtilTypeProcessor.cs):
 * the `"METHOD /path"` attribute value with its method normalisation, and the
 * derivation of the type name an endpoint path must be implemented in; plus the
 * two identifier patterns used for generator keys and policy/scheme names.
 */
module Grammar {
  import opened Wrappers
  import opened Text

  // ------------------------------------------------------------------
  // ^(\S*) (/.*)$
  // ------------------------------------------------------------------

  /** Index of the first white-space character of `s`, or `|s|` when there is none. */
  function FirstWhiteSpace(s: string): (i: nat)
    ensures i <= |s|
    ensures forall k :: 0 <= k < i ==> !IsWhiteSpace(s[k])
    ensures i < |s| ==> IsWhiteSpace(s[i])
  {
    if s == [] || IsWhiteSpace(s[0]) then 0 else 1 + FirstWhiteSpace(s[1..])
  }

  /** The two capture groups of the endpoint path pattern. */
  datatype MethodAndPath = MethodAndPath(verb: string, path: string)

  predicate NoWhiteSpace(s: string) {
    forall k :: 0 <= k < |s| ==> !IsWhiteSpace(s[k])
  }

  /** What the groups can hold: a white-space-free (possibly empty) method token,
      and a path that starts with '/' and holds no line feed ('.' excludes it). */
  predicate WellFormed(mp: MethodAndPath) {
    NoWhiteSpace(mp.verb) && mp.path != [] && mp.path[0] == '/' && '\n' !in mp.path
  }

  /** The attribute text `"{verb} {path}"`. */
  function Line(mp: MethodAndPath): string {
    mp.verb + " " + mp.path
  }

  /**
   * `EndpointPathPattern().Match(s)`: `\S*` stops at the first white space,
   * which must be a single ' '; `/.*` runs to the end of the line, and `$`
   * matches at the very end or just before a final line feed.
   */
  function ParseMethodAndPath(s: string): (r: Option<MethodAndPath>)
    ensures r.Some? ==> WellFormed(r.value)
    ensures r.Some? ==> s == Line(r.value) || s == Line(r.value) + "\n"
  {
    var i := FirstWhiteSpace(s);
    if i == |s| || s[i] != ' ' then None
    else
      var verb, tail := s[..i], s[i + 1..];
      assert s == verb + " " + tail;
      VerbGroup(s);
      match PathGroup(tail)
      case None => None
      case Some(path) =>
        assert tail == path + "\n" ==> s == verb + " " + path + "\n";
        Some(MethodAndPath(verb, path))
  }

  /** `\S*` holds no white space. */
  lemma VerbGroup(s: string)
    ensures NoWhiteSpace(s[..FirstWhiteSpace(s)])
  {
    var i := FirstWhiteSpace(s);
    forall k | 0 <= k < i
      ensures !IsWhiteSpace(s[..i][k])
    {
      assert s[..i][k] == s[k];
    }
  }

  /** `(/.*)$` on the text after the separating space: the path, without a final line feed. */
  function PathGroup(rest: string): (r: Option<string>)
    ensures r.Some? ==> r.value != [] && r.value[0] == '/' && '\n' !in r.value
    ensures r.Some? ==> rest == r.value || rest == r.value + "\n"
  {
    if rest == [] || rest[0] != '/' then None
    else if '\n' !in rest then Some(rest)
    else if rest[|rest| - 1] == '\n' && '\n' !in rest[..|rest| - 1] then
      assert rest == rest[..|rest| - 1] + "\n";
      Some(rest[..|rest| - 1])
    else None
  }

  /** Every well-formed pair is read back from its own text, with or without a final line feed. */
  lemma ParseLine(mp: MethodAndPath)
    requires WellFormed(mp)
    ensures ParseMethodAndPath(Line(mp)) == Some(mp)
    ensures ParseMethodAndPath(Line(mp) + "\n") == Some(mp)
  {
    ParseBareLine(mp);
    ParseLineFeed(mp);
  }

  /** The verb runs up to the first space; what follows it goes to the path group. */
  lemma ParseSplit(mp: MethodAndPath, tail: string)
    requires NoWhiteSpace(mp.verb)
    ensures ParseMethodAndPath(mp.verb + " " + tail) ==
            match PathGroup(tail) case None => None case Some(path) => Some(MethodAndPath(mp.verb, path))
  {
    var s := mp.verb + " " + tail;
    assert s[|mp.verb|] == ' ';
    assert FirstWhiteSpace(s) == |mp.verb|;
    assert s[..|mp.verb|] == mp.verb && s[|mp.verb| + 1..] == tail;
  }

  lemma ParseBareLine(mp: MethodAndPath)
    requires WellFormed(mp)
    ensures ParseMethodAndPath(Line(mp)) == Some(mp)
  {
    ParseSplit(mp, mp.path);
  }

  lemma ParseLineFeed(mp: MethodAndPath)
    requires WellFormed(mp)
    ensures ParseMethodAndPath(Line(mp) + "\n") == Some(mp)
  {
    var rest := mp.path + "\n";
    assert Line(mp) + "\n" == mp.verb + " " + rest;
    assert rest[..|rest| - 1] == mp.path;
    assert PathGroup(rest) == Some(mp.path);
    ParseSplit(mp, rest);
  }

  /** The pattern rejects exactly the strings that are not the text of a well-formed pair. */
  lemma ParseRejectsOnlyMalformed(s: string)
    ensures ParseMethodAndPath(s).None? <==>
            forall mp :: WellFormed(mp) ==> s != Line(mp) && s != Line(mp) + "\n"
  {
    if ParseMethodAndPath(s).None? {
      forall mp | WellFormed(mp)
        ensures s != Line(mp) && s != Line(mp) + "\n"
      {
        ParseLine(mp);
      }
    }
  }

  // ------------------------------------------------------------------
  // switch( attrMethod.ToUpper() )
  // ------------------------------------------------------------------

  /** The HTTP methods the minimal-API mapping supports. */
  datatype Verb = Get | Post | Put | Patch | Delete | Head {

    /** The spelling used in the generated `app.Map{Name}` call. */
    function Name(): string {
      match this
      case Get => "Get"
      case Post => "Post"
      case Put => "Put"
      case Patch => "Patch"
      case Delete => "Delete"
      case Head => "Head"
    }

    /** The spelling the upper-cased method token is compared with. */
    function Upper(): string {
      match this
      case Get => "GET"
      case Post => "POST"
      case Put => "PUT"
      case Patch => "PATCH"
      case Delete => "DELETE"
      case Head => "HEAD"
    }
  }

  /** The upper-cased token is compared with the six supported methods; anything else is refused. */
  function NormalizeMethod(token: string): (r: Option<Verb>)
    ensures r.Some? ==> ToUpper(token) == r.value.Upper()
    ensures token == "" ==> r.None?
  {
    var u := ToUpper(token);
    if u == "GET" then Some(Get)
    else if u == "POST" then Some(Post)
    else if u == "PUT" then Some(Put)
    else if u == "PATCH" then Some(Patch)
    else if u == "DELETE" then Some(Delete)
    else if u == "HEAD" then Some(Head)
    else None
  }

  /** A token is refused exactly when its upper-cased form is no supported method. */
  lemma NormalizeMethodRefuses(token: string)
    ensures NormalizeMethod(token).None? <==> forall v: Verb :: ToUpper(token) != v.Upper()
  {
  }

  /** The display name of a verb normalises back to that verb, whatever its case. */
  lemma NormalizeName(v: Verb)
    ensures NormalizeMethod(v.Name()) == Some(v)
    ensures NormalizeMethod(v.Upper()) == Some(v)
  {
    assert ToUpper(v.Name()) == v.Upper();
    assert ToUpper(v.Upper()) == v.Upper();
  }

  // ------------------------------------------------------------------
  // ^[a-zA-Z_][a-zA-Z0-9_]*$   and   ^[A-Z_][a-zA-Z0-9_]*$
  // ------------------------------------------------------------------

  predicate IsWordChar(c: char) {
    IsAsciiLetter(c) || IsAsciiDigit(c) || c == '_'
  }

  /** `[first][a-zA-Z0-9_]*` spanning all of `s`; `upperFirst` narrows the first class to `[A-Z_]`. */
  predicate IsIdentifier(s: string, upperFirst: bool) {
    && s != []
    && (if upperFirst then ('A' <= s[0] <= 'Z') || s[0] == '_' else IsAsciiLetter(s[0]) || s[0] == '_')
    && forall k :: 1 <= k < |s| ==> IsWordChar(s[k])
  }

  /** `^...$`: the identifier spans `s`, or all of `s` but a final line feed. */
  predicate AnchoredIdentifier(s: string, upperFirst: bool) {
    || IsIdentifier(s, upperFirst)
    || (s != [] && s[|s| - 1] == '\n' && IsIdentifier(s[..|s| - 1], upperFirst))
  }

  /** `RegexValidMethodName().IsMatch(s)` */
  predicate IsMethodName(s: string) {
    AnchoredIdentifier(s, false)
  }

  /** `RegexValidPropertyName().IsMatch(s)` */
  predicate IsPropertyName(s: string) {
    AnchoredIdentifier(s, true)
  }

  /**
   * A default generator key, a fixed identifier prefix followed by the assembly
   * name with its dots removed, is a valid method name whenever the assembly name
   * is made of dots and word characters.
   */
  lemma DefaultKeyIsMethodName(prefix: string, assembly: string)
    requires IsIdentifier(prefix, false)
    requires forall k :: 0 <= k < |assembly| ==> IsWordChar(assembly[k]) || assembly[k] == '.'
    ensures IsMethodName(prefix + Replace(assembly, ".", ""))
  {
    var rest := Replace(assembly, ".", "");
    var key := prefix + rest;
    forall k | 1 <= k < |key| ensures IsWordChar(key[k]) {
      if k >= |prefix| {
        var c := rest[k - |prefix|];
        assert c in rest;
        assert c in assembly;
      }
    }
  }

  // ------------------------------------------------------------------
  // expected endpoint type name (LucUtilTypeProcessor.cs, lines 578-590)
  // ------------------------------------------------------------------

  /**
   * The URL helpers of the framework, whose code is not part of this model. Each
   * is taken to return a string for every input, never null.
   */
  datatype UrlNaming = UrlNaming(
    fileNameFromUrl: string -> string,     // LucGetFileNameFromUrl
    dirNameFromUrlPath: string -> string,  // LucGetDirNameFromUrlPath
    pathElementToCamelCase: string -> string,  // LucPathElementToCamelCase
    pathToCamelCase: string -> string)     // LucPathToCamelCase

  /**
   * The path with its first |base| characters dropped, '/' trimmed at both ends,
   * every '{' replaced by "param-" and every '}' removed; `None` where the slice
   * `path[base.Length..]` throws because the path is shorter than the base.
   */
  function TypeNameReference(path: string, base: string): (r: Option<string>)
    ensures r.None? <==> |path| < |base|
    ensures r.Some? ==> '{' !in r.value && '}' !in r.value
  {
    if |path| < |base| then None
    else
      var trimmed := Trim(path[|base|..], '/');
      Some(Replace(Replace(trimmed, "{", "param-"), "}", ""))
  }

  function ShortTypeName(reference: string, n: UrlNaming): string {
    n.pathElementToCamelCase(Trim(n.fileNameFromUrl(reference), '/'))
  }

  function DerivedNamespace(reference: string, n: UrlNaming): string {
    n.pathToCamelCase(Trim(n.dirNameFromUrlPath(reference), '/'))
  }

  /**
   * `{asm}.Web.Endpoints.Endpoint{short}` for a root-level path, and
   * `{asm}.Web.Endpoints.{ns}.Endpoint{short}` otherwise.
   */
  function ExpectedEndpointTypeName(assembly: string, reference: string, n: UrlNaming): (r: string)
    ensures StartsWith(r, assembly + ".Web.Endpoints.")
    ensures EndsWith(r, ".Endpoint" + ShortTypeName(reference, n))
    ensures DerivedNamespace(reference, n) == "" <==>
            r == assembly + ".Web.Endpoints.Endpoint" + ShortTypeName(reference, n)
  {
    var ns := DerivedNamespace(reference, n);
    var short := ShortTypeName(reference, n);
    EndpointNameShape(assembly + ".Web.Endpoints", ns, short);
    if ns == "" then assembly + ".Web.Endpoints" + ".Endpoint" + short
    else assembly + ".Web.Endpoints" + "." + ns + ".Endpoint" + short
  }

  /** Both spellings of the expected name share the `{root}.` prefix and the `.Endpoint{short}` suffix. */
  lemma EndpointNameShape(root: string, ns: string, short: string)
    ensures StartsWith(root + ".Endpoint" + short, root + ".")
    ensures StartsWith(root + "." + ns + ".Endpoint" + short, root + ".")
    ensures EndsWith(root + ".Endpoint" + short, ".Endpoint" + short)
    ensures EndsWith(root + "." + ns + ".Endpoint" + short, ".Endpoint" + short)
    ensures ns != "" ==> root + "." + ns + ".Endpoint" + short != root + ".Endpoint" + short
  {
    var a := root + ".Endpoint" + short;
    var b := root + "." + ns + ".Endpoint" + short;
    assert a[..|root| + 1] == root + ".";
    assert b[..|root| + 1] == root + ".";
    assert a[|a| - |".Endpoint" + short|..] == ".Endpoint" + short;
    assert b[|b| - |".Endpoint" + short|..] == ".Endpoint" + short;
  }
}
