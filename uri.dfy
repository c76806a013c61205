/** URI references per RFC 3986: splitting a reference into its components
    (Appendix B), resolving it against a base URI (section 5.2.2), merging
    paths (section 5.2.3), removing dot segments (section 5.2.4) and
    recomposing the result (section 5.3). This is what `new URL(endpoint, base)`
    does to the gateway's endpoints. */
module Uri {
  import opened Wrappers
  import Text

  datatype Uri = Uri(scheme: Option<string>, authority: Option<string>, path: string,
                     query: Option<string>, fragment: Option<string>)

  /** Splits `s` at the first `c`: the text before it, and the text after it
      when `c` occurs. */
  function SplitAt(s: string, c: char): (r: (string, Option<string>))
    ensures s == r.0 + Delimited(c, r.1)
  {
    var n := Text.Span(s, {c});
    if n == |s| then
      assert s[..n] == s;
      (s, None)
    else
      assert s[n] in {c};
      assert s == s[..n] + [s[n]] + s[n + 1..];
      (s[..n], Some(s[n + 1..]))
  }

  /** The scheme of a reference, if it starts with one: a non-empty run of
      characters other than `:`, `/`, `?` and `#` followed by `:`. Returns the
      scheme and the rest after the `:`. */
  function SplitScheme(hier: string): (r: (Option<string>, string))
    ensures hier == SchemePart(r.0) + r.1
  {
    var i := Text.Span(hier, {':', '/'});
    if 0 < i < |hier| && hier[i] == ':' then
      assert hier == hier[..i] + ":" + hier[i + 1..];
      (Some(hier[..i]), hier[i + 1..])
    else
      (None, hier)
  }

  /** The authority of a hierarchical part that starts with `//`: everything
      up to the next `/`. Returns the authority and the path. */
  function SplitAuthority(rest: string): (r: (Option<string>, string))
    ensures rest == AuthorityPart(r.0) + r.1
  {
    if |rest| >= 2 && rest[..2] == "//" then
      var n := 2 + Text.Span(rest[2..], {'/'});
      assert rest == rest[..2] + rest[2..n] + rest[n..];
      (Some(rest[2..n]), rest[n..])
    else
      (None, rest)
  }

  /** The components of a URI reference, as matched by the regular expression
      of Appendix B of RFC 3986. */
  function Parse(s: string): Uri {
    var f := SplitAt(s, '#');
    var q := SplitAt(f.0, '?');
    var sc := SplitScheme(q.0);
    var a := SplitAuthority(sc.1);
    Uri(sc.0, a.0, a.1, q.1, f.1)
  }

  /** Component recomposition, section 5.3 of RFC 3986. */
  function Recompose(u: Uri): string {
    SchemePart(u.scheme) + AuthorityPart(u.authority) + u.path
    + Delimited('?', u.query) + Delimited('#', u.fragment)
  }

  function SchemePart(scheme: Option<string>): string {
    if scheme.Some? then scheme.value + ":" else ""
  }

  function AuthorityPart(authority: Option<string>): string {
    if authority.Some? then "//" + authority.value else ""
  }

  function Delimited(c: char, part: Option<string>): string {
    if part.Some? then [c] + part.value else ""
  }

  /** Parsing loses nothing: recomposing the components gives back the reference. */
  lemma ParseRecompose(s: string)
    ensures Recompose(Parse(s)) == s
  {
    var f := SplitAt(s, '#');
    var q := SplitAt(f.0, '?');
    SplitDelimiters(s);
    SplitHierarchy(q.0);
  }

  lemma SplitDelimiters(s: string)
    ensures var f := SplitAt(s, '#'); var q := SplitAt(f.0, '?');
      s == q.0 + Delimited('?', q.1) + Delimited('#', f.1)
  {
  }

  lemma SplitHierarchy(h: string)
    ensures var sc := SplitScheme(h); var a := SplitAuthority(sc.1);
      h == SchemePart(sc.0) + AuthorityPart(a.0) + a.1
  {
  }

  /** An absolute URI with scheme, authority and path only parses back into
      those components. */
  lemma ParseAbsolute(scheme: string, authority: string, path: string)
    requires scheme != [] && ':' !in scheme && '/' !in scheme && '?' !in scheme && '#' !in scheme
    requires '/' !in authority && '?' !in authority && '#' !in authority
    requires path == [] || path[0] == '/'
    requires '?' !in path && '#' !in path
    ensures Parse(scheme + "://" + authority + path) == Uri(Some(scheme), Some(authority), path, None, None)
  {
    var rest := "//" + authority + path;
    var s := scheme + "://" + authority + path;
    assert s == scheme + ":" + rest;
    assert '#' !in s && '?' !in s by {
      assert forall i :: 0 <= i < |s| ==> s[i] in scheme || s[i] in "://" || s[i] in authority || s[i] in path;
    }
    SplitAtAbsent(s, '#');
    SplitAtAbsent(s, '?');
    SplitSchemeOf(scheme, rest);
    SplitAuthorityOf(authority, path);
  }

  lemma SplitAtAbsent(s: string, c: char)
    requires c !in s
    ensures SplitAt(s, c) == (s, None)
  {
    Text.SpanOver(s, [], {c});
    assert s + [] == s;
  }

  lemma SplitSchemeOf(scheme: string, rest: string)
    requires scheme != [] && ':' !in scheme && '/' !in scheme
    ensures SplitScheme(scheme + ":" + rest) == (Some(scheme), rest)
  {
    var h := scheme + ":" + rest;
    assert h == scheme + (":" + rest);
    Text.SpanOver(scheme, ":" + rest, {':', '/'});
    assert h[..|scheme|] == scheme && h[|scheme| + 1..] == rest;
  }

  lemma SplitAuthorityOf(authority: string, path: string)
    requires '/' !in authority
    requires path == [] || path[0] == '/'
    ensures SplitAuthority("//" + authority + path) == (Some(authority), path)
  {
    var r := "//" + authority + path;
    assert r[2..] == authority + path;
    Text.SpanOver(authority, path, {'/'});
    assert r[2..2 + |authority|] == authority && r[2 + |authority|..] == path;
  }

  /** Removes the last segment of `out` and the `/` before it, if any. */
  function DropLastSegment(out: string): (r: string)
    ensures |r| <= |out|
  {
    if out == [] then []
    else if out[|out| - 1] == '/' then out[..|out| - 1]
    else DropLastSegment(out[..|out| - 1])
  }

  /** Length of the first path segment of `input`, with its leading `/`. */
  function FirstSegmentLength(input: string): (n: nat)
    requires input != []
    ensures 1 <= n <= |input|
  {
    if input[0] == '/' then 1 + Text.Span(input[1..], {'/'}) else Text.Span(input, {'/'})
  }

  /** The loop of section 5.2.4 of RFC 3986, one step per call: `input` is
      the input buffer and `out` the output buffer. The rules are told apart
      by the first segment of `input`: rules A and D drop a leading `.` or
      `..` segment, rules B and C turn a leading `/.` or `/..` into `/` (C also
      drops the last segment of `out`), and rule E moves the first segment. */
  function RemoveDots(input: string, out: string): string
    decreases |input|
  {
    if input == [] then out
    else
      var n := FirstSegmentLength(input);
      var rest := if n < |input| then input[n..] else "/";
      if input[0] != '/' && (input[..n] == "." || input[..n] == "..") then
        // A: "./" or "../" is removed; D: a lone "." or ".." is removed
        if n < |input| then RemoveDots(input[n + 1..], out) else out
      else if input[0] == '/' && input[1..n] == "." then
        // B: "/./" or a final "/." becomes "/"
        RemoveDots(rest, out)
      else if input[0] == '/' && input[1..n] == ".." then
        // C: "/../" or a final "/.." becomes "/", and the last output segment goes
        RemoveDots(rest, DropLastSegment(out))
      else
        // E: the first segment moves to the output
        RemoveDots(input[n..], out + input[..n])
  }

  function RemoveDotSegments(path: string): string {
    RemoveDots(path, "")
  }

  /** An absolute path none of whose segments is `.` or `..` (or the empty path). */
  predicate PlainPath(p: string)
    decreases |p|
  {
    p == [] ||
    (p[0] == '/' &&
     var n := FirstSegmentLength(p);
     p[1..n] != "." && p[1..n] != ".." && PlainPath(p[n..]))
  }

  /** Dot-segment removal leaves a plain path as it is. */
  lemma {:induction false} RemoveDotsPlain(p: string, out: string)
    requires PlainPath(p)
    ensures RemoveDots(p, out) == out + p
    decreases |p|
  {
    if p != [] {
      var n := FirstSegmentLength(p);
      RemoveDotsPlain(p[n..], out + p[..n]);
      assert out + p[..n] + p[n..] == out + p;
    }
  }

  /** A `/` followed by one segment that has no `/` and is not `.` or `..`. */
  lemma PlainSegment(seg: string)
    requires '/' !in seg && seg != "." && seg != ".."
    ensures PlainPath("/" + seg)
  {
    var p := "/" + seg;
    assert p[1..] == seg;
    Text.SpanIs(seg, {'/'}, |seg|);
    assert p[1..|p|] == seg;
    assert p[|p|..] == [];
  }

  /** Plain paths concatenate to a plain path. */
  lemma {:induction false} PlainPathConcat(a: string, b: string)
    requires PlainPath(a) && PlainPath(b)
    ensures PlainPath(a + b)
    decreases |a|
  {
    if a == [] {
      assert a + b == b;
    } else if b == [] {
      assert a + b == a;
    } else {
      var n := FirstSegmentLength(a);
      var s := a + b;
      assert s[1..] == a[1..] + b;
      Text.SpanAppend(a[1..], b, {'/'});
      assert FirstSegmentLength(s) == n;
      assert s[1..n] == a[1..n];
      assert s[n..] == a[n..] + b;
      PlainPathConcat(a[n..], b);
    }
  }

  /** Merging a relative-path reference with the base path, section 5.2.3. */
  function Merge(base: Uri, refPath: string): string {
    if base.authority.Some? && base.path == [] then "/" + refPath
    else DirectoryOf(base.path) + refPath
  }

  /** Everything up to and including the last `/` of `path` (empty if none). */
  function DirectoryOf(path: string): (r: string)
    ensures |r| <= |path| && r == path[..|r|]
    ensures r != [] ==> r[|r| - 1] == '/'
    ensures '/' !in path[|r|..]
  {
    if path == [] then []
    else if path[|path| - 1] == '/' then path
    else DirectoryOf(path[..|path| - 1])
  }

  /** Transform References, section 5.2.2 of RFC 3986 (strict: a scheme in the
      reference is always used). */
  function Resolve(base: Uri, r: Uri): (t: Uri)
    ensures t.fragment == r.fragment
    ensures r.scheme.None? ==> t.scheme == base.scheme
    ensures r.scheme.None? && r.authority.None? ==> t.authority == base.authority
  {
    if r.scheme.Some? then
      Uri(r.scheme, r.authority, RemoveDotSegments(r.path), r.query, r.fragment)
    else if r.authority.Some? then
      Uri(base.scheme, r.authority, RemoveDotSegments(r.path), r.query, r.fragment)
    else if r.path == [] then
      Uri(base.scheme, base.authority, base.path,
          if r.query.Some? then r.query else base.query, r.fragment)
    else if r.path[0] == '/' then
      Uri(base.scheme, base.authority, RemoveDotSegments(r.path), r.query, r.fragment)
    else
      Uri(base.scheme, base.authority, RemoveDotSegments(Merge(base, r.path)), r.query, r.fragment)
  }

  /** The target URI of reference `ref` against `base`, as a string. */
  function ResolveReference(base: Uri, ref: string): string {
    Recompose(Resolve(base, Parse(ref)))
  }

  /** A reference holding only a path (no `?`, `#`, no scheme, and not starting
      with `//`) parses to just that path. */
  lemma ParsePathOnly(e: string)
    requires '?' !in e && '#' !in e
    requires !(|e| >= 2 && e[..2] == "//")
    requires e == [] || e[0] == '/' || ':' !in e
    ensures Parse(e) == Uri(None, None, e, None, None)
  {
    Text.SpanIs(e, {'#'}, |e|);
    assert e[..|e|] == e;
    Text.SpanIs(e, {'?'}, |e|);
    var i := Text.Span(e, {':', '/'});
    if e != [] && e[0] == '/' {
      Text.SpanIs(e, {':', '/'}, 0);
    } else if 0 < i < |e| {
      assert e[i] != ':' by { assert e[i] in e; }
    }
  }

  /** An absolute-path reference (one starting with a single `/`) replaces the
      whole path of the base: only the base's scheme and authority survive. */
  lemma AbsolutePathReplacesBasePath(base: Uri, e: string)
    requires base.scheme.Some? && base.authority.Some?
    requires e != [] && e[0] == '/' && !(|e| >= 2 && e[1] == '/')
    requires '?' !in e && '#' !in e && PlainPath(e)
    ensures ResolveReference(base, e) == base.scheme.value + "://" + base.authority.value + e
  {
    ParsePathOnly(e);
    RemoveDotSegmentsPlain(e);
    ResolveAbsoluteReference(base, Uri(None, None, e, None, None));
    RecomposeSchemeAuthorityPath(base, e);
  }

  /** Resolution of a reference that has only an absolute path. */
  lemma ResolveAbsoluteReference(base: Uri, r: Uri)
    requires r.scheme.None? && r.authority.None? && r.path != [] && r.path[0] == '/'
    ensures Resolve(base, r) == Uri(base.scheme, base.authority, RemoveDotSegments(r.path), r.query, r.fragment)
  {
  }

  lemma RecomposeSchemeAuthorityPath(base: Uri, path: string)
    requires base.scheme.Some? && base.authority.Some?
    ensures Recompose(Uri(base.scheme, base.authority, path, None, None))
         == base.scheme.value + "://" + base.authority.value + path
  {
  }

  lemma ResolveRelativePath(base: Uri, e: string)
    requires base.authority.Some? && base.path != []
    requires e != [] && e[0] != '/' && ':' !in e && '?' !in e && '#' !in e
    requires PlainPath(DirectoryOf(base.path) + e)
    ensures Resolve(base, Parse(e)) == Uri(base.scheme, base.authority, DirectoryOf(base.path) + e, None, None)
  {
    ParsePathOnly(e);
    RemoveDotSegmentsPlain(DirectoryOf(base.path) + e);
    ResolveRelativeReference(base, Uri(None, None, e, None, None));
  }

  lemma RemoveDotSegmentsPlain(p: string)
    requires PlainPath(p)
    ensures RemoveDotSegments(p) == p
  {
    RemoveDotsPlain(p, "");
    assert "" + p == p;
  }

  /** Resolution of a reference that has only a relative path. */
  lemma ResolveRelativeReference(base: Uri, r: Uri)
    requires r.scheme.None? && r.authority.None? && r.path != [] && r.path[0] != '/'
    ensures Resolve(base, r) == Uri(base.scheme, base.authority, RemoveDotSegments(Merge(base, r.path)), r.query, r.fragment)
    ensures base.authority.Some? && base.path != [] ==> Merge(base, r.path) == DirectoryOf(base.path) + r.path
  {
  }

  /** A relative-path reference is appended to the directory of the base path. */
  lemma RelativePathMergesWithBase(base: Uri, e: string)
    requires base.scheme.Some? && base.authority.Some? && base.path != []
    requires e != [] && e[0] != '/' && ':' !in e && '?' !in e && '#' !in e
    requires PlainPath(DirectoryOf(base.path) + e)
    ensures ResolveReference(base, e)
         == base.scheme.value + "://" + base.authority.value + DirectoryOf(base.path) + e
  {
    var m := DirectoryOf(base.path) + e;
    ResolveRelativePath(base, e);
    RecomposeSchemeAuthorityPath(base, m);
  }
}
