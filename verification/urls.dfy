/** Strings the pledge server is reached by: `titleToUrlString`, `makeServerPath`
    and the decision part of `validateServerPath`. */
module ServerPaths {
  import opened Results

  const HttpPathPrefix: string := "/_lighthouse/crowdfund"
  const HttpProjectPath: string := "/project/"

  /** The characters the first rewrite keeps: `[a-zA-Z0-9 ]`. */
  predicate IsTitleChar(c: char) {
    'a' <= c <= 'z' || 'A' <= c <= 'Z' || '0' <= c <= '9' || c == ' '
  }

  /** The characters a URL slug is made of: `[a-z0-9-]`. */
  predicate IsSlugChar(c: char) {
    'a' <= c <= 'z' || '0' <= c <= '9' || c == '-'
  }

  /** ASCII lower-casing of one character. */
  function LowerChar(c: char): (l: char)
    ensures 'A' <= c <= 'Z' ==> 'a' <= l <= 'z' && l as int - c as int == 32
    ensures !('A' <= c <= 'Z') ==> l == c
  {
    if 'A' <= c <= 'Z' then (c as int + 32) as char else c
  }

  /** The slug character one kept title character becomes. */
  function SlugOf(c: char): (r: char)
    requires IsTitleChar(c)
    ensures IsSlugChar(r)
  {
    if c == ' ' then '-' else LowerChar(c)
  }

  /** First rewrite: drop every character outside `[a-zA-Z0-9 ]`. */
  function StripDisallowed(s: string): (r: string)
    ensures |r| <= |s|
    ensures forall i :: 0 <= i < |r| ==> IsTitleChar(r[i])
    ensures (forall i :: 0 <= i < |s| ==> IsTitleChar(s[i])) ==> r == s
  {
    if |s| == 0 then []
    else
      var rest := StripDisallowed(s[..|s| - 1]);
      if IsTitleChar(s[|s| - 1]) then
        assert s == s[..|s| - 1] + [s[|s| - 1]];
        rest + [s[|s| - 1]]
      else rest
  }

  /** Second rewrite: every space becomes a hyphen. */
  function HyphenateSpaces(s: string): (r: string)
    ensures |r| == |s|
    ensures forall i :: 0 <= i < |s| ==> r[i] == (if s[i] == ' ' then '-' else s[i])
  {
    if |s| == 0 then [] else HyphenateSpaces(s[..|s| - 1]) + [if s[|s| - 1] == ' ' then '-' else s[|s| - 1]]
  }

  /** Third rewrite: ASCII upper-case letters become lower-case. */
  function AsciiLower(s: string): (r: string)
    ensures |r| == |s|
    ensures forall i :: 0 <= i < |s| ==> r[i] == LowerChar(s[i])
  {
    if |s| == 0 then [] else AsciiLower(s[..|s| - 1]) + [LowerChar(s[|s| - 1])]
  }

  /** The project title turned into the piece of a URL that names it. */
  function TitleToUrlString(s: string): (r: string)
    ensures |r| <= |s|
    ensures forall i :: 0 <= i < |r| ==> IsSlugChar(r[i])
  {
    AsciiLower(HyphenateSpaces(StripDisallowed(s)))
  }

  /** The rewrite works character by character: a title's slug is the slugs of its
      parts, joined. */
  lemma TitleToUrlStringAppend(a: string, b: string)
    ensures TitleToUrlString(a + b) == TitleToUrlString(a) + TitleToUrlString(b)
  {
    StripDisallowedAppend(a, b);
    var sa, sb := StripDisallowed(a), StripDisallowed(b);
    HyphenateSpacesAppend(sa, sb);
    AsciiLowerAppend(HyphenateSpaces(sa), HyphenateSpaces(sb));
  }

  lemma HyphenateSpacesAppend(a: string, b: string)
    ensures HyphenateSpaces(a + b) == HyphenateSpaces(a) + HyphenateSpaces(b)
  {
    var l, r := HyphenateSpaces(a + b), HyphenateSpaces(a) + HyphenateSpaces(b);
    forall i | 0 <= i < |l| ensures l[i] == r[i] {
      if i >= |a| {
        assert (a + b)[i] == b[i - |a|];
      }
    }
  }

  lemma AsciiLowerAppend(a: string, b: string)
    ensures AsciiLower(a + b) == AsciiLower(a) + AsciiLower(b)
  {
    var l, r := AsciiLower(a + b), AsciiLower(a) + AsciiLower(b);
    forall i | 0 <= i < |l| ensures l[i] == r[i] {
      if i >= |a| {
        assert (a + b)[i] == b[i - |a|];
      }
    }
  }

  /** The first rewrite works character by character. */
  lemma {:induction false} StripDisallowedAppend(a: string, b: string)
    ensures StripDisallowed(a + b) == StripDisallowed(a) + StripDisallowed(b)
    decreases |b|
  {
    if |b| > 0 {
      var b' := b[..|b| - 1];
      assert (a + b)[..|a + b| - 1] == a + b';
      assert (a + b)[|a + b| - 1] == b[|b| - 1];
      StripDisallowedAppend(a, b');
    } else {
      assert a + b == a;
    }
  }

  /** The first rewrite keeps one character of `[a-zA-Z0-9 ]` and drops any other. */
  lemma StripDisallowedChar(c: char)
    ensures StripDisallowed([c]) == (if IsTitleChar(c) then [c] else [])
  {
    assert [c][..0] == [];
  }

  /** A single character keeps its slug form when it is in `[a-zA-Z0-9 ]` and
      disappears otherwise. */
  lemma TitleToUrlStringChar(c: char)
    ensures IsTitleChar(c) ==> TitleToUrlString([c]) == [SlugOf(c)]
    ensures !IsTitleChar(c) ==> TitleToUrlString([c]) == []
  {
    assert [c][..0] == [];
  }

  /** A title made only of `[a-zA-Z0-9 ]` keeps its length. */
  lemma PlainTitleKeepsLength(s: string)
    requires forall i :: 0 <= i < |s| ==> IsTitleChar(s[i])
    ensures |TitleToUrlString(s)| == |s|
    ensures forall i :: 0 <= i < |s| ==> TitleToUrlString(s)[i] == SlugOf(s[i])
  {
  }

  /** The rewrite is not idempotent: the hyphen it writes for a space is itself dropped
      by a second pass, so "a b" becomes "a-b" and then "ab". */
  lemma TitleToUrlStringNotIdempotent(x: char, z: char)
    requires 'a' <= x <= 'z' && 'a' <= z <= 'z'
    ensures TitleToUrlString([x, ' ', z]) == [x, '-', z]
    ensures TitleToUrlString([x, '-', z]) == [x, z]
  {
    SlugOfThree(x, ' ', z);
    SlugOfThree(x, '-', z);
    assert SlugOf(x) == x && SlugOf(z) == z && SlugOf(' ') == '-';
  }

  lemma SlugOfThree(x: char, y: char, z: char)
    ensures TitleToUrlString([x, y, z]) ==
      (if IsTitleChar(x) then [SlugOf(x)] else []) +
      (if IsTitleChar(y) then [SlugOf(y)] else []) +
      (if IsTitleChar(z) then [SlugOf(z)] else [])
  {
    TitleToUrlStringChar(x);
    TitleToUrlStringChar(y);
    TitleToUrlStringChar(z);
    assert [x, y, z] == [x] + [y] + [z];
    TitleToUrlStringAppend([x], [y]);
    TitleToUrlStringAppend([x] + [y], [z]);
  }

  /** The address of a project's page on the pledge server `name`. */
  function MakeServerPath(name: string, projectId: string): (r: string)
    ensures |r| == |"https://"| + |name| + |HttpPathPrefix| + |HttpProjectPath| + |projectId|
    ensures r[..8] == "https://" && r[8..8 + |name|] == name
    ensures r[8 + |name|..|r| - |projectId|] == HttpPathPrefix + HttpProjectPath
    ensures r[|r| - |projectId|..] == projectId
  {
    "https://" + name + HttpPathPrefix + HttpProjectPath + projectId
  }

  /** The parts of a URI the server-path check reads; each may be undefined, as the
      parser reports for relative and opaque URIs. */
  datatype ParsedUri = ParsedUri(scheme: Option<string>, host: Option<string>, path: Option<string>)

  /** The URI parser rejected the text. */
  datatype UriSyntaxError = UriSyntaxError

  /** Reading a component the parser left undefined. */
  datatype NullComponent = NullComponent

  /** The host of an `https` URL whose path is the project's page; `None` for anything
      else, including text the parser rejects. Reading an undefined scheme or path
      is a failure the code does not catch. */
  function ValidateServerPath(path: string, projectId: string, parse: string -> Result<ParsedUri, UriSyntaxError>)
    : (r: Result<Option<string>, NullComponent>)
    ensures |path| == 0 ==> r == Ok(None)
    ensures r.Ok? && r.value.Some? ==>
              |path| > 0 && parse(path).Ok? && parse(path).value.scheme == Some("https") &&
              parse(path).value.path == Some(HttpPathPrefix + HttpProjectPath + projectId) &&
              parse(path).value.host == r.value
    ensures r.Err? <==> (|path| > 0 && parse(path).Ok? &&
                         (parse(path).value.scheme.None? ||
                          (parse(path).value.scheme == Some("https") && parse(path).value.path.None?)))
  {
    if |path| == 0 then Ok(None)
    else match parse(path)
      case Err(_) => Ok(None)
      case Ok(uri) =>
        if uri.scheme.None? then Err(NullComponent)
        else if uri.scheme.value != "https" then Ok(None)
        else if uri.path.None? then Err(NullComponent)
        else if uri.path.value == HttpPathPrefix + HttpProjectPath + projectId then Ok(uri.host)
        else Ok(None)
  }

  /** A URL typed without its scheme parses as a relative URI; the check then reads
      the undefined scheme and fails instead of answering `None`. */
  lemma SchemelessPathFails(path: string, projectId: string, parse: string -> Result<ParsedUri, UriSyntaxError>)
    requires |path| > 0 && parse(path).Ok? && parse(path).value.scheme.None?
    ensures ValidateServerPath(path, projectId, parse).Err?
  {
  }

  /** `ValidateServerPath` with an undefined scheme or path read as a mismatch, which
      is what the nullable result and the caught syntax error promise. */
  function ValidateServerPathNullSafe(path: string, projectId: string, parse: string -> Result<ParsedUri, UriSyntaxError>)
    : (r: Option<string>)
    ensures r.Some? <==> |path| > 0 && parse(path).Ok? && parse(path).value.scheme == Some("https") &&
                          parse(path).value.path == Some(HttpPathPrefix + HttpProjectPath + projectId) &&
                          parse(path).value.host.Some?
    ensures r.Some? ==> Some(r.value) == parse(path).value.host
  {
    if |path| == 0 then None
    else match parse(path)
      case Err(_) => None
      case Ok(uri) =>
        if uri.scheme == Some("https") && uri.path == Some(HttpPathPrefix + HttpProjectPath + projectId)
        then uri.host
        else None
  }

  /** Wherever the code as written answers, the null-safe check gives the same answer. */
  lemma NullSafeAgreesWhenDefined(path: string, projectId: string, parse: string -> Result<ParsedUri, UriSyntaxError>)
    requires ValidateServerPath(path, projectId, parse).Ok?
    ensures ValidateServerPathNullSafe(path, projectId, parse) == ValidateServerPath(path, projectId, parse).value
  {
  }

  /** A path built by `MakeServerPath` is accepted for its own project and yields the
      server name, provided the parser splits it into its scheme, host and path. */
  lemma MadePathValidates(name: string, projectId: string, parse: string -> Result<ParsedUri, UriSyntaxError>)
    requires parse(MakeServerPath(name, projectId))
          == Ok(ParsedUri(Some("https"), Some(name), Some(HttpPathPrefix + HttpProjectPath + projectId)))
    ensures ValidateServerPath(MakeServerPath(name, projectId), projectId, parse) == Ok(Some(name))
    ensures ValidateServerPathNullSafe(MakeServerPath(name, projectId), projectId, parse) == Some(name)
  {
  }

  /** The same path is refused for any other project. */
  lemma MadePathRejectsOtherProject(name: string, projectId: string, other: string,
                                    parse: string -> Result<ParsedUri, UriSyntaxError>)
    requires parse(MakeServerPath(name, projectId))
          == Ok(ParsedUri(Some("https"), Some(name), Some(HttpPathPrefix + HttpProjectPath + projectId)))
    requires other != projectId
    ensures ValidateServerPath(MakeServerPath(name, projectId), other, parse) == Ok(None)
    ensures ValidateServerPathNullSafe(MakeServerPath(name, projectId), other, parse) == None
  {
    assert (HttpPathPrefix + HttpProjectPath + projectId)[|HttpPathPrefix + HttpProjectPath|..] == projectId;
    assert (HttpPathPrefix + HttpProjectPath + other)[|HttpPathPrefix + HttpProjectPath|..] == other;
  }
}
