/**
 Repository URLs and short commit ids (internal/infra/github/repo.go), with the part of Go's
 `url.Parse` that decides the path of a URL.
 */
module RepoURL {
  import opened Wrappers
  import opened Text

  function ShortSHA(sha: string): (r: string)
    ensures r <= sha && |r| <= 8
    ensures |sha| < 8 ==> r == sha
    ensures |sha| >= 8 ==> |r| == 8
  {
    if |sha| < 8 then sha else sha[..8]
  }

  predicate IsControl(c: char) { c < ' ' || c == '\U{7f}' }

  predicate IsSchemeChar(c: char) { IsAlnum(c) || c == '+' || c == '-' || c == '.' }

  function HexValue(c: char): Option<nat> {
    if '0' <= c <= '9' then Some((c - '0') as nat)
    else if 'a' <= c <= 'f' then Some((c - 'a') as nat + 10)
    else if 'A' <= c <= 'F' then Some((c - 'A') as nat + 10)
    else None
  }

  /** Percent-decoding; a `%` that two hexadecimal digits do not follow is an error. */
  function Unescape(s: string): Option<string> {
    if s == [] then Some([])
    else if s[0] != '%' then
      match Unescape(s[1..])
      case None => None
      case Some(rest) => Some([s[0]] + rest)
    else if |s| < 3 || HexValue(s[1]).None? || HexValue(s[2]).None? then None
    else
      match Unescape(s[3..])
      case None => None
      case Some(rest) => Some([(HexValue(s[1]).value * 16 + HexValue(s[2]).value) as char] + rest)
  }

  /** The text after the scheme and its colon; `None` when the scheme is missing before a colon. */
  function AfterScheme(s: string): Option<(bool, string)> {
    var i := FirstIndex(s, c => !IsSchemeChar(c));
    if s == [] || (i > 0 && !IsLetter(s[0])) || i == |s| || s[i] != ':' then Some((false, s))
    else if i == 0 then None
    else Some((true, s[i + 1..]))
  }

  /** The undecoded path in what follows the scheme; the authority is skipped, not validated. */
  function RawPath(rest: string, hasScheme: bool): Option<string> {
    var path := rest[..IndexOf(rest, '?')];
    if !HasPrefix(path, "/") && hasScheme then Some("")
    else if !HasPrefix(path, "/") && ':' in path[..IndexOf(path, '/')] then None
    else if HasPrefix(path, "//") && (hasScheme || !HasPrefix(path, "///")) then
      Some(path[2..][IndexOf(path[2..], '/')..])
    else Some(path)
  }

  function PathBeforeFragment(s: string): Option<string> {
    if FirstIndex(s, IsControl) < |s| then None
    else if s == "*" then Some("*")
    else
      match AfterScheme(s)
      case None => None
      case Some((hasScheme, rest)) =>
        match RawPath(rest, hasScheme)
        case None => None
        case Some(path) => Unescape(path)
  }

  /** The path of a URL as `url.Parse` finds it. */
  function UrlPath(raw: string): Option<string> {
    var hash := IndexOf(raw, '#');
    if hash < |raw| && Unescape(raw[hash + 1..]).None? then None
    else PathBeforeFragment(raw[..hash])
  }

  function ParseRepoURL(url: string): Result<(string, string)> {
    match UrlPath(url)
    case None => Err("invalid URL")
    case Some(path) =>
      var parts := Split(TrimPrefix(path, "/"), '/');
      if |parts| < 2 then Err("invalid GitHub repository URL") else Ok((parts[0], parts[1]))
  }

  /** A name that `url.Parse` takes literally. Every name GitHub allows is one. */
  predicate PlainName(name: string) {
    forall i :: 0 <= i < |name| ==> name[i] !in "/#?%" && !IsControl(name[i])
  }

  predicate GitHubName(name: string) {
    name != [] && forall i :: 0 <= i < |name| ==> IsAlnum(name[i]) || name[i] in "-_."
  }

  lemma GitHubNamesArePlain(name: string)
    requires GitHubName(name)
    ensures PlainName(name)
  {
  }

  lemma {:induction false} UnescapePlain(s: string)
    requires '%' !in s
    ensures Unescape(s) == Some(s)
  {
    if s != [] {
      UnescapePlain(s[1..]);
      assert [s[0]] + s[1..] == s;
    }
  }

  lemma CutAt(a: string, c: char, b: string)
    requires c !in a
    ensures IndexOf(a + [c] + b, c) == |a|
    ensures (a + [c] + b)[..|a|] == a && (a + [c] + b)[|a| + 1..] == b
    ensures (a + [c] + b)[|a|..] == [c] + b
  {
    var s := a + [c] + b;
    assert s[|a|] == c;
    assert forall i :: 0 <= i < |a| ==> s[i] == a[i];
  }

  lemma NotFound(s: string, c: char)
    requires c !in s
    ensures IndexOf(s, c) == |s| && s[..|s|] == s
  {
  }

  lemma SplitPair(owner: string, repo: string)
    requires '/' !in owner && '/' !in repo
    ensures Split(owner + "/" + repo, '/') == [owner, repo]
  {
    CutAt(owner, '/', repo);
    NotFound(repo, '/');
    assert Split(repo, '/') == [repo];
  }

  predicate Literal(s: string) {
    '#' !in s && '?' !in s && '%' !in s && forall i :: 0 <= i < |s| ==> !IsControl(s[i])
  }

  lemma SchemeSplit(scheme: string, rest: string)
    requires scheme != [] && forall i :: 0 <= i < |scheme| ==> IsLetter(scheme[i])
    ensures AfterScheme(scheme + [':'] + rest) == Some((true, rest))
  {
    var url := scheme + [':'] + rest;
    assert forall i :: 0 <= i < |scheme| ==> url[i] == scheme[i];
    assert url[|scheme|] == ':' && url[|scheme| + 1..] == rest;
    assert FirstIndex(url, c => !IsSchemeChar(c)) == |scheme|;
  }

  lemma HostSplit(host: string, path: string)
    requires '/' !in host && '?' !in host && '?' !in path
    ensures RawPath("//" + host + ("/" + path), true) == Some("/" + path)
  {
    var rest := "//" + host + ("/" + path);
    NotFound(rest, '?');
    assert HasPrefix(rest, "/") && HasPrefix(rest, "//");
    assert rest[2..] == host + ['/'] + path;
    CutAt(host, '/', path);
  }

  /** A host name that `url.Parse` accepts as it is. */
  predicate HostName(host: string) {
    host != [] && forall i :: 0 <= i < |host| ==> IsAlnum(host[i]) || host[i] == '-' || host[i] == '.'
  }

  /** The path of a URL with a scheme, a host name and any path that starts with a slash. */
  lemma PathBehindHost(scheme: string, host: string, path: string)
    requires scheme != [] && forall i :: 0 <= i < |scheme| ==> IsLetter(scheme[i])
    requires HostName(host) && Literal(path)
    ensures UrlPath(scheme + [':'] + ("//" + host + ("/" + path))) == Some("/" + path)
  {
    hide AfterScheme, RawPath, Unescape;
    var rest := "//" + host + ("/" + path);
    var url := scheme + [':'] + rest;
    SchemeSplit(scheme, rest);
    HostIsLiteral(host);
    HostSplit(host, path);
    UnescapePlain("/" + path);
    LiteralConcat("//" + host, "/" + path);
    LiteralConcat(scheme + [':'], rest);
    NotFound(url, '#');
  }

  lemma HostIsLiteral(host: string)
    requires HostName(host)
    ensures Literal(host) && '/' !in host
  {
  }

  lemma LiteralConcat(a: string, b: string)
    requires Literal(a) && Literal(b)
    ensures Literal(a + b)
  {
  }

  lemma LiteralPath(owner: string, repo: string)
    requires PlainName(owner) && PlainName(repo)
    ensures Literal(owner + "/" + repo) && '/' !in owner && '/' !in repo
  {
  }

  /** The URL that `newBuildRunForPipeline` writes is read back as the same owner and repository. */
  lemma RepoURLRoundTrip(owner: string, repo: string)
    requires PlainName(owner) && PlainName(repo)
    ensures ParseRepoURL("https://github.com/" + owner + "/" + repo) == Ok((owner, repo))
  {
    hide UrlPath, Split, Literal, PlainName;
    var path := owner + "/" + repo;
    assert "https://github.com/" + owner + "/" + repo == "https" + [':'] + ("//" + "github.com" + ("/" + path));
    LiteralPath(owner, repo);
    PathBehindHost("https", "github.com", path);
    assert TrimPrefix("/" + path, "/") == path;
    SplitPair(owner, repo);
  }

  // ---------- Names that cannot be read back ----------

  predicate IsHex(c: char) { '0' <= c <= '9' || 'a' <= c <= 'f' || 'A' <= c <= 'F' }

  /** The sixteen digits, in either case. */
  const SMALL_DIGITS := "0123456789abcdef"

  const LARGE_DIGITS := "0123456789ABCDEF"

  lemma DigitsHaveValues(v: nat)
    requires v < 16
    ensures HexValue(SMALL_DIGITS[v]) == HexValue(LARGE_DIGITS[v]) == Some(v)
  {
  }

  /** An escape stands for the byte that its two digits name. */
  lemma EscapedByte(b: nat, high: char, low: char, rest: string)
    requires b < 256
    requires high == SMALL_DIGITS[b / 16] || high == LARGE_DIGITS[b / 16]
    requires low == SMALL_DIGITS[b % 16] || low == LARGE_DIGITS[b % 16]
    ensures Unescape(['%', high, low] + rest) ==
            (match Unescape(rest) case None => None case Some(text) => Some([b as char] + text))
  {
    DigitsHaveValues(b / 16);
    DigitsHaveValues(b % 16);
    assert (['%', high, low] + rest)[3..] == rest;
  }

  predicate BadAt(s: string, i: int) {
    0 <= i < |s| && s[i] == '%' && (i + 2 >= |s| || !IsHex(s[i + 1]) || !IsHex(s[i + 2]))
  }

  predicate SlashAt(s: string, i: int) {
    && 0 <= i < |s|
    && (s[i] == '/' || (s[i] == '%' && i + 2 < |s| && s[i + 1] == '2' && (s[i + 2] == 'F' || s[i + 2] == 'f')))
  }

  /** A `%` that two hexadecimal digits do not follow. */
  ghost predicate BadEscape(s: string) { exists i :: BadAt(s, i) }

  /** A slash, or one that is percent-encoded. */
  ghost predicate SlashIn(s: string) { exists i :: SlashAt(s, i) }

  /** What stands at a place does not depend on what stands in front of it. */
  lemma Shifted(s: string, n: nat)
    requires n <= |s|
    ensures BadEscape(s) <==> BadEscape(s[n..]) || exists i :: i < n && BadAt(s, i)
    ensures SlashIn(s) <==> SlashIn(s[n..]) || exists i :: i < n && SlashAt(s, i)
  {
    var t := s[n..];
    assert forall i :: i >= 0 ==> BadAt(t, i) == BadAt(s, n + i) && SlashAt(t, i) == SlashAt(s, n + i);
    if BadEscape(s) {
      var i :| BadAt(s, i);
      assert i >= n ==> BadAt(t, i - n);
    }
    if BadEscape(t) {
      var i :| BadAt(t, i);
      assert BadAt(s, n + i);
    }
    if SlashIn(s) {
      var i :| SlashAt(s, i);
      assert i >= n ==> SlashAt(t, i - n);
    }
    if SlashIn(t) {
      var i :| SlashAt(t, i);
      assert SlashAt(s, n + i);
    }
  }

  /** Exactly which texts decode, and which of the results contain a slash. */
  lemma {:induction false} UnescapeExactly(s: string)
    ensures Unescape(s).None? <==> BadEscape(s)
    ensures Unescape(s).Some? ==> ('/' in Unescape(s).value <==> SlashIn(s))
    decreases |s|
  {
    if s == [] {
    } else if s[0] != '%' {
      UnescapeExactly(s[1..]);
      Shifted(s, 1);
      assert SlashAt(s, 0) == (s[0] == '/');
    } else if |s| < 3 || HexValue(s[1]).None? || HexValue(s[2]).None? {
      assert BadAt(s, 0);
    } else {
      UnescapeExactly(s[3..]);
      Shifted(s, 3);
      assert SlashAt(s, 0) == (HexValue(s[1]).value * 16 + HexValue(s[2]).value == 47);
    }
  }

  lemma {:induction false} SplitCounts(s: string)
    ensures |Split(s, '/')| < 2 <==> '/' !in s
    decreases |s|
  {
    var i := IndexOf(s, '/');
    assert s == s[..i] + s[i..];
  }

  /** A character of ASCII that does not print, other than space. */
  ghost predicate HasControl(s: string) { exists i :: 0 <= i < |s| && (s[i] < ' ' || s[i] == '\U{7f}') }

  /** The part of a name in front of the fragment, and of that the part in front of the query. */
  function BeforeFragment(name: string): string { name[..IndexOf(name, '#')] }

  function BeforeQuery(name: string): string { BeforeFragment(name)[..IndexOf(BeforeFragment(name), '?')] }

  function Fragment(name: string): string { if IndexOf(name, '#') < |name| then name[IndexOf(name, '#') + 1..] else "" }

  /**
   A name `owner/repo` that cannot be read back from its URL: it has a control character, a bad escape,
   or its slash is lost behind a `#` or a `?`.
   */
  ghost predicate Unreadable(name: string) {
    || HasControl(BeforeFragment(name)) || BadEscape(Fragment(name)) || BadEscape(BeforeQuery(name))
    || !SlashIn(BeforeQuery(name))
  }

  const GITHUB := "https://github.com/"

  lemma IndexBehind(prefix: string, s: string, c: char)
    requires c !in prefix
    ensures IndexOf(prefix + s, c) == |prefix| + IndexOf(s, c)
  {
    var i := |prefix| + IndexOf(s, c);
    assert forall j :: 0 <= j < i ==> (prefix + s)[j] != c by {
      assert forall j :: 0 <= j < |prefix| ==> prefix[j] in prefix;
      assert forall j :: 0 <= j < IndexOf(s, c) ==> s[..IndexOf(s, c)][j] == s[j];
    }
    assert i < |prefix + s| ==> (prefix + s)[i] == c;
    FirstAt(prefix + s, c, i);
  }

  lemma FirstAt(s: string, c: char, i: nat)
    requires i <= |s| && (forall j :: 0 <= j < i ==> s[j] != c) && (i < |s| ==> s[i] == c)
    ensures IndexOf(s, c) == i
  {
  }

  const GITHUB_HOST := "//github.com/"

  /** What stands behind the scheme decides the undecoded path. */
  lemma GitHubRawPath(f: string)
    ensures RawPath(GITHUB_HOST + f, true) == Some("/" + f[..IndexOf(f, '?')])
  {
    var p := f[..IndexOf(f, '?')];
    IndexBehind(GITHUB_HOST, f, '?');
    var path := GITHUB_HOST + p;
    assert (GITHUB_HOST + f)[..|GITHUB_HOST| + |p|] == path;
    assert HasPrefix(path, "/") && HasPrefix(path, "//");
    assert path[2..] == "github.com" + ['/'] + p;
    CutAt("github.com", '/', p);
  }

  lemma ControlBehind(prefix: string, f: string)
    requires forall i :: 0 <= i < |prefix| ==> !IsControl(prefix[i])
    ensures FirstIndex(prefix + f, IsControl) < |prefix + f| <==> HasControl(f)
  {
    var s := prefix + f;
    if HasControl(f) {
      var i :| 0 <= i < |f| && IsControl(f[i]);
      assert s[|prefix| + i] == f[i];
    }
    var j := FirstIndex(s, IsControl);
    assert forall i :: 0 <= i < |prefix| ==> s[i] == prefix[i];
    if j < |s| {
      assert j >= |prefix|;
      assert s[j] == f[j - |prefix|];
    }
  }

  lemma GitHubPathBeforeFragment(f: string)
    ensures PathBeforeFragment(GITHUB + f) ==
            if HasControl(f) then None
            else (match Unescape(f[..IndexOf(f, '?')]) case None => None case Some(d) => Some("/" + d))
  {
    hide AfterScheme, RawPath, HasControl, Unescape;
    GitHubIsPlain();
    ControlBehind(GITHUB, f);
    assert GITHUB + f == "https" + [':'] + (GITHUB_HOST + f);
    SchemeSplit("https", GITHUB_HOST + f);
    GitHubRawPath(f);
    var p := f[..IndexOf(f, '?')];
    SlashFirst(p);
    assert (GITHUB + f)[0] == 'h';
  }

  lemma GitHubIsPlain()
    ensures forall i :: 0 <= i < |GITHUB| ==> !IsControl(GITHUB[i])
  {
  }

  lemma SlashFirst(p: string)
    ensures Unescape("/" + p) == (match Unescape(p) case None => None case Some(d) => Some("/" + d))
  {
    assert ("/" + p)[1..] == p;
  }

  lemma GitHubPath(name: string)
    ensures UrlPath(GITHUB + name) ==
            if HasControl(BeforeFragment(name)) || Unescape(Fragment(name)).None? then None
            else (match Unescape(BeforeQuery(name)) case None => None case Some(d) => Some("/" + d))
  {
    hide PathBeforeFragment, HasControl;
    IndexBehind(GITHUB, name, '#');
    var hash := IndexOf(name, '#');
    var url := GITHUB + name;
    assert url[..|GITHUB| + hash] == GITHUB + BeforeFragment(name);
    assert hash < |name| ==> url[|GITHUB| + hash + 1..] == Fragment(name);
    GitHubPathBeforeFragment(BeforeFragment(name));
  }

  /** Exactly which names the URL of a BuildRun cannot carry. */
  lemma UnreadableExactly(name: string)
    ensures ParseRepoURL(GITHUB + name).Err? <==> Unreadable(name)
  {
    hide Unescape, BadEscape, SlashIn, HasControl, UrlPath, Split;
    var p := BeforeQuery(name);
    UnescapeExactly(p);
    UnescapeExactly(Fragment(name));
    GitHubPath(name);
    if Unescape(p).Some? {
      SplitCounts(Unescape(p).value);
      assert TrimPrefix("/" + Unescape(p).value, "/") == Unescape(p).value;
    }
  }

  /** A `#` in the owner hides the slash, for one. */
  lemma UnreadableExample()
    ensures Unreadable("a#b" + "/" + "c")
  {
    var name := "a#b" + "/" + "c";
    assert name[1] == '#' && name[0] == 'a';
    FirstAt(name, '#', 1);
    assert BeforeFragment(name) == "a";
    NotFound("a", '?');
  }
}
