/** The few operations of Go's `strings` package that the modelled code uses. */
module Text {

  /** The first index whose character satisfies `p`, or the length when none does. */
  function FirstIndex(s: string, p: char -> bool): (i: nat)
    ensures i <= |s|
    ensures forall j :: 0 <= j < i ==> !p(s[j])
    ensures i < |s| ==> p(s[i])
  {
    if s == [] then 0 else if p(s[0]) then 0 else 1 + FirstIndex(s[1..], p)
  }

  function IndexOf(s: string, c: char): (i: nat)
    ensures i <= |s|
    ensures c !in s[..i]
    ensures i < |s| ==> s[i] == c
  {
    FirstIndex(s, x => x == c)
  }

  predicate HasPrefix(s: string, prefix: string) {
    prefix <= s
  }

  predicate HasSuffix(s: string, suffix: string) {
    |suffix| <= |s| && s[|s| - |suffix|..] == suffix
  }

  /** Removes `prefix` when it is there and leaves any other text alone. */
  function TrimPrefix(s: string, prefix: string): string {
    if HasPrefix(s, prefix) then s[|prefix|..] else s
  }

  function TrimSuffix(s: string, suffix: string): string {
    if HasSuffix(s, suffix) then s[..|s| - |suffix|] else s
  }

  /** Splits at every occurrence of `c`; the result is never empty. */
  function Split(s: string, c: char): (parts: seq<string>)
    ensures parts != []
    ensures forall k :: 0 <= k < |parts| ==> c !in parts[k]
    decreases |s|
  {
    var i := IndexOf(s, c);
    if i == |s| then [s] else [s[..i]] + Split(s[i + 1..], c)
  }

  predicate IsLetter(c: char) { 'A' <= c <= 'Z' || 'a' <= c <= 'z' }

  predicate IsDigit(c: char) { '0' <= c <= '9' }

  predicate IsAlnum(c: char) { IsLetter(c) || IsDigit(c) }

  // ---------- Trimming ----------

  /** Go's `unicode.IsSpace`. */
  predicate IsSpace(c: char) {
    || '\t' <= c <= '\r' || c == ' ' || c == '\U{85}' || c == '\U{A0}' || c == '\U{1680}'
    || '\U{2000}' <= c <= '\U{200A}' || c == '\U{2028}' || c == '\U{2029}' || c == '\U{202F}'
    || c == '\U{205F}' || c == '\U{3000}'
  }

  /** The code points with Unicode's property White_Space. */
  lemma SpacesListed(c: char)
    ensures var n := c as int;
            IsSpace(c) <==>
              || 9 <= n <= 13 || n == 32 || n == 133 || n == 160 || n == 5760 || 8192 <= n <= 8202 || n == 8232 || n == 8233
              || n == 8239 || n == 8287 || n == 12288
  {
  }

  function DropWhile(s: string, p: char -> bool): string {
    if s != "" && p(s[0]) then DropWhile(s[1..], p) else s
  }

  function DropWhileEnd(s: string, p: char -> bool): string {
    if s != "" && p(s[|s| - 1]) then DropWhileEnd(s[..|s| - 1], p) else s
  }

  function TrimSpace(s: string): string { DropWhileEnd(DropWhile(s, IsSpace), IsSpace) }

  predicate AllIn(s: string, p: char -> bool) { forall i :: 0 <= i < |s| ==> p(s[i]) }

  /** Trimming takes space off both ends, all of it, and nothing else. */
  lemma TrimSpaceExactly(s: string)
    ensures var t := TrimSpace(s);
            && (exists left, right :: s == left + t + right && AllIn(left, IsSpace) && AllIn(right, IsSpace))
            && (t != "" ==> !IsSpace(t[0]) && !IsSpace(t[|t| - 1]))
  {
    var front := DropWhile(s, IsSpace);
    var t := TrimSpace(s);
    DropWhileIsSuffix(s, IsSpace);
    DropWhileEndIsPrefix(front, IsSpace);
    var left, right := s[..|s| - |front|], front[|t|..];
    assert front == t + right && s == left + front;
    assert s == left + t + right;
  }

  lemma {:induction false} DropWhileIsSuffix(s: string, p: char -> bool)
    ensures var t := DropWhile(s, p); |t| <= |s| && t == s[|s| - |t|..] && (t != "" ==> !p(t[0]))
    ensures AllIn(s[..|s| - |DropWhile(s, p)|], p)
  {
    if s != "" && p(s[0]) {
      DropWhileIsSuffix(s[1..], p);
      var t := DropWhile(s[1..], p);
      assert s[..|s| - |t|] == [s[0]] + s[1..][..|s[1..]| - |t|];
    }
  }

  lemma {:induction false} DropWhileEndIsPrefix(s: string, p: char -> bool)
    ensures var t := DropWhileEnd(s, p); |t| <= |s| && t == s[..|t|] && (t != "" ==> !p(t[|t| - 1]))
    ensures AllIn(s[|DropWhileEnd(s, p)|..], p)
  {
    if s != "" && p(s[|s| - 1]) {
      DropWhileEndIsPrefix(s[..|s| - 1], p);
      var t := DropWhileEnd(s[..|s| - 1], p);
      assert s[|t|..] == s[..|s| - 1][|t|..] + [s[|s| - 1]];
    }
  }
}
