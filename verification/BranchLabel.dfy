/**
 The label that stands for a branch (internal/infra/k8s/application.go). SHA-1 is a parameter: any
 function from texts to the first four bytes of their digest.
 */
module BranchLabel {
  import opened Wrappers
  import opened Text

  type Byte = b: nat | b < 256

  datatype Digest = Digest(b0: Byte, b1: Byte, b2: Byte, b3: Byte)

  const MAX_LABEL_LEN := 63

  /** What is left of the label when "-" and eight hexadecimal digits follow. */
  const MAX_BASE_LEN := 54

  // ---------- The stages ----------

  predicate LabelChar(c: char) { IsAlnum(c) || c == '.' || c == '_' || c == '-' }

  predicate Foreign(c: char) { !LabelChar(c) }

  /** `[^A-Za-z0-9._-]+` becomes one "-". */
  function CollapseRuns(s: string): string
    decreases |s|
  {
    if s == "" then ""
    else if LabelChar(s[0]) then [s[0]] + CollapseRuns(s[1..])
    else "-" + CollapseRuns(s[1 + FirstIndex(s[1..], LabelChar)..])
  }

  predicate NotAlnum(c: char) { !IsAlnum(c) }

  /** `^[^A-Za-z0-9]+|[^A-Za-z0-9]+$` is removed. */
  function TrimEdges(s: string): string { DropWhileEnd(DropWhile(s, NotAlnum), NotAlnum) }

  const HEX_DIGITS := "0123456789abcdef"

  function HexDigit(d: nat): char
    requires d < 16
  {
    HEX_DIGITS[d]
  }

  function HexByte(b: Byte): string { [HexDigit(b / 16), HexDigit(b % 16)] }

  function Hex(d: Digest): string { HexByte(d.b0) + HexByte(d.b1) + HexByte(d.b2) + HexByte(d.b3) }

  /** The text in front of the digest. */
  function Base(raw: string): string {
    var trimmed := TrimEdges(CollapseRuns(raw));
    var named := if trimmed == "" then "branch" else trimmed;
    if |named| > MAX_BASE_LEN then TrimEdges(named[..MAX_BASE_LEN]) else named
  }

  function Normalize(sha1: string -> Digest, branch: string): string {
    Base(TrimSpace(branch)) + "-" + Hex(sha1(TrimSpace(branch)))
  }

  method NormalizeBranchForLabel(sha1: string -> Digest, branch: string) returns (name: string)
    ensures name == Normalize(sha1, branch) && ValidLabel(name)
  {
    var raw := TrimSpace(branch);
    var normalized := CollapseRuns(raw);
    normalized := TrimEdges(normalized);
    if normalized == "" {
      normalized := "branch";
    }
    var suffix := "-" + Hex(sha1(raw));
    var maxBaseLen := MAX_LABEL_LEN - |suffix|;
    if maxBaseLen < 1 { maxBaseLen := 1; }
    if |normalized| > maxBaseLen {
      normalized := normalized[..maxBaseLen];
      normalized := TrimEdges(normalized);
    }
    name := normalized + suffix;
    assert name == Normalize(sha1, branch);
    LabelIsValid(sha1, branch);
  }

  // ---------- Every label is valid ----------

  predicate AlnumEdges(s: string) { s != "" && IsAlnum(s[0]) && IsAlnum(s[|s| - 1]) }

  /** Kubernetes, "Labels and Selectors", section "Syntax and character set". */
  predicate ValidLabel(s: string) {
    && 1 <= |s| <= 63 && (forall c :: c in s ==> LetterOrDigit(c) || c == '-' || c == '_' || c == '.')
    && LetterOrDigit(s[0]) && LetterOrDigit(s[|s| - 1])
  }

  predicate LetterOrDigit(c: char) { 'A' <= c <= 'Z' || 'a' <= c <= 'z' || '0' <= c <= '9' }

  /** The characters that a label keeps are those that Kubernetes allows. */
  lemma LabelChars(c: char)
    ensures IsAlnum(c) <==> LetterOrDigit(c)
    ensures LabelChar(c) <==> LetterOrDigit(c) || c == '-' || c == '_' || c == '.'
  {
  }

  /** Trimming removes edges only, and what is left starts and ends with a letter or a digit. */
  lemma TrimEdgesTrims(s: string)
    ensures var t := TrimEdges(s);
            && |t| <= |s| && (t != "" ==> AlnumEdges(t))
            && (AllIn(s, LabelChar) ==> AllIn(t, LabelChar))
            && (t == "" ==> AllIn(s, NotAlnum))
  {
    var front := DropWhile(s, NotAlnum);
    DropWhileIsSuffix(s, NotAlnum);
    DropWhileEndIsPrefix(front, NotAlnum);
    assert s == s[..|s| - |front|] + front;
    var t := TrimEdges(s);
    if t == "" {
      assert front[0..] == front;
    }
  }

  lemma {:induction false} CollapsedChars(s: string)
    ensures AllIn(CollapseRuns(s), LabelChar) && |CollapseRuns(s)| <= |s|
    decreases |s|
  {
    if s == "" {
    } else if LabelChar(s[0]) {
      CollapsedChars(s[1..]);
    } else {
      CollapsedChars(s[1 + FirstIndex(s[1..], LabelChar)..]);
    }
  }

  lemma BaseIsValid(raw: string)
    ensures AlnumEdges(Base(raw)) && AllIn(Base(raw), LabelChar) && |Base(raw)| <= MAX_BASE_LEN
  {
    var collapsed := CollapseRuns(raw);
    CollapsedChars(raw);
    TrimEdgesTrims(collapsed);
    var trimmed := TrimEdges(collapsed);
    var named := if trimmed == "" then "branch" else trimmed;
    assert AlnumEdges(named) && AllIn(named, LabelChar);
    if |named| > MAX_BASE_LEN {
      TrimEdgesTrims(named[..MAX_BASE_LEN]);
      assert named[..MAX_BASE_LEN][0] == named[0];
    }
  }

  /** For every branch, of any length and in any alphabet, the label is valid. */
  lemma LabelIsValid(sha1: string -> Digest, branch: string)
    ensures ValidLabel(Normalize(sha1, branch))
  {
    hide TrimSpace, Base, Hex;
    BaseIsValid(TrimSpace(branch));
    HexIsAlnum(sha1(TrimSpace(branch)));
    SuffixedIsValid(Base(TrimSpace(branch)), Hex(sha1(TrimSpace(branch))));
  }

  lemma HexIsAlnum(d: Digest)
    ensures |Hex(d)| == 8 && AllIn(Hex(d), IsAlnum)
  {
    assert AllIn(HEX_DIGITS, IsAlnum);
  }

  lemma SuffixedIsValid(base: string, hex: string)
    requires AlnumEdges(base) && AllIn(base, LabelChar) && |base| <= MAX_BASE_LEN && |hex| == 8 && AllIn(hex, IsAlnum)
    ensures ValidLabel(base + "-" + hex)
  {
    var s := base + "-" + hex;
    forall c | c in s
      ensures LetterOrDigit(c) || c == '-' || c == '_' || c == '.'
    {
      LabelChars(c);
    }
    LabelChars(s[0]);
    LabelChars(s[|s| - 1]);
  }

  // ---------- The digits of the digest ----------

  /** The value of a hexadecimal digit in lower case. */
  function DigitValue(c: char): Option<nat> {
    if '0' <= c <= '9' then Some((c - '0') as nat) else if 'a' <= c <= 'f' then Some(10 + (c - 'a') as nat) else None
  }

  function NumberOf(s: string): Option<nat> {
    if s == "" then Some(0)
    else
      var front, last := NumberOf(s[..|s| - 1]), DigitValue(s[|s| - 1]);
      if front.Some? && last.Some? then Some(front.value * 16 + last.value) else None
  }

  /** The digits are those of the four bytes, read as one number, the first byte first. */
  lemma HexIsTheNumber(d: Digest)
    ensures |Hex(d)| == 8 && NumberOf(Hex(d)) == Some(((d.b0 * 256 + d.b1) * 256 + d.b2) * 256 + d.b3)
  {
    hide HexByte, NumberOf;
    var one, two := HexByte(d.b0), HexByte(d.b0) + HexByte(d.b1);
    assert NumberOf("") == Some(0) by { NoDigits(); }
    ByteAppended("", d.b0);
    assert "" + one == one;
    ByteAppended(one, d.b1);
    ByteAppended(two, d.b2);
    ByteAppended(two + HexByte(d.b2), d.b3);
    HexIsAlnum(d);
  }

  lemma NoDigits()
    ensures NumberOf("") == Some(0)
  {
  }

  lemma ByteAppended(s: string, b: Byte)
    requires NumberOf(s).Some?
    ensures NumberOf(s + HexByte(b)) == Some(NumberOf(s).value * 256 + b)
  {
    var high, low := HexDigit(b / 16), HexDigit(b % 16);
    DigitIsValue(b / 16);
    DigitIsValue(b % 16);
    assert (s + HexByte(b))[..|s| + 1] == s + [high] && (s + [high])[..|s|] == s;
  }

  lemma DigitIsValue(v: nat)
    requires v < 16
    ensures DigitValue(HexDigit(v)) == Some(v)
  {
  }

  // ---------- What a label tells about the branch ----------

  lemma HexIsInjective(d: Digest, e: Digest)
    requires Hex(d) == Hex(e)
    ensures d == e
  {
    HexByteIsInjective(d.b0, e.b0, Hex(d)[0..2]);
    HexByteIsInjective(d.b1, e.b1, Hex(d)[2..4]);
    HexByteIsInjective(d.b2, e.b2, Hex(d)[4..6]);
    HexByteIsInjective(d.b3, e.b3, Hex(d)[6..8]);
  }

  lemma HexByteIsInjective(a: Byte, b: Byte, text: string)
    requires HexByte(a) == text && HexByte(b) == text
    ensures a == b
  {
    HexDigitIsInjective(a / 16, b / 16);
    HexDigitIsInjective(a % 16, b % 16);
  }

  lemma HexDigitIsInjective(a: nat, b: nat)
    requires a < 16 && b < 16 && HexDigit(a) == HexDigit(b)
    ensures a == b
  {
  }

  /** Equal up to surrounding space. */
  predicate SameBranch(a: string, b: string) { TrimSpace(a) == TrimSpace(b) }

  /** Branches with the same label have the same digest. */
  lemma SameLabelSameDigest(sha1: string -> Digest, a: string, b: string)
    requires Normalize(sha1, a) == Normalize(sha1, b)
    ensures sha1(TrimSpace(a)) == sha1(TrimSpace(b))
  {
    var x, y := Normalize(sha1, a), Normalize(sha1, b);
    assert x[|x| - 8..] == Hex(sha1(TrimSpace(a)));
    assert y[|y| - 8..] == Hex(sha1(TrimSpace(b)));
    HexIsInjective(sha1(TrimSpace(a)), sha1(TrimSpace(b)));
  }

  /** The same branch has the same label, and without a collision only the same branch has it. */
  lemma SameLabelSameBranch(sha1: string -> Digest, a: string, b: string)
    requires sha1(TrimSpace(a)) == sha1(TrimSpace(b)) ==> SameBranch(a, b)
    ensures Normalize(sha1, a) == Normalize(sha1, b) <==> SameBranch(a, b)
  {
    if Normalize(sha1, a) == Normalize(sha1, b) { SameLabelSameDigest(sha1, a, b); }
  }

  /** When digests collide, different branches do share a label: "a/b" and "a-b", for one. */
  lemma CollidingBranches(sha1: string -> Digest, left: string, run: string, right: string)
    requires AllIn(left, LabelChar) && AlnumEdges(left) && AllIn(right, LabelChar) && AlnumEdges(right)
    requires run != "" && AllIn(run, Foreign) && sha1(left + run + right) == sha1(left + "-" + right)
    ensures !SameBranch(left + run + right, left + "-" + right)
    ensures Normalize(sha1, left + run + right) == Normalize(sha1, left + "-" + right)
  {
    hide TrimEdges, Hex;
    NothingToTrim(left + run + right);
    NothingToTrim(left + "-" + right);
    CollapseKeepsLabelChars(right);
    CollapseKeepsLabelChars(left + "-" + right);
    RunBecomesOneDash(left, run, right);
    assert (left + run + right)[|left|] == run[0] && (left + "-" + right)[|left|] == '-';
  }

  lemma NothingToTrim(s: string)
    requires AlnumEdges(s)
    ensures TrimSpace(s) == s
  {
  }

  lemma {:induction false} CollapseKeepsLabelChars(s: string)
    requires AllIn(s, LabelChar)
    ensures CollapseRuns(s) == s
  {
    if s != "" {
      assert AllIn(s[1..], LabelChar);
      CollapseKeepsLabelChars(s[1..]);
    }
  }

  /** A branch that already is a label, and short enough, is kept as it is. */
  lemma PlainBranchKeepsItsName(sha1: string -> Digest, branch: string)
    requires forall c :: c in branch ==> LetterOrDigit(c) || c == '-' || c == '_' || c == '.'
    requires 1 <= |branch| <= 54 && LetterOrDigit(branch[0]) && LetterOrDigit(branch[|branch| - 1])
    ensures Normalize(sha1, branch) == branch + "-" + Hex(sha1(branch))
  {
    forall i | 0 <= i < |branch|
      ensures LabelChar(branch[i])
    {
      LabelChars(branch[i]);
    }
    LabelChars(branch[0]);
    LabelChars(branch[|branch| - 1]);
    CollapseKeepsLabelChars(branch);
    assert TrimSpace(branch) == branch;
    assert TrimEdges(branch) == branch;
  }

  /** A longer one is cut at the last letter or digit among its first 54 characters. */
  lemma LongBranchIsCut(branch: string)
    requires AllIn(branch, LabelChar) && AlnumEdges(branch) && |branch| > 54
    ensures var b := Base(branch);
            && 1 <= |b| <= 54 && b == branch[..|b|]
            && IsAlnum(b[|b| - 1]) && AllIn(branch[|b|..54], NotAlnum)
  {
    CollapseKeepsLabelChars(branch);
    var front := branch[..54];
    assert TrimEdges(branch) == branch;
    assert front[0] == branch[0] && DropWhile(front, NotAlnum) == front;
    DropWhileEndIsPrefix(front, NotAlnum);
    var n := |DropWhileEnd(front, NotAlnum)|;
    assert front[n..] == branch[n..54] && front[..n] == branch[..n];
    assert front == front[..n] + front[n..];
  }

  /** A branch without any letter or digit is called "branch". */
  lemma NamelessBranch(sha1: string -> Digest, branch: string)
    requires forall c :: c in branch ==> !LetterOrDigit(c)
    ensures Normalize(sha1, branch) == "branch-" + Hex(sha1(TrimSpace(branch)))
  {
    hide TrimSpace;
    TrimSpaceExactly(branch);
    var raw := TrimSpace(branch);
    forall i | 0 <= i < |raw|
      ensures !IsAlnum(raw[i])
    {
      var left, right :| branch == left + raw + right && AllIn(left, IsSpace) && AllIn(right, IsSpace);
      assert branch[|left| + i] == raw[i];
      LabelChars(raw[i]);
    }
    CollapsedHasNoAlnum(raw);
    NothingLeft(CollapseRuns(raw));
    assert "branch" + "-" == "branch-";
  }

  lemma {:induction false} CollapsedHasNoAlnum(s: string)
    requires AllIn(s, NotAlnum)
    ensures AllIn(CollapseRuns(s), NotAlnum)
    decreases |s|
  {
    if s == "" {
    } else if LabelChar(s[0]) {
      CollapsedHasNoAlnum(s[1..]);
    } else {
      CollapsedHasNoAlnum(s[1 + FirstIndex(s[1..], LabelChar)..]);
    }
  }

  lemma {:induction false} NothingLeft(s: string)
    requires AllIn(s, NotAlnum)
    ensures TrimEdges(s) == ""
  {
    DropWhileIsSuffix(s, NotAlnum);
  }

  /** A run of other characters between two parts becomes one "-". */
  lemma {:induction false} RunBecomesOneDash(left: string, run: string, right: string)
    requires AllIn(left, LabelChar) && run != "" && AllIn(run, Foreign) && (right == "" || LabelChar(right[0]))
    ensures CollapseRuns(left + run + right) == left + "-" + CollapseRuns(right)
  {
    var s := left + run + right;
    if left == "" {
      assert s[1..] == run[1..] + right;
      var i := FirstIndex(s[1..], LabelChar);
      assert forall j :: 0 <= j < |run| - 1 ==> s[1..][j] == run[1 + j];
      assert right != "" ==> s[1..][|run| - 1] == right[0];
      assert s[1 + i..] == right;
    } else {
      assert s[1..] == left[1..] + run + right;
      RunBecomesOneDash(left[1..], run, right);
    }
  }
}
