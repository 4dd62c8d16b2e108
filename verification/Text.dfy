/** The few string operations of the source, on sequences of characters. */
module Text {
  import opened Wrappers

  /** The characters `str.isspace` accepts. */
  predicate IsSpace(ch: char) {
    || ch == ' ' || '\t' <= ch <= '\r' || '\U{1c}' <= ch <= '\U{1f}' || ch == '\U{85}' || ch == '\U{a0}'
    || ch == '\U{1680}' || '\U{2000}' <= ch <= '\U{200a}' || ch == '\U{2028}' || ch == '\U{2029}'
    || ch == '\U{202f}' || ch == '\U{205f}' || ch == '\U{3000}'
  }

  function StripLeft(s: string): string {
    if s != [] && IsSpace(s[0]) then StripLeft(s[1..]) else s
  }

  function StripRight(s: string): string {
    if s != [] && IsSpace(s[|s| - 1]) then StripRight(s[..|s| - 1]) else s
  }

  function Strip(s: string): string {
    StripRight(StripLeft(s))
  }

  predicate Blank(s: string) {
    forall k | 0 <= k < |s| :: IsSpace(s[k])
  }

  /** Stripping takes the white space off both ends and nothing else. */
  lemma {:induction false} StripMeans(s: string) returns (left: string, right: string)
    ensures s == left + Strip(s) + right && Blank(left) && Blank(right)
    ensures Strip(s) != "" ==> !IsSpace(Strip(s)[0]) && !IsSpace(Strip(s)[|Strip(s)| - 1])
  {
    left := StripLeftMeans(s);
    right := StripRightMeans(StripLeft(s));
  }

  lemma {:induction false} StripLeftMeans(s: string) returns (left: string)
    ensures s == left + StripLeft(s) && Blank(left)
    ensures StripLeft(s) != "" ==> !IsSpace(StripLeft(s)[0])
  {
    left := "";
    if s != "" && IsSpace(s[0]) {
      var rest := StripLeftMeans(s[1..]);
      left := [s[0]] + rest;
    }
  }

  lemma {:induction false} StripRightMeans(s: string) returns (right: string)
    ensures s == StripRight(s) + right && Blank(right)
    ensures StripRight(s) != "" ==> s[0] == StripRight(s)[0] && !IsSpace(StripRight(s)[|StripRight(s)| - 1])
  {
    right := "";
    if s != "" && IsSpace(s[|s| - 1]) {
      var rest := StripRightMeans(s[..|s| - 1]);
      right := rest + [s[|s| - 1]];
    }
  }

  // ----- searching ---------------------------------------------------------------------------

  predicate At(text: string, sub: string, i: int) {
    0 <= i <= i + |sub| <= |text| && text[i..i + |sub|] == sub
  }

  /** The first occurrence at or after `from`. */
  function Index(text: string, sub: string, from: nat): (r: Option<nat>)
    requires from <= |text|
    ensures r.Some? ==> from <= r.value && At(text, sub, r.value)
    ensures forall k | from <= k < (if r.Some? then r.value else |text| + 1) :: !At(text, sub, k)
    decreases |text| - from
  {
    if At(text, sub, from) then Some(from)
    else if from == |text| then None
    else Index(text, sub, from + 1)
  }

  /** Occurrences found left to right, none overlapping another. */
  function Occurrences(text: string, sub: string, from: nat): nat
    requires |sub| > 0 && from <= |text|
    decreases |text| - from
  {
    match Index(text, sub, from)
    case None => 0
    case Some(i) => 1 + Occurrences(text, sub, i + |sub|)
  }

  /** Counting without overlaps still sees two occurrences that do not overlap. */
  lemma ApartAreCounted(text: string, sub: string, from: nat, a: nat, b: nat)
    requires |sub| > 0 && from <= a && a + |sub| <= b && At(text, sub, a) && At(text, sub, b)
    ensures Occurrences(text, sub, from) >= 2
  {
    var first := Index(text, sub, from).value;
    assert first <= a;
    assert Index(text, sub, first + |sub|).Some?;
  }

  predicate Lacks(s: string, c: char) {
    forall k | 0 <= k < |s| :: s[k] != c
  }

  lemma OnlyHere(before: string, sub: string, after: string, j: nat, k: nat)
    requires j < |sub| && Lacks(before, sub[j]) && Lacks(after, sub[j])
    requires forall i | 0 <= i < |sub| && i != j :: sub[i] != sub[j]
    ensures At(before + sub + after, sub, k) <==> k == |before|
  {
    var text := before + sub + after;
    assert text[|before|..|before| + |sub|] == sub;
    if At(text, sub, k) {
      assert text[k + j] == text[k..k + |sub|][j];
    }
  }

  /** A text that holds one character only at one place holds a string with that character only there. */
  lemma OccursOnce(before: string, sub: string, after: string, j: nat)
    requires j < |sub| && Lacks(before, sub[j]) && Lacks(after, sub[j])
    requires forall k | 0 <= k < |sub| && k != j :: sub[k] != sub[j]
    ensures Occurrences(before + sub + after, sub, 0) == 1
    ensures Index(before + sub + after, sub, 0) == Some(|before|)
  {
    hide At, Lacks;
    var text := before + sub + after;
    forall k: nat ensures At(text, sub, k) <==> k == |before| {
      OnlyHere(before, sub, after, j, k);
    }
    FoundOnce(text, sub, |before|);
  }

  lemma FoundOnce(text: string, sub: string, a: nat)
    requires |sub| > 0 && a + |sub| <= |text| && forall k: nat :: At(text, sub, k) <==> k == a
    ensures Occurrences(text, sub, 0) == 1 && Index(text, sub, 0) == Some(a)
  {
    hide At;
    var first := Index(text, sub, 0);
    assert At(text, sub, a);
    assert first == Some(a);
    assert Index(text, sub, a + |sub|).None?;
  }

  /** The last occurrence that starts before `limit`. */
  function LastIndex(text: string, sub: string, limit: nat): (r: Option<nat>)
    requires limit <= |text| + 1
    ensures r.Some? ==> r.value < limit && At(text, sub, r.value)
    ensures forall k | (if r.Some? then r.value else -1) < k < limit :: !At(text, sub, k)
  {
    if limit == 0 then None
    else if At(text, sub, limit - 1) then Some(limit - 1)
    else LastIndex(text, sub, limit - 1)
  }

  /** What follows the last occurrence, as `rsplit` with one split gives it. */
  function AfterLast(text: string, sub: string): Option<string> {
    match LastIndex(text, sub, |text| + 1)
    case None => None
    case Some(i) => Some(text[i + |sub|..])
  }

  lemma AtSuffix(before: string, text: string, sub: string, i: nat)
    ensures At(before + text, sub, |before| + i) <==> At(text, sub, i)
  {
    if i + |sub| <= |text| {
      assert (before + text)[|before| + i..|before| + i + |sub|] == text[i..i + |sub|];
    }
  }

  /** Whatever is put in front of a text that holds an occurrence, what follows the last one stays the same. */
  lemma AfterLastIsLocal(before: string, text: string, sub: string, i: nat)
    requires At(text, sub, i)
    ensures AfterLast(before + text, sub) == AfterLast(text, sub)
    ensures AfterLast(text, sub).Some?
  {
    var here, whole := LastIndex(text, sub, |text| + 1), LastIndex(before + text, sub, |before + text| + 1);
    assert here.Some? && here.value >= i;
    AtSuffix(before, text, sub, here.value);
    assert whole.Some? && whole.value >= |before| + here.value;
    AtSuffix(before, text, sub, whole.value - |before|);
    assert whole.value == |before| + here.value;
    assert (before + text)[whole.value + |sub|..] == text[here.value + |sub|..];
  }

  /** The position of the first line break at or after `from`, or the end. */
  function LineEnd(text: string, from: nat): (i: nat)
    requires from <= |text|
    ensures from <= i <= |text| && (i < |text| ==> text[i] == '\n')
    ensures forall k | from <= k < i :: text[k] != '\n'
    decreases |text| - from
  {
    if from == |text| || text[from] == '\n' then from else LineEnd(text, from + 1)
  }

  predicate OneLine(s: string) {
    forall k | 0 <= k < |s| :: s[k] != '\n'
  }

  /** Of a line and a rest, both are determined. */
  lemma LineCancels(line: string, other: string, rest: string, more: string)
    requires OneLine(line) && OneLine(other) && line + ['\n'] + rest == other + ['\n'] + more
    ensures line == other && rest == more
  {
    var text, same := line + ['\n'] + rest, other + ['\n'] + more;
    assert text[|line|] == '\n' && same[|other|] == '\n';
    assert forall k | 0 <= k < |line| :: text[k] == line[k];
    assert forall k | 0 <= k < |other| :: same[k] == other[k];
    assert |other| >= |line| && |line| >= |other|;
    assert line == text[..|line|] && other == same[..|other|];
    assert rest == text[|line| + 1..] && more == same[|other| + 1..];
  }
}
