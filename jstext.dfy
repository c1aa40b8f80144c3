/** The JavaScript string built-ins the handlers rely on: `trim`,
    `toLowerCase`, `includes` and `split(',')[1]`, plus an Option for
    JavaScript's `undefined`. */
module JsText {

  datatype Option<+T> = None | Some(value: T)

  /** The characters `String.prototype.trim` removes: ECMAScript WhiteSpace
      and LineTerminator code points. */
  predicate IsJsWhitespace(c: char) {
    || c == ' ' || c == '\t' || c == '\n' || c == '\r'
    || c == '\U{000B}' || c == '\U{000C}' || c == '\U{00A0}' || c == '\U{1680}'
    || ('\U{2000}' <= c <= '\U{200A}')
    || c == '\U{2028}' || c == '\U{2029}' || c == '\U{202F}' || c == '\U{205F}'
    || c == '\U{3000}' || c == '\U{FEFF}'
  }

  /** `!s.trim()` in JavaScript: the string is empty once trimmed. */
  predicate IsBlank(s: string) {
    forall i :: 0 <= i < |s| ==> IsJsWhitespace(s[i])
  }

  /** The index of the first non-whitespace character of `s` at or after
      `lo`, or `|s|` when there is none. */
  function SkipSpace(s: string, lo: nat): (k: nat)
    requires lo <= |s|
    ensures lo <= k <= |s|
    ensures forall i :: lo <= i < k ==> IsJsWhitespace(s[i])
    ensures k < |s| ==> !IsJsWhitespace(s[k])
    decreases |s| - lo
  {
    if lo < |s| && IsJsWhitespace(s[lo]) then SkipSpace(s, lo + 1) else lo
  }

  /** The index just after the last non-whitespace character of `s` in
      `[lo, hi)`, or `lo` when there is none. */
  function SkipSpaceBack(s: string, lo: nat, hi: nat): (k: nat)
    requires lo <= hi <= |s|
    ensures lo <= k <= hi
    ensures forall i :: k <= i < hi ==> IsJsWhitespace(s[i])
    ensures k > lo ==> !IsJsWhitespace(s[k - 1])
    decreases hi
  {
    if lo < hi && IsJsWhitespace(s[hi - 1]) then SkipSpaceBack(s, lo, hi - 1) else hi
  }

  /** `s.trim()`: the piece of `s` between its leading and its trailing
      whitespace, which starts and ends with a non-whitespace character and
      is empty exactly when `s` is blank. */
  function Trim(s: string): (r: string)
    ensures var lo := SkipSpace(s, 0);
      && lo + |r| <= |s| && r == s[lo..lo + |r|]
      && IsBlank(s[..lo]) && IsBlank(s[lo + |r|..])
    ensures r == [] || (!IsJsWhitespace(r[0]) && !IsJsWhitespace(r[|r| - 1]))
    ensures r == [] <==> IsBlank(s)
  {
    var lo := SkipSpace(s, 0);
    var hi := SkipSpaceBack(s, lo, |s|);
    assert lo < |s| ==> hi > lo;
    s[lo..hi]
  }

  /** A string that already starts and ends with non-whitespace is left as
      it is by `Trim`. */
  lemma TrimUntouched(s: string)
    requires s == [] || (!IsJsWhitespace(s[0]) && !IsJsWhitespace(s[|s| - 1]))
    ensures Trim(s) == s
  {
  }

  /** `c.toLowerCase()` for the ASCII letters; every other character is kept. */
  function LowerChar(c: char): (r: char)
    ensures 'A' <= c <= 'Z' ==> 'a' <= r <= 'z' && r as int == c as int + 32
    ensures !('A' <= c <= 'Z') ==> r == c
  {
    if 'A' <= c <= 'Z' then (c as int + 32) as char else c
  }

  /** `s.toLowerCase()`, character by character. */
  function ToLower(s: string): (r: string)
    ensures |r| == |s|
    ensures forall i :: 0 <= i < |s| ==> r[i] == LowerChar(s[i])
    ensures forall i :: 0 <= i < |r| ==> !('A' <= r[i] <= 'Z')
  {
    if s == [] then [] else [LowerChar(s[0])] + ToLower(s[1..])
  }

  /** Lower-casing twice is lower-casing once. */
  lemma {:induction false} ToLowerIdempotent(s: string)
    ensures ToLower(ToLower(s)) == ToLower(s)
  {
    var t := ToLower(s);
    assert forall i :: 0 <= i < |t| ==> LowerChar(t[i]) == t[i];
  }

  /** `sub` occurs in `s` starting at position `i`. */
  predicate OccursAt(s: string, sub: string, i: nat) {
    i + |sub| <= |s| && s[i..i + |sub|] == sub
  }

  /** `s.includes(sub)`. */
  predicate Contains(s: string, sub: string) {
    exists i: nat | i <= |s| :: OccursAt(s, sub, i)
  }

  /** A string lacking the character at index `j` of `sub` does not
      contain it. */
  lemma MissingCharNotContained(s: string, sub: string, j: nat)
    requires j < |sub| && forall i :: 0 <= i < |s| ==> s[i] != sub[j]
    ensures !Contains(s, sub)
  {
    forall k: nat | k <= |s| ensures !OccursAt(s, sub, k) {
      if k + |sub| <= |s| {
        assert s[k..k + |sub|][j] == s[k + j];
      }
    }
  }

  /** An occurrence in `[c] + t` starts at the front or lies inside `t`. */
  lemma ContainsCons(c: char, t: string, sub: string)
    ensures Contains([c] + t, sub) <==> OccursAt([c] + t, sub, 0) || Contains(t, sub)
  {
    var s := [c] + t;
    if Contains(s, sub) && !OccursAt(s, sub, 0) {
      var i: nat :| i <= |s| && OccursAt(s, sub, i);
      assert i > 0;
      assert s[i..i + |sub|] == t[i - 1..i - 1 + |sub|];
      assert OccursAt(t, sub, i - 1);
    }
    if Contains(t, sub) {
      var i: nat :| i <= |t| && OccursAt(t, sub, i);
      assert s[i + 1..i + 1 + |sub|] == t[i..i + |sub|];
      assert OccursAt(s, sub, i + 1);
    }
  }

  /** The position of the first `c` in `s`, or `|s|` when there is none
      (`indexOf` with "not found" read as the end of the string). */
  function FirstIndex(s: string, c: char): (r: nat)
    ensures r <= |s|
    ensures c !in s[..r]
    ensures r < |s| ==> s[r] == c
    ensures r == |s| <==> c !in s
  {
    if s == [] then 0
    else if s[0] == c then 0
    else
      var r := 1 + FirstIndex(s[1..], c);
      assert s[..r] == [s[0]] + s[1..][..r - 1];
      r
  }

  /** `s.split(',')[1]`: the field between the first and the second comma
      (or the end), `None` (JavaScript's `undefined`) when `s` has no comma. */
  function SecondField(s: string): (r: Option<string>)
    ensures r.None? <==> ',' !in s
    ensures r.Some? ==>
      var k := FirstIndex(s, ',');
      && ',' !in r.value
      && k + 1 + |r.value| <= |s|
      && s[k + 1..k + 1 + |r.value|] == r.value
      && (k + 1 + |r.value| == |s| || s[k + 1 + |r.value|] == ',')
  {
    var k := FirstIndex(s, ',');
    if k == |s| then None
    else
      var rest := s[k + 1..];
      var e := FirstIndex(rest, ',');
      assert rest[..e] == s[k + 1..k + 1 + e];
      Some(rest[..e])
  }

  /** For a data URL (one comma between the header and the payload) the
      second field is the whole payload. */
  lemma SecondFieldOfDataUrl(header: string, payload: string)
    requires ',' !in header && ',' !in payload
    ensures SecondField(header + "," + payload) == Some(payload)
  {
    var s := header + "," + payload;
    assert s[|header|] == ',';
    assert s[..|header|] == header;
    FirstIndexAt(s, |header|);
    assert s[|header| + 1..] == payload;
    assert FirstIndex(payload, ',') == |payload|;
    assert payload[..|payload|] == payload;
  }

  /** The first `c` is at `k` when `s[k]` is `c` and no `c` comes before it. */
  lemma {:induction false} FirstIndexAt(s: string, k: nat)
    requires k < |s| && s[k] == ',' && ',' !in s[..k]
    ensures FirstIndex(s, ',') == k
  {
    if k > 0 {
      assert s[0] == s[..k][0];
      assert s[1..][..k - 1] == s[..k][1..];
      FirstIndexAt(s[1..], k - 1);
    }
  }
}
