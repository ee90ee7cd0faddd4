/**
 * The JavaScript string built-ins that the chat core relies on: the `\d` and `\s` character
 * classes, `trim`, `includes`, `startsWith`/`endsWith`, global `replace` with an empty
 * replacement, `toLowerCase` (restricted to ASCII) and `Number.prototype.toString` on integers.
 * Strings are sequences of code points; every pattern and range used by the core lies in the
 * Basic Multilingual Plane, so this agrees with JavaScript's UTF-16 code units.
 */
module Text {

  /** `\d` in a regular expression without the `u` flag: the ASCII digits only. */
  predicate IsAsciiDigit(c: char) {
    '0' <= c <= '9'
  }

  /** `\s` in a regular expression, which is also the set `String.prototype.trim` removes:
      WhiteSpace (tab, vertical tab, form feed, the Zs space separators, U+FEFF) and
      LineTerminator (LF, CR, U+2028, U+2029). */
  predicate IsJsSpace(c: char) {
    || c == '\t' || c == '\n' || c == '\U{000B}' || c == '\U{000C}' || c == '\r'
    || c == ' ' || c == '\U{00A0}' || c == '\U{1680}' || '\U{2000}' <= c <= '\U{200A}'
    || c == '\U{2028}' || c == '\U{2029}' || c == '\U{202F}' || c == '\U{205F}'
    || c == '\U{3000}' || c == '\U{FEFF}'
  }

  predicate IsAsciiUpper(c: char) {
    'A' <= c <= 'Z'
  }

  function LowerChar(c: char): char {
    if IsAsciiUpper(c) then (c as int + 32) as char else c
  }

  /** `toLowerCase`, for the ASCII letters (other characters are left as they are). */
  function Lower(s: string): (r: string)
    ensures |r| == |s|
    ensures forall i :: 0 <= i < |s| ==> r[i] == LowerChar(s[i])
  {
    seq(|s|, i requires 0 <= i < |s| => LowerChar(s[i]))
  }

  lemma LowerKeepsCaselessText(s: string)
    requires forall c :: c in s ==> !IsAsciiUpper(c)
    ensures Lower(s) == s
  {
    assert forall i :: 0 <= i < |s| ==> s[i] in s;
  }

  /** `s.includes(sub)`: `sub` occurs in `s` at some position. */
  function Contains(s: string, sub: string): bool {
    sub <= s || (s != [] && Contains(s[1..], sub))
  }

  /** `sub` occurs in `s` starting at index `i`. */
  predicate OccursAt(s: string, sub: string, i: nat) {
    i + |sub| <= |s| && s[i..i + |sub|] == sub
  }

  /** The scan agrees with the definition of an occurrence: `sub` is some slice of `s`. */
  lemma {:induction false} ContainsIffOccurs(s: string, sub: string)
    ensures Contains(s, sub) <==> exists i: nat :: OccursAt(s, sub, i)
  {
    if sub <= s {
      assert OccursAt(s, sub, 0);
    } else if s != [] {
      ContainsIffOccurs(s[1..], sub);
      if exists j: nat :: OccursAt(s[1..], sub, j) {
        var j: nat :| OccursAt(s[1..], sub, j);
        assert s[1..][j..j + |sub|] == s[j + 1..j + 1 + |sub|];
        assert OccursAt(s, sub, j + 1);
      }
      if exists i: nat :: OccursAt(s, sub, i) {
        var i: nat :| OccursAt(s, sub, i);
        if i > 0 {
          assert s[1..][i - 1..i - 1 + |sub|] == s[i..i + |sub|];
          assert OccursAt(s[1..], sub, i - 1);
        }
      }
    } else {
      assert forall i: nat :: !OccursAt(s, sub, i);
    }
  }

  /** A text that lacks one of the characters of `sub` does not contain `sub`. */
  lemma {:induction false} NotContainsWhenCharAbsent(s: string, sub: string, k: nat)
    requires k < |sub| && sub[k] !in s
    ensures !Contains(s, sub)
  {
    if s != [] {
      assert k < |s| ==> s[k] in s;
      NotContainsWhenCharAbsent(s[1..], sub, k);
    }
  }

  /** The first index at or after `i` whose character is not white space (`|s|` if none). */
  function SkipSpaceForward(s: string, i: nat): (a: nat)
    requires i <= |s|
    ensures i <= a <= |s|
    ensures forall k :: i <= k < a ==> IsJsSpace(s[k])
    ensures a < |s| ==> !IsJsSpace(s[a])
    decreases |s| - i
  {
    if i == |s| || !IsJsSpace(s[i]) then i else SkipSpaceForward(s, i + 1)
  }

  /** One past the last character of `s[lo..hi]` that is not white space (`lo` if none). */
  function SkipSpaceBackward(s: string, lo: nat, hi: nat): (b: nat)
    requires lo <= hi <= |s|
    ensures lo <= b <= hi
    ensures forall k :: b <= k < hi ==> IsJsSpace(s[k])
    ensures b > lo ==> !IsJsSpace(s[b - 1])
  {
    if hi == lo || !IsJsSpace(s[hi - 1]) then hi else SkipSpaceBackward(s, lo, hi - 1)
  }

  /** `s[..a]` and `s[b..]` are all white space. */
  predicate SpacePadded(s: string, a: nat, b: nat) {
    a <= b <= |s| && (forall k :: 0 <= k < a ==> IsJsSpace(s[k])) && (forall k :: b <= k < |s| ==> IsJsSpace(s[k]))
  }

  /** `trim`: white space is removed from both ends, and only from the ends. */
  function Trim(s: string): (r: string)
    ensures r != [] ==> !IsJsSpace(r[0]) && !IsJsSpace(r[|r| - 1])
    ensures exists a: nat, b: nat :: SpacePadded(s, a, b) && r == s[a..b]
    ensures forall c :: c in r ==> c in s
  {
    var a := SkipSpaceForward(s, 0);
    var b := SkipSpaceBackward(s, a, |s|);
    assert SpacePadded(s, a, b);
    assert forall c :: c in s[a..b] ==> c in s;
    s[a..b]
  }

  lemma TrimKeepsUnpaddedText(s: string)
    requires s != [] ==> !IsJsSpace(s[0]) && !IsJsSpace(s[|s| - 1])
    ensures Trim(s) == s
  {
  }

  /** Length of the first alternative that occurs at the start of `s`, trying them in order
      as a regular-expression alternation does; 0 when none does. */
  function LeadingMatch(s: string, alts: seq<string>): (n: nat)
    ensures n <= |s|
    ensures n > 0 ==> s[..n] in alts
  {
    if alts == [] then 0
    else if alts[0] != [] && alts[0] <= s then
      assert s[..|alts[0]|] == alts[0];
      |alts[0]|
    else LeadingMatch(s, alts[1..])
  }

  /** `s.replace(/a1|a2|.../g, '')`: scanning left to right, an occurrence of an alternative
      is deleted and scanning resumes after it; every other character is kept. */
  function DeleteAll(s: string, alts: seq<string>): (r: string)
    ensures |r| <= |s|
    decreases |s|
  {
    if s == [] then []
    else
      var n := LeadingMatch(s, alts);
      if n > 0 then DeleteAll(s[n..], alts) else [s[0]] + DeleteAll(s[1..], alts)
  }

  /** Deleting never introduces a character. */
  lemma {:induction false} DeleteAllKeepsAbsentChar(s: string, alts: seq<string>, c: char)
    requires c !in s
    ensures c !in DeleteAll(s, alts)
    decreases |s|
  {
    if s != [] {
      var n := LeadingMatch(s, alts);
      if n > 0 {
        assert forall x :: x in s[n..] ==> x in s;
        DeleteAllKeepsAbsentChar(s[n..], alts, c);
      } else {
        assert forall x :: x in s[1..] ==> x in s;
        DeleteAllKeepsAbsentChar(s[1..], alts, c);
      }
    }
  }

  /** When every alternative starts with a character that `pre` lacks, no occurrence can
      start inside `pre`, which is kept as it is. */
  lemma {:induction false} DeleteAllKeepsPrefix(pre: string, rest: string, alts: seq<string>, c: char)
    requires forall a :: a in alts ==> a != [] && a[0] == c
    requires c !in pre
    ensures DeleteAll(pre + rest, alts) == pre + DeleteAll(rest, alts)
  {
    if pre != [] {
      var s := pre + rest;
      assert s[0] == pre[0];
      assert LeadingMatch(s, alts) == 0;
      assert DeleteAll(s, alts) == [s[0]] + DeleteAll(s[1..], alts);
      assert s[1..] == pre[1..] + rest;
      assert forall x :: x in pre[1..] ==> x in pre;
      DeleteAllKeepsPrefix(pre[1..], rest, alts, c);
      calc {
        DeleteAll(s, alts);
        [pre[0]] + DeleteAll(pre[1..] + rest, alts);
        [pre[0]] + (pre[1..] + DeleteAll(rest, alts));
        { assert pre == [pre[0]] + pre[1..]; }
        pre + DeleteAll(rest, alts);
      }
    } else {
      assert pre + rest == rest;
    }
  }

  /** A text that lacks a character every alternative contains is left as it is. */
  lemma {:induction false} DeleteAllKeepsTextWithoutChar(s: string, alts: seq<string>, c: char)
    requires forall a :: a in alts ==> c in a
    requires c !in s
    ensures DeleteAll(s, alts) == s
    decreases |s|
  {
    if s != [] {
      assert LeadingMatch(s, alts) == 0;
      assert forall x :: x in s[1..] ==> x in s;
      DeleteAllKeepsTextWithoutChar(s[1..], alts, c);
    }
  }

  /** A Markdown code fence. */
  const Fence: string := "```"

  /** A deletion result that starts with a backtick comes from a text that starts with one:
      either the backtick was kept or it opened a deleted fence. */
  lemma DeletedFenceHead(s: string)
    ensures DeleteAll(s, [Fence]) != [] && DeleteAll(s, [Fence])[0] == '`' ==> s != [] && s[0] == '`'
  {
  }

  /** One step of the scan that deletes fences. */
  lemma FenceScanStep(s: string)
    ensures s != [] && LeadingMatch(s, [Fence]) == 0 ==>
              DeleteAll(s, [Fence]) == [s[0]] + DeleteAll(s[1..], [Fence])
    ensures LeadingMatch(s, [Fence]) > 0 ==> |s| >= 3 && s[0] == '`' && s[1] == '`' && s[2] == '`'
    ensures |s| >= 3 && s[0] == '`' && s[1] == '`' && s[2] == '`' ==> LeadingMatch(s, [Fence]) == 3
  {
    if |s| >= 3 && s[0] == '`' && s[1] == '`' && s[2] == '`' {
      assert s[..3] == Fence;
    }
  }

  /** A character the scan keeps never starts a fence in the result. */
  lemma KeptCharStartsNoFence(s: string)
    requires s != [] && LeadingMatch(s, [Fence]) == 0
    ensures !(Fence <= [s[0]] + DeleteAll(s[1..], [Fence]))
  {
    var t := s[1..];
    FenceScanStep(s);
    FenceScanStep(t);
    DeletedFenceHead(t);
    if t != [] {
      DeletedFenceHead(t[1..]);
      assert t[1..] == s[2..];
      FenceScanStep(t[1..]);
    }
  }

  /** After `replace(/```/g, '')` no fence is left: a fence could only reappear from kept
      backticks, and a kept backtick is never followed by two more. */
  lemma {:induction false} NoFenceAfterDelete(s: string)
    ensures !Contains(DeleteAll(s, [Fence]), Fence)
    decreases |s|
  {
    if s != [] {
      var n := LeadingMatch(s, [Fence]);
      if n > 0 {
        NoFenceAfterDelete(s[n..]);
      } else {
        var rt := DeleteAll(s[1..], [Fence]);
        assert DeleteAll(s, [Fence]) == [s[0]] + rt;
        NoFenceAfterDelete(s[1..]);
        KeptCharStartsNoFence(s);
        assert !Contains([s[0]] + rt, Fence) by {
          assert ([s[0]] + rt)[1..] == rt;
        }
      }
    }
  }

  function DigitChar(d: nat): char
    requires d < 10
  {
    (48 + d) as char
  }

  /** `Number.prototype.toString()` on a non-negative integer: its decimal digits, most
      significant first, without leading zeros. */
  function NatToString(n: nat): (r: string)
    ensures r != []
    ensures forall c :: c in r ==> IsAsciiDigit(c)
    ensures n < 10 <==> |r| == 1
  {
    if n < 10 then [DigitChar(n)] else NatToString(n / 10) + [DigitChar(n % 10)]
  }

  /** Different numbers print differently. */
  lemma {:induction false} NatToStringInjective(a: nat, b: nat)
    requires NatToString(a) == NatToString(b)
    ensures a == b
  {
    if a >= 10 && b >= 10 {
      var ra, rb := NatToString(a), NatToString(b);
      assert ra[|ra| - 1] == DigitChar(a % 10) && rb[|rb| - 1] == DigitChar(b % 10);
      assert ra[..|ra| - 1] == NatToString(a / 10) && rb[..|rb| - 1] == NatToString(b / 10);
      NatToStringInjective(a / 10, b / 10);
    }
  }

  lemma NatToStringDiffers(a: nat, b: nat)
    requires a != b
    ensures NatToString(a) != NatToString(b)
  {
    if NatToString(a) == NatToString(b) {
      NatToStringInjective(a, b);
    }
  }

  /** `Number.prototype.toString()` on an integer. */
  function IntToString(n: int): (r: string)
    ensures r != []
    ensures n >= 0 ==> forall k :: 0 <= k < |r| ==> IsAsciiDigit(r[k])
    ensures n < 0 ==> r[0] == '-' && forall k :: 1 <= k < |r| ==> IsAsciiDigit(r[k])
  {
    if n < 0 then "-" + NatToString(-n) else NatToString(n)
  }

  /** `parts.join(sep)`. */
  function Join(parts: seq<string>, sep: string): string {
    if parts == [] then ""
    else if |parts| == 1 then parts[0]
    else parts[0] + sep + Join(parts[1..], sep)
  }

  lemma {:induction false} JoinKeepsAbsentChar(parts: seq<string>, sep: string, c: char)
    requires c !in sep
    requires forall i :: 0 <= i < |parts| ==> c !in parts[i]
    ensures c !in Join(parts, sep)
  {
    if |parts| > 1 {
      JoinKeepsAbsentChar(parts[1..], sep, c);
    }
  }

  lemma {:induction false} ContainsInSuffix(s: string, k: nat, sub: string)
    requires k <= |s| && Contains(s[k..], sub)
    ensures Contains(s, sub)
  {
    if k > 0 {
      assert s[1..][k - 1..] == s[k..];
      ContainsInSuffix(s[1..], k - 1, sub);
    }
  }

  lemma {:induction false} ContainsInPrefix(s: string, m: nat, sub: string)
    requires m <= |s| && Contains(s[..m], sub)
    ensures Contains(s, sub)
  {
    if !(sub <= s[..m]) {
      assert s[..m][1..] == s[1..][..m - 1];
      ContainsInPrefix(s[1..], m - 1, sub);
    }
  }

  /** What `trim` leaves is a slice of its input, so it contains nothing the input lacks. */
  lemma TrimKeepsAbsentText(s: string, sub: string)
    requires !Contains(s, sub)
    ensures !Contains(Trim(s), sub)
  {
    var a := SkipSpaceForward(s, 0);
    var b := SkipSpaceBackward(s, a, |s|);
    if Contains(Trim(s), sub) {
      assert s[a..][..b - a] == s[a..b];
      ContainsInPrefix(s[a..], b - a, sub);
      ContainsInSuffix(s, a, sub);
    }
  }
}
