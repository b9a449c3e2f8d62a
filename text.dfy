/**
  The string operations of Python that the agent relies on, restricted to
  ASCII: `str.lower`, the `in` substring test, `str.split()`, `sep.join`,
  `str.replace(c, "")`, slicing `s[:n]`, `int(s)` and `f"{n}"`.
 */
module Text {
  import opened Wrappers

  // ----- str.lower -----

  function LowerChar(c: char): char {
    if 'A' <= c <= 'Z' then (c as int + 32) as char else c
  }

  /** `s.lower()` for ASCII letters; every other character is kept. */
  function Lower(s: string): (r: string)
    ensures |r| == |s|
    ensures forall i :: 0 <= i < |s| ==>
      if 'A' <= s[i] <= 'Z' then r[i] as int == s[i] as int + 32 else r[i] == s[i]
    ensures forall i :: 0 <= i < |r| ==> !('A' <= r[i] <= 'Z')
  {
    seq(|s|, i requires 0 <= i < |s| => LowerChar(s[i]))
  }

  lemma LowerIdempotent(s: string)
    ensures Lower(Lower(s)) == Lower(s)
  {
  }

  // ----- the `in` operator on strings -----

  predicate SubstringAt(s: string, sub: string, i: int) {
    0 <= i && i + |sub| <= |s| && s[i..i + |sub|] == sub
  }

  /** `sub in s`: scans the start positions of `s` from the left. */
  predicate Contains(s: string, sub: string)
    decreases |s|
  {
    if sub <= s then true
    else if s == [] then false
    else Contains(s[1..], sub)
  }

  /** The scan finds `sub` exactly when it occurs at some position of `s`. */
  lemma {:induction false} ContainsIff(s: string, sub: string)
    ensures Contains(s, sub) <==> exists i :: SubstringAt(s, sub, i)
    decreases |s|
  {
    if sub <= s {
      assert SubstringAt(s, sub, 0);
    } else if s == [] {
      forall i | SubstringAt(s, sub, i) ensures false {
      }
    } else {
      ContainsIff(s[1..], sub);
      if Contains(s[1..], sub) {
        var j :| SubstringAt(s[1..], sub, j);
        forall k | 0 <= k < |sub| ensures s[j + 1 + k] == sub[k] {
          assert s[1..][j..j + |sub|][k] == sub[k];
        }
        assert s[j + 1..j + 1 + |sub|] == sub;
        assert SubstringAt(s, sub, j + 1);
      } else {
        forall i | SubstringAt(s, sub, i) ensures i > 0 && SubstringAt(s[1..], sub, i - 1) {
          assert s[i..i + |sub|] == sub;
          forall k | 0 <= k < |sub| ensures s[1..][i - 1 + k] == sub[k] {
            assert s[i..i + |sub|][k] == sub[k];
          }
          assert s[1..][i - 1..i - 1 + |sub|] == sub;
        }
      }
    }
  }

  /** Containment is transitive: a string holding `mid` holds everything `mid` holds. */
  lemma ContainsTrans(s: string, mid: string, sub: string)
    requires Contains(s, mid) && Contains(mid, sub)
    ensures Contains(s, sub)
  {
    ContainsIff(s, mid);
    ContainsIff(mid, sub);
    var i :| SubstringAt(s, mid, i);
    var j :| SubstringAt(mid, sub, j);
    forall k | 0 <= k < |sub| ensures s[i + j + k] == sub[k] {
      assert s[i..i + |mid|][j + k] == mid[j + k];
    }
    assert s[i + j..i + j + |sub|] == sub;
    assert SubstringAt(s, sub, i + j);
    ContainsIff(s, sub);
  }

  /** Every string contains itself when it stands at the end of a concatenation. */
  lemma ContainsSuffix(pre: string, sub: string)
    ensures Contains(pre + sub, sub)
  {
    assert (pre + sub)[|pre|..|pre| + |sub|] == sub;
    assert SubstringAt(pre + sub, sub, |pre|);
    ContainsIff(pre + sub, sub);
  }

  /** ... and when it stands at the start of one. */
  lemma ContainsPrefix(sub: string, post: string)
    ensures Contains(sub + post, sub)
  {
    assert (sub + post)[0..|sub|] == sub;
    assert SubstringAt(sub + post, sub, 0);
    ContainsIff(sub + post, sub);
  }

  /** A string contained in a part is contained in any concatenation around it. */
  lemma ContainsWithin(pre: string, mid: string, post: string, sub: string)
    requires Contains(mid, sub)
    ensures Contains(pre + mid + post, sub)
  {
    ContainsIff(mid, sub);
    var j :| SubstringAt(mid, sub, j);
    var s := pre + mid + post;
    assert s[|pre| + j..|pre| + j + |sub|] == mid[j..j + |sub|];
    assert SubstringAt(s, sub, |pre| + j);
    ContainsIff(s, sub);
  }

  /** `any(word in s for word in words)`. */
  predicate ContainsAny(s: string, words: seq<string>) {
    exists k :: 0 <= k < |words| && Contains(s, words[k])
  }

  // ----- str.split() with no separator -----

  /** ASCII whitespace as Python's `str.isspace` sees it: tab to carriage return, 0x1C-0x1F and space. */
  predicate IsSpace(c: char) {
    c == ' ' || (9 <= c as int <= 13) || (28 <= c as int <= 31)
  }

  function DropSpaces(s: string): (r: string)
    ensures |r| <= |s|
    ensures r == [] || !IsSpace(r[0])
    decreases |s|
  {
    if s != [] && IsSpace(s[0]) then DropSpaces(s[1..]) else s
  }

  function WordLength(s: string): (n: nat)
    ensures n <= |s|
    ensures forall k :: 0 <= k < n ==> !IsSpace(s[k])
    ensures s != [] && !IsSpace(s[0]) ==> n > 0
    decreases |s|
  {
    if s == [] || IsSpace(s[0]) then 0 else 1 + WordLength(s[1..])
  }

  /** `s.split()`: the maximal runs of non-space characters, left to right. */
  function Words(s: string): (ws: seq<string>)
    ensures forall k :: 0 <= k < |ws| ==> ws[k] != []
    ensures forall k, i :: 0 <= k < |ws| && 0 <= i < |ws[k]| ==> !IsSpace(ws[k][i])
    decreases |s|
  {
    var t := DropSpaces(s);
    if t == [] then []
    else
      var n := WordLength(t);
      [t[..n]] + Words(t[n..])
  }

  /** A non-empty text without whitespace splits into itself alone; whitespace around it is dropped. */
  lemma WordsOfOneWord(pre: string, w: string, post: string)
    requires w != [] && forall i :: 0 <= i < |w| ==> !IsSpace(w[i])
    requires forall i :: 0 <= i < |pre| ==> IsSpace(pre[i])
    requires forall i :: 0 <= i < |post| ==> IsSpace(post[i])
    ensures Words(pre + w + post) == [w]
  {
    WordsStep(pre, w, post);
    WordsOfSpaces(post);
    assert [w] + [] == [w];
  }

  /**
    Words are peeled off from the left: leading whitespace is dropped and the
    first maximal non-space run is the first word, the rest being split alike.
   */
  lemma WordsStep(pre: string, w: string, post: string)
    requires forall i :: 0 <= i < |pre| ==> IsSpace(pre[i])
    requires w != [] && forall i :: 0 <= i < |w| ==> !IsSpace(w[i])
    requires post == [] || IsSpace(post[0])
    ensures Words(pre + w + post) == [w] + Words(post)
  {
    var t := w + post;
    assert pre + w + post == pre + t;
    DropLeadingSpaces(pre, t);
    WordLengthStopsAtSpace(w, post);
    assert t[..|w|] == w && t[|w|..] == post;
    assert DropSpaces(pre + t) == t && t != [] && WordLength(t) == |w|;
  }

  /** A text of whitespace only has no words. */
  lemma {:induction false} WordsOfSpaces(s: string)
    requires forall i :: 0 <= i < |s| ==> IsSpace(s[i])
    ensures Words(s) == []
  {
    DropLeadingSpaces(s, []);
    assert s + [] == s;
  }

  lemma {:induction false} DropLeadingSpaces(pre: string, rest: string)
    requires forall i :: 0 <= i < |pre| ==> IsSpace(pre[i])
    requires rest == [] || !IsSpace(rest[0])
    ensures DropSpaces(pre + rest) == rest
    decreases |pre|
  {
    if pre != [] {
      assert (pre + rest)[1..] == pre[1..] + rest;
      DropLeadingSpaces(pre[1..], rest);
    }
  }

  lemma {:induction false} WordLengthStopsAtSpace(w: string, post: string)
    requires forall i :: 0 <= i < |w| ==> !IsSpace(w[i])
    requires post == [] || IsSpace(post[0])
    ensures WordLength(w + post) == |w|
    decreases |w|
  {
    if w != [] {
      assert (w + post)[1..] == w[1..] + post;
      WordLengthStopsAtSpace(w[1..], post);
    } else {
      assert w + post == post;
    }
  }

  // ----- sep.join(parts), replace, slicing -----

  /** `sep.join(parts)`. */
  function Join(sep: string, parts: seq<string>): string
    decreases |parts|
  {
    if |parts| == 0 then ""
    else if |parts| == 1 then parts[0]
    else Join(sep, parts[..|parts| - 1]) + sep + parts[|parts| - 1]
  }

  predicate EndsWith(s: string, suffix: string) {
    |suffix| <= |s| && s[|s| - |suffix|..] == suffix
  }

  /** The joined text ends with the last part. */
  lemma JoinEndsWithLast(sep: string, parts: seq<string>)
    requires |parts| > 0
    ensures EndsWith(Join(sep, parts), parts[|parts| - 1])
  {
  }

  /** The joined text starts with the first part. */
  lemma {:induction false} JoinStartsWithFirst(sep: string, parts: seq<string>)
    requires |parts| > 0
    ensures parts[0] <= Join(sep, parts)
    decreases |parts|
  {
    if |parts| > 1 {
      JoinStartsWithFirst(sep, parts[..|parts| - 1]);
    }
  }

  /** Every part occurs in the joined text. */
  lemma {:induction false} JoinContainsPart(sep: string, parts: seq<string>, k: nat)
    requires k < |parts|
    ensures Contains(Join(sep, parts), parts[k])
    decreases |parts|
  {
    var n := |parts|;
    if n == 1 {
      ContainsPrefix(parts[0], "");
      assert parts[0] + "" == parts[0];
    } else if k == n - 1 {
      ContainsSuffix(Join(sep, parts[..n - 1]) + sep, parts[k]);
    } else {
      JoinContainsPart(sep, parts[..n - 1], k);
      ContainsWithin("", Join(sep, parts[..n - 1]), sep + parts[n - 1], parts[k]);
      assert "" + Join(sep, parts[..n - 1]) + (sep + parts[n - 1]) == Join(sep, parts);
    }
  }

  /** `s.replace(c, "")` for a one-character `c`. */
  function RemoveChar(s: string, c: char): (r: string)
    ensures forall i :: 0 <= i < |r| ==> r[i] != c
    ensures |r| <= |s|
    decreases |s|
  {
    if s == [] then []
    else (if s[0] == c then [] else [s[0]]) + RemoveChar(s[1..], c)
  }

  /** `s[:n]`. */
  function Take<T>(s: seq<T>, n: nat): (r: seq<T>)
    ensures |r| <= n && r <= s
  {
    if |s| <= n then s else s[..n]
  }

  // ----- int(s) and f"{n}" -----

  predicate IsDigit(c: char) {
    '0' <= c <= '9'
  }

  predicate AllDigits(s: string) {
    forall i :: 0 <= i < |s| ==> IsDigit(s[i])
  }

  function DigitsValue(s: string): nat
    requires AllDigits(s)
    decreases |s|
  {
    if s == [] then 0
    else 10 * DigitsValue(s[..|s| - 1]) + (s[|s| - 1] as int - '0' as int)
  }

  /** `int(s)` for an optional sign followed by one or more ASCII digits; `None` is the ValueError. */
  function ParseInt(s: string): Option<int> {
    if s != [] && (s[0] == '-' || s[0] == '+') then
      var digits := s[1..];
      if digits != [] && AllDigits(digits) then
        var magnitude: int := DigitsValue(digits);
        Some(if s[0] == '-' then -magnitude else magnitude)
      else None
    else if s != [] && AllDigits(s) then Some(DigitsValue(s))
    else None
  }

  /** The decimal digits of `n`, most significant first. */
  function NatText(n: nat): (r: string)
    ensures r != [] && AllDigits(r)
    decreases n
  {
    if n < 10 then [('0' as int + n) as char]
    else NatText(n / 10) + [('0' as int + n % 10) as char]
  }

  /** `f"{n}"` / `str(n)` for an integer. */
  function IntText(n: int): (r: string)
    ensures r != []
  {
    if n < 0 then "-" + NatText(-n) else NatText(n)
  }

  lemma {:induction false} NatTextValue(n: nat)
    ensures DigitsValue(NatText(n)) == n
    decreases n
  {
    if n >= 10 {
      NatTextValue(n / 10);
      var t := NatText(n);
      assert t[..|t| - 1] == NatText(n / 10);
    }
  }

  /** Parsing the printed form of any integer gives it back. */
  lemma ParseIntText(n: int)
    ensures ParseInt(IntText(n)) == Some(n)
  {
    if n < 0 {
      NatTextValue(-n);
      assert IntText(n)[1..] == NatText(-n);
    } else {
      NatTextValue(n);
    }
  }
}
