/** The JavaScript string built-ins the application relies on, over `string` (a sequence of
    characters): `trim`, `split` with a one-character separator, `parseInt` in radix 10,
    `includes`, `replace` of a one-character pattern, `substring(0, n)`, `toLowerCase` as far as
    comparisons with ASCII words need it, and the decimal rendering of a non-negative number. */
module Text {
  import opened Wrappers

  /** The characters `trim` removes and the regular-expression class `\s` matches: ECMAScript's
      WhiteSpace and LineTerminator productions. */
  predicate IsSpace(c: char) {
    || ('\t' <= c <= '\r')
    || c == ' ' || c == '\U{A0}' || c == '\U{1680}'
    || ('\U{2000}' <= c <= '\U{200A}')
    || c == '\U{2028}' || c == '\U{2029}' || c == '\U{202F}' || c == '\U{205F}' || c == '\U{3000}'
    || c == '\U{FEFF}'
  }

  predicate AllSpace(s: string) {
    forall i :: 0 <= i < |s| ==> IsSpace(s[i])
  }

  /** Neither the first nor the last character is white space. */
  predicate Trimmed(s: string) {
    s == [] || (!IsSpace(s[0]) && !IsSpace(s[|s| - 1]))
  }

  /** The regular-expression class `\w` without the `u` flag. */
  predicate IsWordChar(c: char) {
    ('a' <= c <= 'z') || ('A' <= c <= 'Z') || ('0' <= c <= '9') || c == '_'
  }

  predicate IsDigit(c: char) {
    '0' <= c <= '9'
  }

  predicate AllDigits(s: string) {
    forall i :: 0 <= i < |s| ==> IsDigit(s[i])
  }

  /** Leading white space removed: what is kept starts with a non-space character. */
  function TrimStart(s: string): (r: string)
    ensures |r| <= |s|
    ensures r == [] || (!IsSpace(r[0]) && r[0] == s[|s| - |r|])
  {
    if s != [] && IsSpace(s[0]) then TrimStart(s[1..]) else s
  }

  /** What `TrimStart` keeps is a suffix and what it drops is all white space. */
  lemma {:induction false} TrimStartSuffix(s: string)
    ensures TrimStart(s) == s[|s| - |TrimStart(s)|..]
    ensures AllSpace(s[..|s| - |TrimStart(s)|])
  {
    if s != [] && IsSpace(s[0]) {
      TrimStartSuffix(s[1..]);
      var r := TrimStart(s);
      assert s[1..][|s| - 1 - |r|..] == s[|s| - |r|..];
      assert forall i {:trigger s[i]} :: 1 <= i < |s| - |r| ==> s[i] == s[1..][i - 1];
    }
  }

  /** Trailing white space removed: what is kept ends with a non-space character and starts
      where the input starts. */
  function TrimEnd(s: string): (r: string)
    ensures |r| <= |s|
    ensures r == [] || !IsSpace(r[|r| - 1])
    ensures r == [] || r[0] == s[0]
    ensures r == [] ==> s == [] || IsSpace(s[0])
  {
    if s != [] && IsSpace(s[|s| - 1]) then TrimEnd(s[..|s| - 1]) else s
  }

  /** What `TrimEnd` keeps is a prefix and what it drops is all white space. */
  lemma {:induction false} TrimEndPrefix(s: string)
    ensures TrimEnd(s) == s[..|TrimEnd(s)|]
    ensures AllSpace(s[|TrimEnd(s)|..])
  {
    if s != [] && IsSpace(s[|s| - 1]) {
      TrimEndPrefix(s[..|s| - 1]);
      var r := TrimEnd(s);
      assert s[..|s| - 1][..|r|] == s[..|r|];
      assert forall i :: 0 <= i < |s| - 1 - |r| ==> s[|r|..][i] == s[..|s| - 1][|r|..][i];
    }
  }

  /** `String.prototype.trim`: no white space is left at either end. */
  function Trim(s: string): (r: string)
    ensures Trimmed(r) && |r| <= |s|
  {
    TrimEnd(TrimStart(s))
  }

  /** A string is its two slices at any point, put back together. */
  lemma SliceConcat(s: string, k: nat)
    requires k <= |s|
    ensures s == s[..k] + s[k..]
  {
  }

  /** What `Trim` drops is white space at the two ends and nothing else. */
  lemma TrimSlice(s: string) returns (pre: string, post: string)
    ensures s == pre + (Trim(s) + post) && AllSpace(pre) && AllSpace(post)
  {
    var t := TrimStart(s);
    var r := TrimEnd(t);
    TrimStartSuffix(s);
    TrimEndPrefix(t);
    pre, post := s[..|s| - |t|], t[|r|..];
    SliceConcat(t, |r|);
    SliceConcat(s, |s| - |t|);
  }

  lemma {:induction false} TrimStartPadded(pre: string, t: string)
    requires AllSpace(pre)
    requires t == [] || !IsSpace(t[0])
    ensures TrimStart(pre + t) == t
  {
    if pre != [] {
      assert (pre + t)[1..] == pre[1..] + t;
      TrimStartPadded(pre[1..], t);
    }
  }

  lemma {:induction false} TrimEndPadded(t: string, post: string)
    requires AllSpace(post)
    requires t == [] || !IsSpace(t[|t| - 1])
    ensures TrimEnd(t + post) == t
  {
    if post != [] {
      assert (t + post)[..|t + post| - 1] == t + post[..|post| - 1];
      TrimEndPadded(t, post[..|post| - 1]);
    } else {
      assert t + post == t;
    }
  }

  /** Trimming removes exactly the white-space padding around a trimmed string. */
  lemma TrimPadded(pre: string, t: string, post: string)
    requires AllSpace(pre) && AllSpace(post) && Trimmed(t)
    ensures Trim(pre + t + post) == t
  {
    if t == [] {
      assert pre + t + post == pre + post;
      assert AllSpace(pre + post);
      TrimStartPadded(pre + post, []);
      assert pre + post + [] == pre + post;
      TrimEndPadded([], []);
    } else {
      assert pre + t + post == pre + (t + post);
      TrimStartPadded(pre, t + post);
      TrimEndPadded(t, post);
    }
  }

  /** A trimmed string is its own trim. */
  lemma TrimTrimmed(s: string)
    requires Trimmed(s)
    ensures Trim(s) == s
  {
    assert [] + s == s;
    TrimStartPadded([], s);
    assert s + [] == s;
    TrimEndPadded(s, []);
  }

  /** Trimming twice is trimming once. */
  lemma TrimIdempotent(s: string)
    ensures Trim(Trim(s)) == Trim(s)
  {
    TrimTrimmed(Trim(s));
  }

  // ---------------------------------------------------------------- split / join

  /** The pieces of `s[start..]`, where the piece being read began at `start` and the scan for
      the separator has reached `i`. */
  function SplitFrom(s: string, sep: char, start: nat, i: nat): (parts: seq<string>)
    requires start <= i <= |s|
    ensures |parts| >= 1
    decreases |s| - i
  {
    if i == |s| then [s[start..]]
    else if s[i] == sep then [s[start..i]] + SplitFrom(s, sep, i + 1, i + 1)
    else SplitFrom(s, sep, start, i + 1)
  }

  /** `s.split(sep)` for a one-character separator: the pieces between separators, at least one. */
  function Split(s: string, sep: char): (parts: seq<string>)
    ensures |parts| >= 1
  {
    SplitFrom(s, sep, 0, 0)
  }

  /** The scan passes over characters that are not the separator. */
  lemma {:induction false} SplitFromSkip(s: string, sep: char, start: nat, i: nat, j: nat)
    requires start <= i <= j <= |s|
    requires forall k :: i <= k < j ==> s[k] != sep
    ensures SplitFrom(s, sep, start, i) == SplitFrom(s, sep, start, j)
    decreases j - i
  {
    if i < j {
      SplitFromSkip(s, sep, start, i + 1, j);
    }
  }

  /** Without a separator there is one piece, the string itself. */
  lemma SplitNoSep(s: string, sep: char)
    requires sep !in s
    ensures Split(s, sep) == [s]
  {
    SplitFromSkip(s, sep, 0, 0, |s|);
  }

  /** A text splits into a single piece exactly when it does not hold the separator. */
  lemma SplitSingle(s: string, sep: char)
    ensures |Split(s, sep)| == 1 <==> sep !in s
  {
    if sep in s {
      var k := FirstIndex(s, sep);
      assert s == s[..k] + [sep] + s[k + 1..];
      SplitAt(s[..k], sep, s[k + 1..]);
    } else {
      SplitNoSep(s, sep);
    }
  }

  /** The scan reads `pre + t` past `pre` as it reads `t`. */
  lemma {:induction false} SplitFromShift(pre: string, t: string, sep: char, start: nat, i: nat)
    requires start <= i <= |t|
    ensures SplitFrom(pre + t, sep, |pre| + start, |pre| + i) == SplitFrom(t, sep, start, i)
    decreases |t| - i
  {
    var x := pre + t;
    assert x[|pre| + start..] == t[start..];
    if i < |t| {
      assert x[|pre| + i] == t[i];
      assert x[|pre| + start..|pre| + i] == t[start..i];
      SplitFromShift(pre, t, sep, i + 1, i + 1);
      SplitFromShift(pre, t, sep, start, i + 1);
    }
  }

  /** A separator splits off exactly the piece before it. */
  lemma SplitAt(a: string, sep: char, b: string)
    requires sep !in a
    ensures Split(a + [sep] + b, sep) == [a] + Split(b, sep)
  {
    var x := a + [sep] + b;
    SplitFromSkip(x, sep, 0, 0, |a|);
    assert x[|a|] == sep && x[0..|a|] == a;
    assert x == (a + [sep]) + b;
    SplitFromShift(a + [sep], b, sep, 0, 0);
  }

  /** The pieces from `start` on contain no separator. */
  lemma {:induction false} SplitFromFree(s: string, sep: char, start: nat, i: nat)
    requires start <= i <= |s|
    requires forall k :: start <= k < i ==> s[k] != sep
    ensures forall n :: 0 <= n < |SplitFrom(s, sep, start, i)| ==> sep !in SplitFrom(s, sep, start, i)[n]
    decreases |s| - i
  {
    if i == |s| {
      assert forall k :: 0 <= k < |s[start..]| ==> s[start..][k] == s[start + k];
    } else if s[i] == sep {
      assert forall k :: 0 <= k < |s[start..i]| ==> s[start..i][k] == s[start + k];
      SplitFromFree(s, sep, i + 1, i + 1);
    } else {
      SplitFromFree(s, sep, start, i + 1);
    }
  }

  /** No piece of a split contains the separator. */
  lemma SplitPartsFree(s: string, sep: char)
    ensures forall n :: 0 <= n < |Split(s, sep)| ==> sep !in Split(s, sep)[n]
  {
    SplitFromFree(s, sep, 0, 0);
  }

  /** `parts.join(sep)`, the partner of `Split`: the first piece comes first and, when there
      are more, the separator right after it. */
  function Join(parts: seq<string>, sep: char): (r: string)
    requires |parts| >= 1
    ensures |r| >= |parts[0]| && r[..|parts[0]|] == parts[0]
    ensures |parts| > 1 ==> |r| > |parts[0]| && r[|parts[0]|] == sep
  {
    if |parts| == 1 then parts[0] else parts[0] + [sep] + Join(parts[1..], sep)
  }

  lemma {:induction false} JoinSplitFrom(s: string, sep: char, start: nat, i: nat)
    requires start <= i <= |s|
    ensures Join(SplitFrom(s, sep, start, i), sep) == s[start..]
    decreases |s| - i
  {
    if i < |s| {
      if s[i] == sep {
        JoinSplitFrom(s, sep, i + 1, i + 1);
        var rest := SplitFrom(s, sep, i + 1, i + 1);
        var parts := [s[start..i]] + rest;
        assert parts[0] == s[start..i] && parts[1..] == rest;
        assert s[start..] == s[start..i] + [sep] + s[i + 1..];
      } else {
        JoinSplitFrom(s, sep, start, i + 1);
      }
    }
  }

  /** Joining the pieces of a split gives back the string. */
  lemma JoinSplit(s: string, sep: char)
    ensures Join(Split(s, sep), sep) == s
  {
    JoinSplitFrom(s, sep, 0, 0);
    assert s[0..] == s;
  }

  /** Splitting the join of separator-free pieces gives back the pieces. */
  lemma {:induction false} SplitJoin(parts: seq<string>, sep: char)
    requires |parts| >= 1
    requires forall i :: 0 <= i < |parts| ==> sep !in parts[i]
    ensures Split(Join(parts, sep), sep) == parts
  {
    if |parts| == 1 {
      SplitNoSep(parts[0], sep);
    } else {
      SplitJoin(parts[1..], sep);
      SplitAt(parts[0], sep, Join(parts[1..], sep));
    }
  }

  // ---------------------------------------------------------------- parseInt

  function DigitValue(c: char): nat
    requires IsDigit(c)
  {
    (c as int) - ('0' as int)
  }

  function DigitChar(d: nat): (c: char)
    requires d < 10
    ensures IsDigit(c) && DigitValue(c) == d
  {
    ('0' as int + d) as char
  }

  /** The number a string of decimal digits denotes. */
  function DigitsValue(ds: string): nat
    requires AllDigits(ds)
  {
    if ds == [] then 0 else DigitsValue(ds[..|ds| - 1]) * 10 + DigitValue(ds[|ds| - 1])
  }

  /** The longest prefix of decimal digits. */
  function DigitPrefix(s: string): (ds: string)
    ensures AllDigits(ds) && |ds| <= |s|
    ensures ds == [] || ds[0] == s[0]
    ensures |ds| == |s| || !IsDigit(s[|ds|])
  {
    if s != [] && IsDigit(s[0]) then [s[0]] + DigitPrefix(s[1..]) else []
  }

  /** What `parseInt` reads its digits from: the text after leading white space and an optional
      sign. */
  function NumberBody(s: string): string {
    var t := TrimStart(s);
    if t != [] && (t[0] == '-' || t[0] == '+') then t[1..] else t
  }

  /** `parseInt(s)` in radix 10: skip leading white space, read an optional sign, then the longest
      run of decimal digits; no digits gives NaN, here `None`. */
  function ParseInt(s: string): (r: Option<int>)
    ensures r.None? <==> NumberBody(s) == [] || !IsDigit(NumberBody(s)[0])
    ensures r.Some? ==> var v := DigitsValue(DigitPrefix(NumberBody(s)));
                        TrimStart(s) != [] && r.value == (if TrimStart(s)[0] == '-' then 0 - v else v)
  {
    var t := TrimStart(s);
    var negative := t != [] && t[0] == '-';
    var ds := DigitPrefix(NumberBody(s));
    if ds == [] then None
    else if negative then Some(0 - DigitsValue(ds))
    else Some(DigitsValue(ds))
  }

  lemma {:induction false} DigitPrefixOf(ds: string, rest: string)
    requires AllDigits(ds)
    requires rest == [] || !IsDigit(rest[0])
    ensures DigitPrefix(ds + rest) == ds
  {
    if ds != [] {
      assert (ds + rest)[1..] == ds[1..] + rest;
      DigitPrefixOf(ds[1..], rest);
    } else {
      assert ds + rest == rest;
    }
  }

  /** A run of digits followed by a non-digit parses to the value of the run, leading zeros
      included. */
  lemma ParseIntDigits(ds: string, rest: string)
    requires ds != [] && AllDigits(ds)
    requires rest == [] || !IsDigit(rest[0])
    ensures ParseInt(ds + rest) == Some(DigitsValue(ds))
  {
    assert !IsSpace((ds + rest)[0]);
    assert TrimStart(ds + rest) == ds + rest;
    DigitPrefixOf(ds, rest);
  }

  /** `parseInt` is NaN exactly when no digit follows the leading white space and the optional
      sign, whatever comes later, as in "x5" or "-a1". */
  lemma ParseIntNoDigits(s: string)
    requires NumberBody(s) == [] || !IsDigit(NumberBody(s)[0])
    ensures ParseInt(s) == None
  {
  }

  /** A string with no decimal digit at all has none after its blanks and sign. */
  lemma NoDigitsNoBody(s: string)
    requires forall i :: 0 <= i < |s| ==> !IsDigit(s[i])
    ensures NumberBody(s) == [] || !IsDigit(NumberBody(s)[0])
  {
    TrimStartSuffix(s);
    var body := NumberBody(s);
    assert body == s[|s| - |body|..];
  }

  // ---------------------------------------------------------------- number to string

  /** The decimal rendering of a non-negative integer, as a template literal prints it. */
  function NatToString(n: nat): (s: string)
    ensures s != [] && AllDigits(s)
  {
    if n < 10 then [DigitChar(n)] else NatToString(n / 10) + [DigitChar(n % 10)]
  }

  /** `NatToString` is undone by reading the digits back. */
  lemma {:induction false} NatToStringValue(n: nat)
    ensures DigitsValue(NatToString(n)) == n
  {
    var s := NatToString(n);
    if n < 10 {
      assert s[..|s| - 1] == [];
    } else {
      NatToStringValue(n / 10);
      assert s[..|s| - 1] == NatToString(n / 10);
    }
  }

  /** `parseInt` reads back what `NatToString` renders. */
  lemma ParseIntNatToString(n: nat, rest: string)
    requires rest == [] || !IsDigit(rest[0])
    ensures ParseInt(NatToString(n) + rest) == Some(n)
  {
    ParseIntDigits(NatToString(n), rest);
    NatToStringValue(n);
  }

  // ---------------------------------------------------------------- small helpers

  /** `s.includes(sub)`. */
  predicate Contains(s: string, sub: string) {
    exists i | 0 <= i <= |s| - |sub| :: OccursAt(s, sub, i)
  }

  predicate OccursAt(s: string, sub: string, i: int) {
    0 <= i <= |s| - |sub| && s[i..i + |sub|] == sub
  }

  /** `s.substring(0, n)`: the first `n` characters, or all of them when there are fewer. */
  function Prefix(s: string, n: nat): (r: string)
    ensures |r| == if |s| < n then |s| else n
    ensures r == s[..|r|]
  {
    if |s| <= n then s else s[..n]
  }

  /** An upper-case ASCII letter lowered; every other character unchanged. */
  function LowerAscii(c: char): char {
    if 'A' <= c <= 'Z' then (c as int + 32) as char else c
  }

  /** `toLowerCase` restricted to ASCII. Compared with "am" or "pm" this agrees with the full
      `toLowerCase`: no character outside A-Z lower-cases to `a`, `m` or `p`. */
  function ToLowerAscii(s: string): (r: string)
    ensures |r| == |s|
    ensures forall i :: 0 <= i < |s| ==> r[i] == LowerAscii(s[i])
  {
    if s == [] then [] else [LowerAscii(s[0])] + ToLowerAscii(s[1..])
  }

  /** `s.toLowerCase() === word`, character by character. */
  predicate LowerIs(s: string, word: string) {
    |s| == |word| && forall i :: 0 <= i < |s| ==> LowerAscii(s[i]) == word[i]
  }

  lemma LowerIsLowered(s: string, word: string)
    ensures LowerIs(s, word) <==> ToLowerAscii(s) == word
  {
    if LowerIs(s, word) {
      assert ToLowerAscii(s) == word;
    }
  }

  /** The position of the first `c` in `s`. */
  function FirstIndex(s: string, c: char): (k: nat)
    requires c in s
    ensures k < |s| && s[k] == c
    ensures forall j :: 0 <= j < k ==> s[j] != c
  {
    if s[0] == c then 0 else 1 + FirstIndex(s[1..], c)
  }

  /** `s.replace(from, to)` with one-character strings: only the first occurrence, if any, is
      replaced. */
  function ReplaceFirst(s: string, from: char, to: char): (r: string)
    ensures |r| == |s|
    ensures forall i :: 0 <= i < |s| ==>
              r[i] == if from in s && i == FirstIndex(s, from) then to else s[i]
  {
    if s == [] then []
    else if s[0] == from then [to] + s[1..]
    else
      assert from in s <==> from in s[1..] by {
        assert s == [s[0]] + s[1..];
      }
      [s[0]] + ReplaceFirst(s[1..], from, to)
  }
}
