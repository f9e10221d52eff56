/** The parts of Python's `str` that the message code relies on: whitespace
    stripping, splitting on a one-character separator and joining back,
    `splitlines`, `replace`, substring search, ASCII case mapping, decimal digits,
    and the defensive "field i or empty" access used throughout. */
module Text {
  import opened Wrappers

  /** Python's `str.isspace()` for one character. */
  predicate IsSpace(c: char) {
    || c == ' '
    || ('\t' <= c <= '\r')
    || ('\U{1c}' <= c <= '\U{1f}')
    || c == '\U{85}' || c == '\U{a0}' || c == '\U{1680}'
    || ('\U{2000}' <= c <= '\U{200a}')
    || c == '\U{2028}' || c == '\U{2029}' || c == '\U{202f}' || c == '\U{205f}' || c == '\U{3000}'
  }

  predicate IsBlank(s: string) {
    forall i :: 0 <= i < |s| ==> IsSpace(s[i])
  }

  /** `s.lstrip()` */
  function TrimStart(s: string): (r: string)
    ensures |r| <= |s| && r == s[|s| - |r|..]
    ensures r == [] || !IsSpace(r[0])
    ensures IsBlank(s[..|s| - |r|])
    decreases |s|
  {
    if |s| > 0 && IsSpace(s[0]) then
      var r := TrimStart(s[1..]);
      assert s[..|s| - |r|] == [s[0]] + s[1..][..|s| - 1 - |r|];
      r
    else s
  }

  /** `s.rstrip()` */
  function TrimEnd(s: string): (r: string)
    ensures |r| <= |s| && r == s[..|r|]
    ensures r == [] || !IsSpace(r[|r| - 1])
    ensures IsBlank(s[|r|..])
    decreases |s|
  {
    if |s| > 0 && IsSpace(s[|s| - 1]) then
      var r := TrimEnd(s[..|s| - 1]);
      assert s[|r|..] == s[..|s| - 1][|r|..] + [s[|s| - 1]];
      r
    else s
  }

  /** `s.strip()`: empty exactly for blank text, and otherwise neither end is whitespace. */
  function Strip(s: string): (r: string)
    ensures r == [] <==> IsBlank(s)
    ensures r != [] ==> !IsSpace(r[0]) && !IsSpace(r[|r| - 1])
    ensures |r| <= |s|
    decreases |s|
  {
    if |s| > 0 && IsSpace(s[0]) then
      var r := Strip(s[1..]);
      assert IsBlank(s) <==> IsBlank(s[1..]) by {
        if IsBlank(s[1..]) {
          forall i | 0 < i < |s| ensures IsSpace(s[i]) {
            assert s[i] == s[1..][i - 1];
          }
        }
      }
      r
    else
      var r := TrimEnd(s);
      assert r == [] ==> IsBlank(s) by {
        if r == [] { assert s[|r|..] == s; }
      }
      assert r != [] ==> r[0] == s[0];
      r
  }

  /** A text whose first character is not whitespace strips to one of its own prefixes. */
  lemma StripIsPrefix(s: string)
    requires |s| > 0 && !IsSpace(s[0])
    ensures Strip(s) <= s
  {
    assert Strip(s) == TrimEnd(s);
  }

  /** Stripping a text that starts with a non-space keeps it up to any later non-space. */
  lemma StripKeepsHead(s: string, n: nat)
    requires n < |s| && !IsSpace(s[0]) && !IsSpace(s[n])
    ensures |Strip(s)| > n && Strip(s)[..n + 1] == s[..n + 1]
  {
    var r := TrimEnd(s);
    assert Strip(s) == r;
    assert |r| > n;
  }

  /** `"".join(parts)` */
  function Concat(parts: seq<string>): string {
    if parts == [] then "" else parts[0] + Concat(parts[1..])
  }

  /** Text with no whitespace at either end is left alone by `strip()`. */
  lemma StripUnchanged(s: string)
    requires |s| > 0 && !IsSpace(s[0]) && !IsSpace(s[|s| - 1])
    ensures Strip(s) == s
  {
    assert TrimEnd(s) == s;
  }

  /** `s.split(d)` for a one-character separator `d`: never empty, and no piece holds `d`. */
  function Split(s: string, d: char): (r: seq<string>)
    ensures |r| >= 1
    ensures forall i :: 0 <= i < |r| ==> d !in r[i]
    decreases |s|
  {
    if s == [] then [""]
    else
      var rest := Split(s[1..], d);
      if s[0] == d then [""] + rest
      else [[s[0]] + rest[0]] + rest[1..]
  }

  /** The first piece of a split is a prefix of the text (`s.split(d, 1)[0]`). */
  lemma {:induction false} SplitHeadIsPrefix(s: string, d: char)
    ensures Split(s, d)[0] <= s
    ensures Split(s, d)[0] == s || s[|Split(s, d)[0]|] == d
    decreases |s|
  {
    if s != [] && s[0] != d {
      SplitHeadIsPrefix(s[1..], d);
      assert s == [s[0]] + s[1..];
    }
  }

  /** `d.join(parts)` */
  function Join(parts: seq<string>, d: char): string
  {
    if |parts| == 0 then ""
    else if |parts| == 1 then parts[0]
    else parts[0] + [d] + Join(parts[1..], d)
  }

  /** Joining the pieces of a split with the same separator gives the text back. */
  lemma {:induction false} JoinSplit(s: string, d: char)
    ensures Join(Split(s, d), d) == s
    decreases |s|
  {
    if s != [] {
      var rest := Split(s[1..], d);
      JoinSplit(s[1..], d);
      if s[0] == d {
        assert Join(Split(s, d), d) == "" + [d] + Join(rest, d);
      } else if |rest| == 1 {
        assert Join(Split(s, d), d) == [s[0]] + rest[0];
      } else {
        assert Join(rest, d) == rest[0] + [d] + Join(rest[1..], d);
        assert Join(Split(s, d), d) == ([s[0]] + rest[0]) + [d] + Join(rest[1..], d);
      }
    }
  }

  /** A text without the separator splits into itself alone. */
  lemma {:induction false} SplitWithout(x: string, d: char)
    requires d !in x
    ensures Split(x, d) == [x]
    decreases |x|
  {
    if x != [] {
      SplitWithout(x[1..], d);
      assert [x[0]] + x[1..] == x;
    }
  }

  /** Splitting at the first separator: the piece before it, then the split of the rest. */
  lemma {:induction false} SplitAtFirst(x: string, y: string, d: char)
    requires d !in x
    ensures Split(x + [d] + y, d) == [x] + Split(y, d)
    decreases |x|
  {
    var s := x + [d] + y;
    if x == [] {
      assert s[1..] == y;
    } else {
      assert s[1..] == x[1..] + [d] + y;
      SplitAtFirst(x[1..], y, d);
      assert [x[0]] + x[1..] == x;
    }
  }

  /** Splitting the join of pieces that do not hold the separator gives the pieces back. */
  lemma {:induction false} SplitJoin(parts: seq<string>, d: char)
    requires |parts| >= 1
    requires forall i :: 0 <= i < |parts| ==> d !in parts[i]
    ensures Split(Join(parts, d), d) == parts
    decreases |parts|
  {
    if |parts| == 1 {
      SplitWithout(parts[0], d);
    } else {
      SplitJoin(parts[1..], d);
      SplitAtFirst(parts[0], Join(parts[1..], d), d);
      assert [parts[0]] + parts[1..] == parts;
    }
  }

  /** A character absent from a text is absent from every piece of its split. */
  lemma {:induction false} SplitExcludes(s: string, d: char, c: char)
    requires c !in s
    ensures forall i :: 0 <= i < |Split(s, d)| ==> c !in Split(s, d)[i]
    decreases |s|
  {
    if s != [] {
      assert c !in s[1..];
      SplitExcludes(s[1..], d, c);
    }
  }

  /** A character absent from a text is absent from the stripped text. */
  lemma {:induction false} StripExcludes(s: string, c: char)
    requires c !in s
    ensures c !in Strip(s)
    decreases |s|
  {
    if |s| > 0 && IsSpace(s[0]) {
      assert c !in s[1..];
      StripExcludes(s[1..], c);
    } else {
      assert TrimEnd(s) == s[..|TrimEnd(s)|];
    }
  }

  /** Characters at which `str.splitlines()` ends a line. */
  predicate IsLineBreak(c: char) {
    c == '\n' || c == '\r' || c == '\U{0b}' || c == '\U{0c}'
    || c == '\U{1c}' || c == '\U{1d}' || c == '\U{1e}'
    || c == '\U{85}' || c == '\U{2028}' || c == '\U{2029}'
  }

  /** `s.splitlines()`: "\r\n" counts as one break, and a final break opens no empty line. */
  function SplitLines(s: string): (r: seq<string>)
    ensures s == [] <==> r == []
    decreases |s|
  {
    if s == [] then []
    else if IsLineBreak(s[0]) then
      var n := if s[0] == '\r' && |s| > 1 && s[1] == '\n' then 2 else 1;
      [""] + SplitLines(s[n..])
    else
      var rest := SplitLines(s[1..]);
      if rest == [] then [[s[0]]] else [[s[0]] + rest[0]] + rest[1..]
  }

  /** `s.replace("\r\n", "\n")` */
  function ReplaceCrLf(s: string): (r: string)
    decreases |s|
  {
    if s == [] then []
    else if |s| > 1 && s[0] == '\r' && s[1] == '\n' then "\n" + ReplaceCrLf(s[2..])
    else [s[0]] + ReplaceCrLf(s[1..])
  }

  /** `s.replace(a, b)` for single characters. */
  function ReplaceChar(s: string, a: char, b: char): (r: string)
    ensures |r| == |s|
    ensures a != b ==> a !in r
    decreases |s|
  {
    if s == [] then [] else [if s[0] == a then b else s[0]] + ReplaceChar(s[1..], a, b)
  }

  lemma {:induction false} ReplaceCharAbsent(s: string, a: char, b: char)
    requires a !in s
    ensures ReplaceChar(s, a, b) == s
    decreases |s|
  {
    if s != [] {
      ReplaceCharAbsent(s[1..], a, b);
      assert [s[0]] + s[1..] == s;
    }
  }

  /** `s.replace(c, "")` */
  function RemoveChar(s: string, c: char): (r: string)
    ensures c !in r
    decreases |s|
  {
    if s == [] then [] else (if s[0] == c then [] else [s[0]]) + RemoveChar(s[1..], c)
  }

  lemma {:induction false} RemoveCharAppend(a: string, b: string, c: char)
    ensures RemoveChar(a + b, c) == RemoveChar(a, c) + RemoveChar(b, c)
    decreases |a|
  {
    if a != [] {
      assert (a + b)[0] == a[0] && (a + b)[1..] == a[1..] + b;
      RemoveCharAppend(a[1..], b, c);
      var head: string := if a[0] == c then [] else [a[0]];
      assert RemoveChar(a + b, c) == head + RemoveChar(a[1..] + b, c);
      assert RemoveChar(a, c) == head + RemoveChar(a[1..], c);
    } else {
      assert a + b == b;
    }
  }

  lemma {:induction false} RemoveCharAbsent(a: string, c: char)
    requires c !in a
    ensures RemoveChar(a, c) == a
    decreases |a|
  {
    if a != [] {
      RemoveCharAbsent(a[1..], c);
      assert [a[0]] + a[1..] == a;
    }
  }

  /** Removing a character never brings in another. */
  lemma {:induction false} RemoveCharExcludes(a: string, c: char, x: char)
    requires x !in a
    ensures x !in RemoveChar(a, c)
    decreases |a|
  {
    if a != [] {
      RemoveCharExcludes(a[1..], c, x);
    }
  }

  /** `sub in s` */
  predicate Contains(s: string, sub: string)
    decreases |s|
  {
    sub <= s || (|s| > 0 && Contains(s[1..], sub))
  }

  function LowerChar(c: char): char {
    if 'A' <= c <= 'Z' then (c as int + 32) as char else c
  }

  function UpperChar(c: char): char {
    if 'a' <= c <= 'z' then (c as int - 32) as char else c
  }

  /** `s.lower()` on ASCII letters. */
  function Lower(s: string): (r: string)
    ensures |r| == |s|
  {
    seq(|s|, i requires 0 <= i < |s| => LowerChar(s[i]))
  }

  /** `s.upper()` on ASCII letters. */
  function Upper(s: string): (r: string)
    ensures |r| == |s|
  {
    seq(|s|, i requires 0 <= i < |s| => UpperChar(s[i]))
  }

  /** `parts[i] if len(parts) > i else ""`, the defensive access every extractor uses. */
  function Field(parts: seq<string>, i: nat): string {
    if i < |parts| then parts[i] else ""
  }

  /** Python's slice `s[a:b]` for `0 <= a <= b`, clamped to the length of `s`. */
  function Slice(s: string, a: nat, b: nat): (r: string)
    requires a <= b
    ensures |s| >= b ==> r == s[a..b]
  {
    var hi := if b <= |s| then b else |s|;
    var lo := if a <= hi then a else hi;
    s[lo..hi]
  }

  predicate IsDigit(c: char) {
    '0' <= c <= '9'
  }

  /** ASCII `str.isdigit()`, without the empty-string case. */
  predicate AllDigits(s: string) {
    forall i :: 0 <= i < |s| ==> IsDigit(s[i])
  }

  function DigitValue(c: char): nat
    requires IsDigit(c)
  {
    c as int - '0' as int
  }

  function DigitChar(n: nat): (c: char)
    requires n < 10
    ensures IsDigit(c) && DigitValue(c) == n
  {
    ('0' as int + n) as char
  }

  /** The number a string of decimal digits denotes (`int(s)`). */
  function DigitsValue(s: string): nat
    requires AllDigits(s)
    decreases |s|
  {
    if s == [] then 0 else DigitsValue(s[..|s| - 1]) * 10 + DigitValue(s[|s| - 1])
  }

  /** `"%0*d" % (width, n)`, keeping only the low `width` digits. */
  function Pad(n: nat, width: nat): (r: string)
    ensures |r| == width && AllDigits(r)
  {
    if width == 0 then "" else Pad(n / 10, width - 1) + [DigitChar(n % 10)]
  }

  /** `str(n)` for a natural number. */
  function NatStr(n: nat): (r: string)
    ensures |r| >= 1 && AllDigits(r)
  {
    if n < 10 then [DigitChar(n)] else NatStr(n / 10) + [DigitChar(n % 10)]
  }

  /** Reading back the decimal rendering of `n` gives `n`. */
  lemma {:induction false} NatStrValue(n: nat)
    ensures DigitsValue(NatStr(n)) == n
  {
    if n >= 10 {
      NatStrValue(n / 10);
      var s := NatStr(n);
      assert s[..|s| - 1] == NatStr(n / 10);
    }
  }

  /** Re-rendering a digit string at its own width reproduces it exactly, leading zeros included. */
  lemma {:induction false} PadValue(d: string)
    requires AllDigits(d)
    ensures Pad(DigitsValue(d), |d|) == d
    decreases |d|
  {
    if d != [] {
      var front := d[..|d| - 1];
      var v := DigitsValue(d);
      assert v / 10 == DigitsValue(front) && v % 10 == DigitValue(d[|d| - 1]);
      PadValue(front);
      assert DigitChar(DigitValue(d[|d| - 1])) == d[|d| - 1];
      assert front + [d[|d| - 1]] == d;
    }
  }

  /** `[l.strip() for l in lines if l.strip()]` */
  function StripNonBlank(lines: seq<string>): (r: seq<string>)
    ensures |r| <= |lines|
    ensures forall i :: 0 <= i < |r| ==> r[i] != ""
  {
    if lines == [] then []
    else
      var line := Strip(lines[|lines| - 1]);
      StripNonBlank(lines[..|lines| - 1]) + (if line == "" then [] else [line])
  }

  lemma StripNonBlankSnoc(lines: seq<string>, l: string)
    ensures StripNonBlank(lines + [l]) == StripNonBlank(lines) + (if Strip(l) == "" then [] else [Strip(l)])
  {
    assert (lines + [l])[..|lines|] == lines;
  }

  /** When no line is blank, every line is kept, stripped, in place. */
  lemma {:induction false} StripNonBlankAll(lines: seq<string>)
    requires forall i :: 0 <= i < |lines| ==> !IsBlank(lines[i])
    ensures |StripNonBlank(lines)| == |lines|
    ensures forall i :: 0 <= i < |lines| ==> StripNonBlank(lines)[i] == Strip(lines[i])
  {
    if lines != [] {
      var front := lines[..|lines| - 1];
      StripNonBlankAll(front);
      var last := lines[|lines| - 1];
      assert Strip(last) != "";
      assert StripNonBlank(lines) == StripNonBlank(front) + [Strip(last)];
      forall i | 0 <= i < |lines|
        ensures StripNonBlank(lines)[i] == Strip(lines[i])
      {
        if i < |front| {
          assert lines[i] == front[i];
        }
      }
    }
  }

  /** A character absent from every line is absent from every kept line. */
  lemma {:induction false} StripNonBlankExcludes(lines: seq<string>, c: char)
    requires forall i :: 0 <= i < |lines| ==> c !in lines[i]
    ensures forall i :: 0 <= i < |StripNonBlank(lines)| ==> c !in StripNonBlank(lines)[i]
  {
    if lines != [] {
      StripNonBlankExcludes(lines[..|lines| - 1], c);
      StripExcludes(lines[|lines| - 1], c);
    }
  }

  /** Index of the first line that starts with `p`, or `|lines|` when none does. */
  function FirstIndexWithPrefix(lines: seq<string>, p: string): (k: nat)
    ensures k <= |lines|
    ensures forall j :: 0 <= j < k ==> !(p <= lines[j])
    ensures k < |lines| ==> p <= lines[k]
    decreases |lines|
  {
    if lines == [] then 0
    else if p <= lines[0] then 0
    else 1 + FirstIndexWithPrefix(lines[1..], p)
  }

  /** `next((l for l in lines if l.startswith(p)), None)` */
  function FirstWithPrefix(lines: seq<string>, p: string): (r: Option<string>)
    ensures r.None? <==> forall j :: 0 <= j < |lines| ==> !(p <= lines[j])
    ensures r.Some? ==> p <= r.value
  {
    var k := FirstIndexWithPrefix(lines, p);
    if k < |lines| then Some(lines[k]) else None
  }

  /** The first line starting with `p` is the one at `k` when `k` is the first such index. */
  lemma FirstWithPrefixAt(lines: seq<string>, p: string, k: nat)
    requires k < |lines| && p <= lines[k]
    requires forall j :: 0 <= j < k ==> !(p <= lines[j])
    ensures FirstWithPrefix(lines, p) == Some(lines[k])
  {
    var f := FirstIndexWithPrefix(lines, p);
    assert f == k;
  }
}
