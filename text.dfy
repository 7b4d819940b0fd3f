/**
 * Character and string operations with the meaning that the Python str
 * methods used by the recorder parser give them: slicing with clamped
 * bounds, `in` on strings, strip/lstrip/rstrip, split() on whitespace,
 * split(sep), replace(c, ""), int() and str() on integers, and the
 * "{:0>Nd}" zero-padding format.
 */
module Text {
  import opened Wrappers

  /** Whitespace as str.split() and str.strip() see it (its ASCII part). */
  predicate IsSpace(c: char) {
    c == ' ' || c == '\t' || c == '\n' || c == '\r' || c == '\U{0B}' || c == '\U{0C}'
    || ('\U{1C}' <= c <= '\U{1F}')
  }

  predicate NoSpace(s: string) {
    forall i | 0 <= i < |s| :: !IsSpace(s[i])
  }

  predicate IsDigit(c: char) {
    '0' <= c <= '9'
  }

  predicate AllDigits(s: string) {
    forall i | 0 <= i < |s| :: IsDigit(s[i])
  }

  function DigitValue(c: char): (d: nat)
    requires IsDigit(c)
    ensures d < 10
  {
    c as int - '0' as int
  }

  function DigitChar(d: nat): (c: char)
    requires d < 10
    ensures IsDigit(c) && DigitValue(c) == d
  {
    ('0' as int + d) as char
  }

  /** Python's `s[lo:hi]` for 0 <= lo <= hi: bounds past the end are clamped. */
  function Slice(s: string, lo: nat, hi: nat): (r: string)
    requires lo <= hi
    ensures |r| == (if hi <= |s| then hi - lo else if lo <= |s| then |s| - lo else 0)
    ensures forall i | 0 <= i < |r| :: r[i] == s[lo + i]
  {
    if hi <= |s| then s[lo..hi] else if lo <= |s| then s[lo..] else ""
  }

  predicate StartsWith(s: string, p: string) {
    |p| <= |s| && s[..|p|] == p
  }

  /** Python's `sub in s`. */
  predicate Contains(s: string, sub: string)
    decreases |s|
  {
    StartsWith(s, sub) || (s != [] && Contains(s[1..], sub))
  }

  lemma {:induction false} ContainsAt(s: string, sub: string, i: nat)
    requires i + |sub| <= |s| && s[i..i + |sub|] == sub
    ensures Contains(s, sub)
  {
    if i > 0 {
      assert s[1..][i - 1..i - 1 + |sub|] == s[i..i + |sub|];
      ContainsAt(s[1..], sub, i - 1);
    } else {
      assert s[..|sub|] == sub;
    }
  }

  lemma {:induction false} ContainsIndex(s: string, sub: string) returns (i: nat)
    requires Contains(s, sub)
    ensures i + |sub| <= |s| && s[i..i + |sub|] == sub
  {
    if StartsWith(s, sub) {
      i := 0;
    } else {
      var j := ContainsIndex(s[1..], sub);
      i := j + 1;
      assert s[1..][j..j + |sub|] == s[i..i + |sub|];
    }
  }

  /** Python's `s.lstrip()`. */
  function LStrip(s: string): (r: string)
    ensures |r| <= |s| && r == s[|s| - |r|..]
    ensures r == [] || !IsSpace(r[0])
    ensures forall i | 0 <= i < |s| - |r| :: IsSpace(s[i])
  {
    if s != [] && IsSpace(s[0]) then LStrip(s[1..]) else s
  }

  /** Python's `s.rstrip()`. */
  function RStrip(s: string): (r: string)
    ensures |r| <= |s| && r == s[..|r|]
    ensures r == [] || !IsSpace(r[|r| - 1])
    ensures forall i | |r| <= i < |s| :: IsSpace(s[i])
  {
    if s != [] && IsSpace(s[|s| - 1]) then RStrip(s[..|s| - 1]) else s
  }

  /** Python's `s.strip()`. */
  function Strip(s: string): string {
    RStrip(LStrip(s))
  }

  lemma StripNoSpace(s: string)
    requires NoSpace(s)
    ensures Strip(s) == s
  {
  }

  /** The longest prefix of `s` holding no whitespace. */
  function TakeWord(s: string): (w: string)
    ensures |w| <= |s| && w == s[..|w|]
    ensures NoSpace(w)
    ensures |w| == |s| || IsSpace(s[|w|])
  {
    if s == [] || IsSpace(s[0]) then "" else [s[0]] + TakeWord(s[1..])
  }

  /** Python's `s.split()`: the maximal runs of non-whitespace, in order. */
  function Words(s: string): seq<string>
    decreases |s|
  {
    var t := LStrip(s);
    if t == [] then []
    else
      var w := TakeWord(t);
      assert w != [] by {
        assert !IsSpace(t[0]);
      }
      var rest := Words(t[|w|..]);
      [w] + rest
  }

  /** Every token of split() is non-empty and holds no whitespace. */
  lemma {:induction false} WordsShape(s: string)
    ensures Tokens(Words(s))
    decreases |s|
  {
    var t := LStrip(s);
    if t != [] {
      var w := TakeWord(t);
      assert !IsSpace(t[0]);
      WordsShape(t[|w|..]);
      TokensAppend([w], Words(t[|w|..]));
    }
  }

  /** A token followed by a space is split off first. */
  lemma WordsCons(w: string, rest: string)
    requires w != [] && NoSpace(w)
    ensures Words(w + " " + rest) == [w] + Words(rest)
  {
    var s := w + " " + rest;
    assert LStrip(s) == s;
    TakeWordBeforeSpace(w, rest);
    assert s[|w|..] == " " + rest;
    assert LStrip(" " + rest) == LStrip(rest);
  }

  lemma {:induction false} TakeWordBeforeSpace(w: string, rest: string)
    requires NoSpace(w)
    ensures TakeWord(w + " " + rest) == w
    decreases |w|
  {
    if w != [] {
      assert (w + " " + rest)[1..] == w[1..] + " " + rest;
      TakeWordBeforeSpace(w[1..], rest);
    }
  }

  /** A trailing whitespace character does not change what split() returns. */
  lemma {:induction false} WordsTrailing(t: string, c: char)
    requires IsSpace(c)
    ensures Words(t + [c]) == Words(t)
    decreases |t|
  {
    var u := LStrip(t);
    WordsStep(t);
    if u == [] {
      LStripAppend(t, c);
      WordsStep(t + [c]);
    } else {
      WordsAppendStep(t, c);
      WordsTrailing(u[|TakeWord(u)|..], c);
    }
  }

  lemma WordsAppendStep(t: string, c: char)
    requires IsSpace(c) && LStrip(t) != []
    ensures Words(t + [c]) == [TakeWord(LStrip(t))] + Words(LStrip(t)[|TakeWord(LStrip(t))|..] + [c])
  {
    var u := LStrip(t);
    LStripAppend(t, c);
    WordsStepAt(t, c, u);
    TakeWordAppend(u, c);
    SliceAppend(u, |TakeWord(u)|, c);
  }

  lemma WordsStepAt(t: string, c: char, u: string)
    requires IsSpace(c) && u != [] && LStrip(t + [c]) == u + [c]
    ensures Words(t + [c]) == [TakeWord(u + [c])] + Words((u + [c])[|TakeWord(u + [c])|..])
  {
    WordsStep(t + [c]);
  }

  lemma SliceAppend(u: string, k: nat, c: char)
    requires k <= |u|
    ensures (u + [c])[k..] == u[k..] + [c]
  {
  }

  /** One step of split(): skip leading whitespace, take one token. */
  lemma WordsStep(s: string)
    ensures LStrip(s) == [] ==> Words(s) == []
    ensures LStrip(s) != [] ==>
      |TakeWord(LStrip(s))| > 0 && Words(s) == [TakeWord(LStrip(s))] + Words(LStrip(s)[|TakeWord(LStrip(s))|..])
  {
    var t := LStrip(s);
    if t != [] {
      assert !IsSpace(t[0]);
    }
  }

  lemma {:induction false} LStripAppend(t: string, c: char)
    requires IsSpace(c)
    ensures LStrip(t) != [] ==> LStrip(t + [c]) == LStrip(t) + [c]
    ensures LStrip(t) == [] ==> LStrip(t + [c]) == []
    decreases |t|
  {
    if t != [] {
      assert (t + [c])[0] == t[0];
      if IsSpace(t[0]) {
        assert (t + [c])[1..] == t[1..] + [c];
        LStripAppend(t[1..], c);
      }
    } else {
      assert LStrip([c]) == LStrip([]);
    }
  }

  lemma {:induction false} TakeWordAppend(u: string, c: char)
    requires IsSpace(c)
    ensures TakeWord(u + [c]) == TakeWord(u)
    decreases |u|
  {
    if u == [] {
      assert TakeWord([c]) == "";
    } else {
      assert (u + [c])[0] == u[0];
      if !IsSpace(u[0]) {
        assert (u + [c])[1..] == u[1..] + [c];
        TakeWordAppend(u[1..], c);
      }
    }
  }

  /** Python's `s.rstrip().split()` is `s.split()`. */
  lemma {:induction false} WordsRStrip(s: string)
    ensures Words(RStrip(s)) == Words(s)
    decreases |s|
  {
    if s != [] && IsSpace(s[|s| - 1]) {
      var p := s[..|s| - 1];
      assert s == p + [s[|s| - 1]];
      WordsTrailing(p, s[|s| - 1]);
      WordsRStrip(p);
    }
  }


  /** Python's `s[lo:]`. */
  function SliceFrom(s: string, lo: nat): (r: string)
    ensures |r| == if lo <= |s| then |s| - lo else 0
    ensures forall i | 0 <= i < |r| :: r[i] == s[lo + i]
  {
    if lo <= |s| then s[lo..] else ""
  }

  /** Python's `s.split(c)` for a one-character separator. */
  function SplitOn(s: string, c: char): (parts: seq<string>)
    ensures |parts| >= 1
    decreases |s|
  {
    if s == [] then [""]
    else if s[0] == c then [""] + SplitOn(s[1..], c)
    else
      var rest := SplitOn(s[1..], c);
      [[s[0]] + rest[0]] + rest[1..]
  }

  lemma {:induction false} SplitOnFree(a: string, c: char)
    requires c !in a
    ensures SplitOn(a, c) == [a]
  {
    if a != [] {
      SplitOnFree(a[1..], c);
      assert [a[0]] + a[1..] == a;
    }
  }

  lemma {:induction false} SplitOnCons(a: string, b: string, c: char)
    requires c !in a
    ensures SplitOn(a + [c] + b, c) == [a] + SplitOn(b, c)
  {
    var s := a + [c] + b;
    if a == [] {
      assert s[1..] == b;
    } else {
      assert s[0] == a[0] && s[1..] == a[1..] + [c] + b;
      SplitOnCons(a[1..], b, c);
      assert [a[0]] + a[1..] == a;
    }
  }

  /** Python's `sep.join(ws)`. */
  function Join(ws: seq<string>, sep: string): string {
    if ws == [] then "" else if |ws| == 1 then ws[0] else ws[0] + sep + Join(ws[1..], sep)
  }

  /** Words that split() could have produced: non-empty, free of whitespace. */
  predicate Tokens(ws: seq<string>) {
    forall i | 0 <= i < |ws| :: ws[i] != [] && NoSpace(ws[i])
  }

  lemma TokensAppend(a: seq<string>, b: seq<string>)
    requires Tokens(a) && Tokens(b)
    ensures Tokens(a + b)
  {
    assert forall i | |a| <= i < |a + b| :: (a + b)[i] == b[i - |a|];
  }

  /** split() takes apart words joined by single spaces, then whatever follows them. */
  lemma {:induction false} WordsJoinThen(ws: seq<string>, tail: string)
    requires ws != [] && Tokens(ws)
    ensures Words(Join(ws, " ") + " " + tail) == ws + Words(tail)
    decreases |ws|
  {
    if |ws| == 1 {
      WordsJoinOne(ws, tail);
    } else {
      WordsJoinThen(ws[1..], tail);
      WordsJoinStep(ws, tail);
    }
  }

  lemma WordsJoinOne(ws: seq<string>, tail: string)
    requires |ws| == 1 && ws[0] != [] && NoSpace(ws[0])
    ensures Words(Join(ws, " ") + " " + tail) == ws + Words(tail)
  {
    WordsCons(ws[0], tail);
    SingleThen(ws, Words(tail));
  }

  lemma WordsJoinStep(ws: seq<string>, tail: string)
    requires |ws| > 1 && ws[0] != [] && NoSpace(ws[0])
    requires Words(Join(ws[1..], " ") + " " + tail) == ws[1..] + Words(tail)
    ensures Words(Join(ws, " ") + " " + tail) == ws + Words(tail)
  {
    var rest := Join(ws[1..], " ") + " " + tail;
    JoinThenCons(ws, tail);
    WordsCons(ws[0], rest);
    HeadThenRest(ws, Words(tail));
  }

  lemma SingleThen<T>(s: seq<T>, t: seq<T>)
    requires |s| == 1
    ensures [s[0]] + t == s + t
  {
    assert s == [s[0]];
  }

  lemma HeadThenRest<T>(s: seq<T>, t: seq<T>)
    requires s != []
    ensures [s[0]] + (s[1..] + t) == s + t
  {
    assert s == [s[0]] + s[1..];
  }

  lemma JoinThenCons(ws: seq<string>, tail: string)
    requires |ws| > 1
    ensures Join(ws, " ") + " " + tail == ws[0] + " " + (Join(ws[1..], " ") + " " + tail)
  {
  }

  /** Python's `s.replace(c, "")`. */
  function RemoveAll(s: string, c: char): (r: string)
    ensures c !in r
  {
    if s == [] then "" else (if s[0] == c then "" else [s[0]]) + RemoveAll(s[1..], c)
  }

  /** ASCII upper-casing, as str.upper() does for the recorder's tokens. */
  function Upper(s: string): (r: string)
    ensures |r| == |s|
  {
    if s == [] then ""
    else [if 'a' <= s[0] <= 'z' then (s[0] as int - 32) as char else s[0]] + Upper(s[1..])
  }

  /** The value of a string of decimal digits (empty reads as 0). */
  function DigitsValue(s: string): nat
    requires AllDigits(s)
  {
    if s == [] then 0 else DigitsValue(s[..|s| - 1]) * 10 + DigitValue(s[|s| - 1])
  }

  /** Python's `int(s)` on text: optional surrounding whitespace, an optional sign, one or more digits. */
  function ParseInt(s: string): Option<int> {
    var t := Strip(s);
    if t == [] then None
    else if t[0] == '-' || t[0] == '+' then
      var ds := t[1..];
      if ds != [] && AllDigits(ds) then
        var v: int := DigitsValue(ds);
        Some(if t[0] == '-' then -v else v)
      else None
    else if AllDigits(t) then Some(DigitsValue(t))
    else None
  }

  /** Python's `str(n)` for n >= 0. */
  function NatToString(n: nat): (s: string)
    ensures s != [] && AllDigits(s) && DigitsValue(s) == n
  {
    if n < 10 then [DigitChar(n)]
    else
      var s := NatToString(n / 10) + [DigitChar(n % 10)];
      assert s[..|s| - 1] == NatToString(n / 10);
      s
  }

  /** Python's `str(n)`. */
  function IntToString(n: int): string {
    if n < 0 then "-" + NatToString(-n) else NatToString(n)
  }

  lemma IntToStringNoSpace(n: int)
    ensures NoSpace(IntToString(n)) && IntToString(n) != []
  {
    var d := NatToString(if n < 0 then -n else n);
    assert AllDigits(d);
  }

  /** `int(str(n)) == n`. */
  lemma ParseIntToString(n: int)
    ensures ParseInt(IntToString(n)) == Some(n)
  {
    IntToStringNoSpace(n);
    StripNoSpace(IntToString(n));
    if n < 0 {
      assert IntToString(n)[1..] == NatToString(-n);
    }
  }

  function Repeat(c: char, k: nat): (r: string)
    ensures |r| == k && forall i | 0 <= i < k :: r[i] == c
  {
    if k == 0 then "" else [c] + Repeat(c, k - 1)
  }

  /** Python's right-aligned fill: `format(s, fill + ">" + str(w))`. */
  function PadLeft(s: string, fill: char, w: nat): (r: string)
    ensures |r| == if |s| >= w then |s| else w
  {
    if |s| >= w then s else Repeat(fill, w - |s|) + s
  }

  /** Python's `"{:0>Wd}".format(n)`: str(n), sign included, padded on the left with '0'. */
  function ZeroPad(n: int, w: nat): string {
    PadLeft(IntToString(n), '0', w)
  }

  function Pow10(w: nat): (p: nat)
    ensures p >= 1
  {
    if w == 0 then 1 else 10 * Pow10(w - 1)
  }

  /** The `w` least significant decimal digits of `n`, most significant first. */
  function Digits(n: nat, w: nat): (s: string)
    ensures |s| == w && AllDigits(s)
  {
    if w == 0 then "" else Digits(n / 10, w - 1) + [DigitChar(n % 10)]
  }

  lemma {:induction false} DigitsValueOf(n: nat, w: nat)
    requires n < Pow10(w)
    ensures DigitsValue(Digits(n, w)) == n
  {
    if w > 0 {
      DigitsValueOf(n / 10, w - 1);
      var s := Digits(n, w);
      assert s[..|s| - 1] == Digits(n / 10, w - 1);
    }
  }

  lemma {:induction false} DigitsOfValue(s: string)
    requires AllDigits(s)
    ensures Digits(DigitsValue(s), |s|) == s
  {
    if s != [] {
      var p := s[..|s| - 1];
      var v := DigitsValue(s);
      assert v / 10 == DigitsValue(p) && v % 10 == DigitValue(s[|s| - 1]);
      DigitsOfValue(p);
      assert p + [s[|s| - 1]] == s;
    }
  }

  lemma {:induction false} DigitsZero(k: nat)
    ensures Digits(0, k) == Repeat('0', k)
  {
    if k > 0 {
      DigitsZero(k - 1);
      assert Repeat('0', k) == Repeat('0', k - 1) + ['0'];
    }
  }

  /** For 0 <= n < 10^w (w >= 1) the Python format "{:0>Wd}" gives exactly the w digits of n. */
  lemma {:induction false} ZeroPadDigits(n: nat, w: nat)
    requires 1 <= w && n < Pow10(w)
    ensures ZeroPad(n, w) == Digits(n, w)
  {
    var d := DigitChar(n % 10);
    if n < 10 {
      DigitsZero(w - 1);
      assert NatToString(n) == [d];
      assert Digits(n, w) == Digits(0, w - 1) + [d];
    } else {
      assert n / 10 < Pow10(w - 1);
      ZeroPadDigits(n / 10, w - 1);
      var x := NatToString(n / 10);
      assert NatToString(n) == x + [d];
      PadLeftSnoc(x, d, w);
    }
  }

  /** Padding a string with one more character at its end pads the string without it one place less. */
  lemma PadLeftSnoc(x: string, d: char, w: nat)
    requires 1 <= w && |x| < w
    ensures PadLeft(x + [d], '0', w) == PadLeft(x, '0', w - 1) + [d]
  {
    if |x| + 1 < w {
      assert Repeat('0', w - 1 - |x|) + (x + [d]) == (Repeat('0', w - 1 - |x|) + x) + [d];
    }
  }

  lemma DigitsNoSpace(s: string)
    requires AllDigits(s)
    ensures NoSpace(s)
  {
  }

  /** `int()` reads back a fixed-width digit string. */
  lemma ParseIntDigits(n: nat, w: nat)
    requires 1 <= w && n < Pow10(w)
    ensures ParseInt(Digits(n, w)) == Some(n)
  {
    var s := Digits(n, w);
    DigitsNoSpace(s);
    StripNoSpace(s);
    DigitsValueOf(n, w);
  }
}
