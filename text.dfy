// String operations of the Rust and Go standard libraries that the status checks use.
module Text {

  /** ASCII decimal digit. */
  predicate IsDigit(c: char) {
    '0' <= c <= '9'
  }

  predicate AllDigits(s: string) {
    forall i :: 0 <= i < |s| ==> IsDigit(s[i])
  }

  function DigitChar(d: nat): (c: char)
    requires d < 10
    ensures IsDigit(c)
  {
    "0123456789"[d]
  }

  function DigitValue(c: char): (d: nat)
    requires IsDigit(c)
    ensures d < 10
  {
    (c as int - '0' as int) as nat
  }

  /** Decimal digits of a natural number, most significant first, without leading zeros. */
  function NatDigits(n: nat): (s: string)
    ensures |s| >= 1 && AllDigits(s)
    ensures n < 10 <==> |s| == 1
  {
    if n < 10 then [DigitChar(n)] else NatDigits(n / 10) + [DigitChar(n % 10)]
  }

  /** `{}` / `%d` of an integer: an optional minus sign followed by the decimal digits. */
  function Decimal(n: int): (s: string)
    ensures |s| >= 1
    ensures n >= 0 ==> s == NatDigits(n)
    ensures n < 0 ==> s == "-" + NatDigits(-n)
  {
    if n < 0 then "-" + NatDigits(-n) else NatDigits(n)
  }

  /** The value of a string of decimal digits (the empty string reads as 0). */
  function ParseNat(s: string): nat
    requires AllDigits(s)
  {
    if s == [] then 0 else ParseNat(s[..|s| - 1]) * 10 + DigitValue(s[|s| - 1])
  }

  /** A step of `ParseNatDigits`: a digit character reads back as its value. */
  lemma DigitRoundTrip(d: nat)
    requires d < 10
    ensures DigitValue(DigitChar(d)) == d
  {
  }

  /** Reading back the digits of `n` gives `n`. */
  lemma {:induction false} ParseNatDigits(n: nat)
    ensures ParseNat(NatDigits(n)) == n
  {
    var s := NatDigits(n);
    if n < 10 {
      DigitRoundTrip(n);
      assert s[..|s| - 1] == [];
    } else {
      assert s[..|s| - 1] == NatDigits(n / 10);
      DigitRoundTrip(n % 10);
      ParseNatDigits(n / 10);
    }
  }

  /** Leading zeros do not change the value of a digit string. */
  lemma {:induction false} ParseNatLeadingZeros(z: string, s: string)
    requires AllDigits(s)
    requires forall i :: 0 <= i < |z| ==> z[i] == '0'
    ensures AllDigits(z + s) && ParseNat(z + s) == ParseNat(s)
  {
    if s == [] {
      ParseNatZeros(z);
      assert z + s == z;
    } else {
      var t := z + s;
      assert t[..|t| - 1] == z + s[..|s| - 1];
      ParseNatLeadingZeros(z, s[..|s| - 1]);
    }
  }

  lemma {:induction false} ParseNatZeros(z: string)
    requires forall i :: 0 <= i < |z| ==> z[i] == '0'
    ensures AllDigits(z) && ParseNat(z) == 0
  {
    if z != [] {
      ParseNatZeros(z[..|z| - 1]);
    }
  }

  /** `count` copies of `c`. */
  function Repeat(c: char, count: nat): (s: string)
    ensures |s| == count && forall i :: 0 <= i < count ==> s[i] == c
  {
    if count == 0 then [] else [c] + Repeat(c, count - 1)
  }

  /** Right-aligns `s` in a field of `width` characters, padding on the left with `fill`. */
  function PadLeft(s: string, width: nat, fill: char): (r: string)
    ensures |r| == if |s| >= width then |s| else width
    ensures r[|r| - |s|..] == s
    ensures forall i :: 0 <= i < |r| - |s| ==> r[i] == fill
  {
    if |s| >= width then s else Repeat(fill, width - |s|) + s
  }

  /** `strings.Join` / `[String]::join`: the parts with `sep` between consecutive ones. */
  function Join(parts: seq<string>, sep: string): string {
    if |parts| == 0 then ""
    else if |parts| == 1 then parts[0]
    else parts[0] + sep + Join(parts[1..], sep)
  }

  /** Position of the first occurrence of `c` in `s`. */
  function IndexOf(s: string, c: char): (i: nat)
    requires c in s
    ensures i < |s| && s[i] == c && c !in s[..i]
  {
    if s[0] == c then 0 else 1 + IndexOf(s[1..], c)
  }

  /** Splits `s` at every occurrence of `c` (Rust `str::split` on a char). */
  function Split(s: string, c: char): (r: seq<string>)
    ensures |r| >= 1
    ensures forall i :: 0 <= i < |r| ==> c !in r[i]
    decreases |s|
  {
    if c !in s then [s]
    else
      var i := IndexOf(s, c);
      [s[..i]] + Split(s[i + 1..], c)
  }

  /** Splitting a join at its one-character separator gives back the parts, when no part holds it. */
  lemma {:induction false} SplitJoin(parts: seq<string>, c: char)
    requires |parts| >= 1
    requires forall i :: 0 <= i < |parts| ==> c !in parts[i]
    ensures Split(Join(parts, [c]), c) == parts
  {
    if |parts| > 1 {
      var p := parts[0];
      var rest := Join(parts[1..], [c]);
      var s := p + [c] + rest;
      assert Join(parts, [c]) == s;
      assert s[|p|] == c && s[..|p|] == p;
      assert c in s;
      var i := IndexOf(s, c);
      assert i == |p|;
      assert s[i + 1..] == rest;
      SplitJoin(parts[1..], c);
    }
  }

  /** Unicode White_Space, which Rust's `char::is_whitespace` tests. */
  predicate IsWhitespace(c: char) {
    ('\U{9}' <= c <= '\U{D}') || c == ' ' || c == '\U{85}' || c == '\U{A0}' || c == '\U{1680}'
    || ('\U{2000}' <= c <= '\U{200A}') || c == '\U{2028}' || c == '\U{2029}' || c == '\U{202F}'
    || c == '\U{205F}' || c == '\U{3000}'
  }

  predicate AllWhitespace(s: string) {
    forall i :: 0 <= i < |s| ==> IsWhitespace(s[i])
  }

  function TrimStart(s: string): (r: string)
    ensures r == [] || !IsWhitespace(r[0])
  {
    if s != [] && IsWhitespace(s[0]) then TrimStart(s[1..]) else s
  }

  function TrimEnd(s: string): (r: string)
    ensures r <= s
    ensures r == [] || !IsWhitespace(r[|r| - 1])
  {
    if s != [] && IsWhitespace(s[|s| - 1]) then TrimEnd(s[..|s| - 1]) else s
  }

  /** Rust `str::trim`: drops leading and trailing whitespace. */
  function Trim(s: string): (r: string)
    ensures r == [] || (!IsWhitespace(r[0]) && !IsWhitespace(r[|r| - 1]))
  {
    TrimEnd(TrimStart(s))
  }

  lemma {:induction false} TrimStartSkips(w: string, rest: string)
    requires AllWhitespace(w)
    requires rest == [] || !IsWhitespace(rest[0])
    ensures TrimStart(w + rest) == rest
  {
    if w != [] {
      assert (w + rest)[1..] == w[1..] + rest;
      TrimStartSkips(w[1..], rest);
    }
  }

  lemma {:induction false} TrimEndSkips(rest: string, w: string)
    requires AllWhitespace(w)
    requires rest == [] || !IsWhitespace(rest[|rest| - 1])
    ensures TrimEnd(rest + w) == rest
  {
    if w != [] {
      var t := rest + w;
      assert t[..|t| - 1] == rest + w[..|w| - 1];
      TrimEndSkips(rest, w[..|w| - 1]);
    } else {
      assert rest + w == rest;
    }
  }

  /** Whitespace around a trimmed text is exactly what `Trim` removes. */
  lemma TrimPadded(w1: string, t: string, w2: string)
    requires AllWhitespace(w1) && AllWhitespace(w2)
    requires t == [] || (!IsWhitespace(t[0]) && !IsWhitespace(t[|t| - 1]))
    ensures Trim(w1 + t + w2) == t
  {
    if t == [] {
      assert w1 + t + w2 == (w1 + w2) + [];
      TrimStartSkips(w1 + w2, []);
    } else {
      assert w1 + t + w2 == w1 + (t + w2);
      TrimStartSkips(w1, t + w2);
      TrimEndSkips(t, w2);
    }
  }

  /** Length of the run of non-whitespace characters that starts `s`. */
  function TokenLength(s: string): (n: nat)
    requires s != [] && !IsWhitespace(s[0])
    ensures 1 <= n <= |s|
    ensures forall j :: 0 <= j < n ==> !IsWhitespace(s[j])
    ensures n < |s| ==> IsWhitespace(s[n])
  {
    if |s| == 1 || IsWhitespace(s[1]) then 1 else 1 + TokenLength(s[1..])
  }

  predicate NoWhitespace(s: string) {
    forall i :: 0 <= i < |s| ==> !IsWhitespace(s[i])
  }

  /** Rust `str::split_whitespace`: the maximal non-empty runs of non-whitespace characters. */
  function SplitWhitespace(s: string): (r: seq<string>)
    ensures forall i :: 0 <= i < |r| ==> r[i] != [] && NoWhitespace(r[i])
    decreases |s|
  {
    if s == [] then []
    else if IsWhitespace(s[0]) then SplitWhitespace(s[1..])
    else
      var n := TokenLength(s);
      [s[..n]] + SplitWhitespace(s[n..])
  }

  /** Whitespace alone holds no token. */
  lemma {:induction false} SplitWhitespaceBlank(w: string)
    requires AllWhitespace(w)
    ensures SplitWhitespace(w) == []
  {
    if w != [] {
      SplitWhitespaceBlank(w[1..]);
    }
  }

  /**
   * The first token is the first run of non-whitespace characters, whatever whitespace comes
   * before it; the tokens after it are those of the rest.
   */
  lemma {:induction false} SplitWhitespaceRun(w: string, t: string, rest: string)
    requires AllWhitespace(w)
    requires t != [] && NoWhitespace(t)
    requires rest == [] || IsWhitespace(rest[0])
    ensures SplitWhitespace(w + t + rest) == [t] + SplitWhitespace(rest)
  {
    if w != [] {
      assert (w + t + rest)[1..] == w[1..] + t + rest;
      SplitWhitespaceRun(w[1..], t, rest);
    } else {
      var s := t + rest;
      assert w + t + rest == s;
      TokenLengthOfRun(t, rest);
      assert s[..|t|] == t && s[|t|..] == rest;
    }
  }

  /** A run of non-whitespace characters followed by whitespace or nothing is one token long. */
  lemma {:induction false} TokenLengthOfRun(t: string, rest: string)
    requires t != [] && NoWhitespace(t)
    requires rest == [] || IsWhitespace(rest[0])
    ensures TokenLength(t + rest) == |t|
  {
    if |t| > 1 {
      assert (t + rest)[1..] == t[1..] + rest;
      TokenLengthOfRun(t[1..], rest);
    }
  }

  /** Tokens joined by single spaces split back into the same tokens. */
  lemma {:induction false} SplitWhitespaceJoin(tokens: seq<string>)
    requires forall i :: 0 <= i < |tokens| ==> tokens[i] != [] && NoWhitespace(tokens[i])
    ensures SplitWhitespace(Join(tokens, " ")) == tokens
  {
    if |tokens| == 1 {
      SplitWhitespaceRun([], tokens[0], []);
      assert [] + tokens[0] + [] == tokens[0];
    } else if |tokens| > 1 {
      var rest := " " + Join(tokens[1..], " ");
      assert Join(tokens, " ") == [] + tokens[0] + rest;
      SplitWhitespaceRun([], tokens[0], rest);
      assert rest[1..] == Join(tokens[1..], " ");
      SplitWhitespaceJoin(tokens[1..]);
    }
  }

  /** Drops one trailing carriage return. */
  function StripCarriageReturn(line: string): (r: string)
    ensures r == line || line == r + "\r"
  {
    if line != [] && line[|line| - 1] == '\r' then line[..|line| - 1] else line
  }

  /** Rust `str::lines`: split at `\n`, dropping a `\r` before it; a final empty line is not produced. */
  function Lines(s: string): (r: seq<string>)
    ensures s == [] <==> r == []
    ensures forall i :: 0 <= i < |r| ==> '\n' !in r[i]
    decreases |s|
  {
    if s == [] then []
    else if '\n' !in s then [s]
    else
      var i := IndexOf(s, '\n');
      [StripCarriageReturn(s[..i])] + Lines(s[i + 1..])
  }

  /** The final line break of `s`, if it ends with one. */
  function FinalBreak(s: string): string {
    if s != [] && s[|s| - 1] == '\n' then "\n" else ""
  }

  /**
   * Without carriage returns, the lines joined by line breaks give back the content, all but
   * a final line break.
   */
  lemma {:induction false} LinesJoin(s: string)
    requires '\r' !in s
    ensures Join(Lines(s), "\n") + FinalBreak(s) == s
    decreases |s|
  {
    if s != [] && '\n' in s {
      var i := IndexOf(s, '\n');
      var head, rest := LinesBreak(s, i);
      if rest != [] {
        LinesJoin(rest);
      }
      JoinLinesStep(head, Lines(rest), rest);
    } else if s != [] {
      assert s[|s| - 1] in s;
      assert Lines(s) == [s] && FinalBreak(s) == "";
    }
  }

  /** At the first line break of a text without carriage returns, the first line is the text before it. */
  lemma LinesBreak(s: string, i: nat) returns (head: string, rest: string)
    requires '\r' !in s && '\n' in s && i == IndexOf(s, '\n')
    ensures s == head + "\n" + rest && '\r' !in rest && '\n' !in head
    ensures Lines(s) == [head] + Lines(rest)
  {
    head, rest := s[..i], s[i + 1..];
    assert s == head + "\n" + rest;
    assert forall k :: 0 <= k < |rest| ==> rest[k] == s[i + 1 + k];
    if head != [] {
      assert head[|head| - 1] == s[i - 1];
    }
  }

  /** One line in front of lines that join back to `rest`: the whole joins back too. */
  lemma JoinLinesStep(head: string, tail: seq<string>, rest: string)
    requires rest == [] <==> tail == []
    requires rest != [] ==> Join(tail, "\n") + FinalBreak(rest) == rest
    ensures Join([head] + tail, "\n") + FinalBreak(head + "\n" + rest) == head + "\n" + rest
  {
    var s := head + "\n" + rest;
    assert s[|s| - 1] == if rest == [] then '\n' else rest[|rest| - 1];
    if rest == [] {
      assert [head] + tail == [head];
    } else {
      var j := Join(tail, "\n");
      assert Join([head] + tail, "\n") == head + "\n" + j;
      assert head + "\n" + j + FinalBreak(rest) == head + "\n" + (j + FinalBreak(rest));
    }
  }

  /** Whether `sub` occurs in `s` (Rust `str::contains`, Go `strings.Contains`). */
  predicate Contains(s: string, sub: string) {
    exists i :: 0 <= i <= |s| - |sub| && OccursAt(s, sub, i)
  }

  /** Whether `sub` occurs in `s` starting at position `i`. */
  predicate OccursAt(s: string, sub: string, i: int)
    requires 0 <= i <= |s| - |sub|
  {
    s[i..i + |sub|] == sub
  }

  /** Go `strings.Trim(s, cutset)` for a one-character cutset. */
  function TrimChar(s: string, c: char): (r: string)
    ensures r == [] || (r[0] != c && r[|r| - 1] != c)
    decreases |s|
  {
    if s == [] then []
    else if s[0] == c then TrimChar(s[1..], c)
    else if s[|s| - 1] == c then TrimChar(s[..|s| - 1], c)
    else s
  }

  /** Whether every character of `s` is `c`. */
  predicate AllChar(s: string, c: char) {
    forall i :: 0 <= i < |s| ==> s[i] == c
  }

  /** `TrimChar` removes exactly the copies of `c` around a text that neither starts nor ends with `c`. */
  lemma {:induction false} TrimCharPadded(p1: string, t: string, p2: string, c: char)
    requires AllChar(p1, c) && AllChar(p2, c)
    requires t == [] || (t[0] != c && t[|t| - 1] != c)
    ensures TrimChar(p1 + t + p2, c) == t
    decreases |p1| + |p2|
  {
    var s := p1 + t + p2;
    if p1 != [] {
      PaddedFront(p1, t, p2, c);
      TrimCharPadded(p1[1..], t, p2, c);
    } else if p2 != [] && t == [] {
      PaddedFront(p2, [], [], c);
      assert s == p2 + [] + [];
      TrimCharPadded([], [], p2[1..], c);
      assert [] + [] + p2[1..] == p2[1..] + [] + [];
    } else if p2 != [] {
      PaddedBack(t, p2, c);
      TrimCharPadded([], t, p2[..|p2| - 1], c);
    } else {
      assert s == t;
    }
  }

  lemma PaddedFront(p1: string, t: string, p2: string, c: char)
    requires p1 != [] && AllChar(p1, c)
    ensures (p1 + t + p2)[0] == c && (p1 + t + p2)[1..] == p1[1..] + t + p2 && AllChar(p1[1..], c)
  {
  }

  lemma PaddedBack(t: string, p2: string, c: char)
    requires t != [] && t[0] != c && p2 != [] && AllChar(p2, c)
    ensures var s := [] + t + p2;
      s[0] != c && s[|s| - 1] == c && s[..|s| - 1] == [] + t + p2[..|p2| - 1] && AllChar(p2[..|p2| - 1], c)
  {
  }

  /** What `TrimChar` keeps is a contiguous piece of `s`, with only copies of `c` around it. */
  lemma {:induction false} TrimCharSlice(s: string, c: char) returns (i: nat, j: nat)
    ensures i <= j <= |s| && TrimChar(s, c) == s[i..j]
    ensures AllChar(s[..i], c) && AllChar(s[j..], c)
    decreases |s|
  {
    if s == [] {
      i, j := 0, 0;
    } else if s[0] == c {
      var i1, j1 := TrimCharSlice(s[1..], c);
      i, j := i1 + 1, j1 + 1;
      SliceFront(s, c, i1, j1);
    } else if s[|s| - 1] == c {
      i, j := TrimCharSlice(s[..|s| - 1], c);
      SliceBack(s, c, i, j);
    } else {
      i, j := 0, |s|;
      assert s[0..|s|] == s;
    }
  }

  lemma SliceFront(s: string, c: char, i: nat, j: nat)
    requires s != [] && s[0] == c && i <= j <= |s| - 1
    requires AllChar(s[1..][..i], c) && AllChar(s[1..][j..], c)
    ensures s[1..][i..j] == s[i + 1..j + 1] && AllChar(s[..i + 1], c) && AllChar(s[j + 1..], c)
  {
    assert s[..i + 1] == [c] + s[1..][..i];
    assert s[j + 1..] == s[1..][j..];
  }

  lemma SliceBack(s: string, c: char, i: nat, j: nat)
    requires s != [] && s[|s| - 1] == c && i <= j <= |s| - 1
    requires AllChar(s[..|s| - 1][..i], c) && AllChar(s[..|s| - 1][j..], c)
    ensures s[..|s| - 1][i..j] == s[i..j] && AllChar(s[..i], c) && AllChar(s[j..], c)
  {
    assert s[..i] == s[..|s| - 1][..i];
    assert s[j..] == s[..|s| - 1][j..] + [c];
  }
}
