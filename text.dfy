/** The parts of Python's `str` that the application relies on, as total
    functions on `seq<char>`: character classes, `str.split()` (runs of
    whitespace), `str.strip()`, `str.split(sep)`, `sep.join(parts)`, `str(n)`
    and `int(s)` on decimal digit strings. Character classes are the ASCII
    ones, except whitespace, which is Python's full `str.isspace()` set. */
module Text {

  /** Python's `str.isspace()` for a single character. */
  predicate IsSpace(c: char) {
    var n := c as int;
    (9 <= n <= 13) || (28 <= n <= 32) || n == 0x85 || n == 0xA0 || n == 0x1680 ||
    (0x2000 <= n <= 0x200A) || n == 0x2028 || n == 0x2029 || n == 0x202F ||
    n == 0x205F || n == 0x3000
  }

  predicate IsDigit(c: char) { '0' <= c <= '9' }
  predicate IsLower(c: char) { 'a' <= c <= 'z' }
  predicate IsUpper(c: char) { 'A' <= c <= 'Z' }
  predicate IsAlpha(c: char) { IsLower(c) || IsUpper(c) }
  /** The regular-expression class `\w`. */
  predicate IsWordChar(c: char) { IsAlpha(c) || IsDigit(c) || c == '_' }

  predicate NoSpace(s: string) {
    forall i :: 0 <= i < |s| ==> !IsSpace(s[i])
  }

  predicate AllDigits(s: string) {
    forall i :: 0 <= i < |s| ==> IsDigit(s[i])
  }

  function DigitChar(d: nat): (c: char)
    requires d < 10
    ensures IsDigit(c) && c as int - '0' as int == d
  {
    ('0' as int + d) as char
  }

  function DigitValue(c: char): (d: nat)
    requires IsDigit(c)
    ensures d < 10 && DigitChar(d) == c
  {
    c as int - '0' as int
  }

  /** `str(n)` for a non-negative integer. */
  function NatToString(n: nat): (s: string)
    ensures s != [] && AllDigits(s)
    ensures n < 10 <==> |s| == 1
    decreases n
  {
    if n < 10 then [DigitChar(n)] else NatToString(n / 10) + [DigitChar(n % 10)]
  }

  /** `int(s)` for a non-empty string of decimal digits. */
  function DigitsValue(s: string): nat
    requires AllDigits(s)
  {
    if s == [] then 0 else 10 * DigitsValue(s[..|s| - 1]) + DigitValue(s[|s| - 1])
  }

  /** `int(str(n)) == n`. */
  lemma {:induction false} NatToStringRoundTrip(n: nat)
    ensures DigitsValue(NatToString(n)) == n
  {
    if n >= 10 {
      var s := NatToString(n);
      assert s[..|s| - 1] == NatToString(n / 10);
      NatToStringRoundTrip(n / 10);
    }
  }

  /** Cutting a concatenation inside its left part. */
  lemma {:induction false} SliceAppend<T>(a: seq<T>, b: seq<T>, n: nat)
    requires n <= |a|
    ensures (a + b)[..n] == a[..n] && (a + b)[n..] == a[n..] + b
  {
  }

  /** Length of the leading run of non-whitespace characters. */
  function WordLen(s: string): (n: nat)
    ensures n <= |s|
    ensures NoSpace(s[..n])
    ensures n < |s| ==> IsSpace(s[n])
  {
    if s == [] || IsSpace(s[0]) then 0 else 1 + WordLen(s[1..])
  }

  /** `s.split()` with no argument: the maximal runs of non-whitespace. */
  function Words(s: string): seq<string>
    decreases |s|
  {
    if s == [] then []
    else if IsSpace(s[0]) then Words(s[1..])
    else var n := WordLen(s); [s[..n]] + Words(s[n..])
  }

  /** Every piece `split()` returns is a non-empty run without whitespace. */
  lemma {:induction false} WordsAreWords(s: string)
    ensures forall i :: 0 <= i < |Words(s)| ==> Words(s)[i] != [] && NoSpace(Words(s)[i])
    decreases |s|
  {
    if s == [] {
    } else if IsSpace(s[0]) {
      WordsAreWords(s[1..]);
    } else {
      var n := WordLen(s);
      var w := s[..n];
      var ws := Words(s[n..]);
      WordsAreWords(s[n..]);
      assert Words(s) == [w] + ws;
      assert w != [] && NoSpace(w);
      forall i | 0 <= i < |Words(s)| ensures Words(s)[i] != [] && NoSpace(Words(s)[i]) {
        if i > 0 {
          assert Words(s)[i] == ws[i - 1];
        }
      }
    }
  }

  lemma {:induction false} WordLenConcat(a: string, b: string)
    requires WordLen(a) < |a| || (b != [] && IsSpace(b[0]))
    ensures WordLen(a + b) == WordLen(a)
  {
    if a == [] {
    } else if IsSpace(a[0]) {
      assert (a + b)[0] == a[0];
    } else {
      assert (a + b)[0] == a[0];
      assert (a + b)[1..] == a[1..] + b;
      WordLenConcat(a[1..], b);
    }
  }

  /** A trailing separator adds no word. */
  lemma {:induction false} WordsSpaceEnd(a: string, sp: char)
    requires IsSpace(sp)
    ensures Words(a + [sp]) == Words(a)
    decreases |a|
  {
    if a == [] {
      assert Words([sp]) == Words([]);
    } else if IsSpace(a[0]) {
      assert (a + [sp])[1..] == a[1..] + [sp];
      WordsSpaceEnd(a[1..], sp);
    } else {
      var n := WordLen(a);
      WordLenConcat(a, [sp]);
      assert (a + [sp])[..n] == a[..n];
      assert (a + [sp])[n..] == a[n..] + [sp];
      WordsSpaceEnd(a[n..], sp);
    }
  }

  /** Splitting a concatenation whose left part ends in whitespace. */
  lemma {:induction false} WordsConcatAfterSpace(a: string, b: string)
    requires a == [] || IsSpace(a[|a| - 1])
    ensures Words(a + b) == Words(a) + Words(b)
    decreases |a|
  {
    if a == [] {
      assert a + b == b;
    } else if IsSpace(a[0]) {
      assert (a + b)[1..] == a[1..] + b;
      WordsConcatAfterSpace(a[1..], b);
    } else {
      var rest := a[WordLen(a)..];
      assert rest != [] ==> rest[|rest| - 1] == a[|a| - 1];
      WordsConcatAfterSpace(rest, b);
      WordsConcatFirstWord(a, b);
    }
  }

  /** The step of `WordsConcatAfterSpace` for a left part that starts with a
      word: that word comes first on both sides. */
  lemma {:induction false} WordsConcatFirstWord(a: string, b: string)
    requires a != [] && !IsSpace(a[0]) && IsSpace(a[|a| - 1])
    requires Words(a[WordLen(a)..] + b) == Words(a[WordLen(a)..]) + Words(b)
    ensures Words(a + b) == Words(a) + Words(b)
  {
    WordsHeadConcat(a, b);
    WordsHead(a);
  }

  /** The first word of `a + b` is the first word of `a` when `a` ends in
      whitespace. */
  lemma {:induction false} WordsHeadConcat(a: string, b: string)
    requires a != [] && !IsSpace(a[0]) && IsSpace(a[|a| - 1])
    ensures Words(a + b) == [a[..WordLen(a)]] + Words(a[WordLen(a)..] + b)
  {
    var n := WordLen(a);
    var ab := a + b;
    WordLenConcat(a, b);
    assert ab[0] == a[0];
    WordsHead(ab);
    calc {
      Words(ab);
      [ab[..WordLen(ab)]] + Words(ab[WordLen(ab)..]);
      [ab[..n]] + Words(ab[n..]);
      { SliceAppend(a, b, n); }
      [a[..n]] + Words(a[n..] + b);
    }
  }

  /** A string that starts with a word splits into that word and the rest. */
  lemma {:induction false} WordsHead(s: string)
    requires s != [] && !IsSpace(s[0])
    ensures Words(s) == [s[..WordLen(s)]] + Words(s[WordLen(s)..])
  {
  }

  /** Splitting a concatenation whose right part starts with whitespace. */
  lemma {:induction false} WordsConcatBeforeSpace(a: string, b: string)
    requires b == [] || IsSpace(b[0])
    ensures Words(a + b) == Words(a) + Words(b)
  {
    if b == [] {
      assert a + b == a;
    } else {
      var a1 := a + [b[0]];
      assert a1[|a1| - 1] == b[0];
      calc {
        Words(a + b);
        { assert a + b == a1 + b[1..]; }
        Words(a1 + b[1..]);
        { WordsConcatAfterSpace(a1, b[1..]); }
        Words(a1) + Words(b[1..]);
        { WordsSpaceEnd(a, b[0]); }
        Words(a) + Words(b[1..]);
        Words(a) + Words(b);
      }
    }
  }

  lemma {:induction false} WordsOfWord(w: string)
    requires w != [] && NoSpace(w)
    ensures Words(w) == [w]
  {
    var n := WordLen(w);
    assert n == |w|;
    assert w[..n] == w && w[n..] == [];
  }

  /** `sep.join(parts)`. */
  function Join<T>(parts: seq<seq<T>>, sep: seq<T>): seq<T>
  {
    if parts == [] then []
    else if |parts| == 1 then parts[0]
    else parts[0] + sep + Join(parts[1..], sep)
  }

  lemma {:induction false} NoSpaceJoin(parts: seq<string>, sep: string)
    requires forall i :: 0 <= i < |parts| ==> NoSpace(parts[i])
    requires NoSpace(sep)
    ensures NoSpace(Join(parts, sep))
  {
    if |parts| > 1 {
      NoSpaceJoin(parts[1..], sep);
      var rest := Join(parts[1..], sep);
      assert Join(parts, sep) == parts[0] + sep + rest;
      assert NoSpace(parts[0]);
    }
  }

  /** One more part in front of at least one other adds it and a separator. */
  lemma {:induction false} JoinStep<T>(a: seq<T>, rest: seq<seq<T>>, sep: seq<T>)
    requires rest != []
    ensures Join([a] + rest, sep) == a + sep + Join(rest, sep)
  {
    assert ([a] + rest)[1..] == rest;
  }

  /** Joining two non-empty lists of parts is joining each and putting one
      separator between them. */
  lemma {:induction false} JoinAppend<T>(a: seq<seq<T>>, b: seq<seq<T>>, sep: seq<T>)
    requires a != [] && b != []
    ensures Join(a + b, sep) == Join(a, sep) + sep + Join(b, sep)
    decreases |a|
  {
    if |a| == 1 {
      assert a + b == [a[0]] + b;
      JoinStep(a[0], b, sep);
    } else {
      var tail := a[1..];
      JoinAppend(tail, b, sep);
      calc {
        Join(a + b, sep);
        { assert a + b == [a[0]] + (tail + b); JoinStep(a[0], tail + b, sep); }
        a[0] + sep + Join(tail + b, sep);
        a[0] + sep + (Join(tail, sep) + sep + Join(b, sep));
        (a[0] + sep + Join(tail, sep)) + sep + Join(b, sep);
        { assert a == [a[0]] + tail; JoinStep(a[0], tail, sep); }
        Join(a, sep) + sep + Join(b, sep);
      }
    }
  }

  /** Joining six fields is writing them out with the separator between. */
  lemma {:induction false} JoinSix<T>(a: seq<T>, b: seq<T>, c: seq<T>, d: seq<T>, e: seq<T>, f: seq<T>, sep: seq<T>)
    ensures Join([a, b, c, d, e, f], sep) == a + sep + b + sep + c + sep + d + sep + e + sep + f
  {
    assert [a, b, c, d, e, f] == [a] + [b, c, d, e, f];
    JoinStep(a, [b, c, d, e, f], sep);
    JoinFive(b, c, d, e, f, sep);
  }

  lemma {:induction false} JoinFive<T>(b: seq<T>, c: seq<T>, d: seq<T>, e: seq<T>, f: seq<T>, sep: seq<T>)
    ensures Join([b, c, d, e, f], sep) == b + sep + c + sep + d + sep + e + sep + f
  {
    assert [b, c, d, e, f] == [b] + [c, d, e, f];
    JoinStep(b, [c, d, e, f], sep);
    JoinFour(c, d, e, f, sep);
  }

  lemma {:induction false} JoinFour<T>(c: seq<T>, d: seq<T>, e: seq<T>, f: seq<T>, sep: seq<T>)
    ensures Join([c, d, e, f], sep) == c + sep + d + sep + e + sep + f
  {
    assert [c, d, e, f] == [c] + [d, e, f];
    JoinStep(c, [d, e, f], sep);
    JoinThree(d, e, f, sep);
  }

  lemma {:induction false} JoinThree<T>(d: seq<T>, e: seq<T>, f: seq<T>, sep: seq<T>)
    ensures Join([d, e, f], sep) == d + sep + e + sep + f
  {
    assert [d, e, f] == [d] + [e, f];
    JoinStep(d, [e, f], sep);
    assert [e, f][1..] == [f];
  }

  /** Joining eight parts is writing them out with the separator between. */
  lemma {:induction false} JoinEight<T>(a: seq<T>, b: seq<T>, c: seq<T>, d: seq<T>, e: seq<T>, f: seq<T>, g: seq<T>, h: seq<T>, sep: seq<T>)
    ensures Join([a, b, c, d, e, f, g, h], sep) == a + sep + b + sep + c + sep + d + sep + e + sep + f + sep + g + sep + h
  {
    var parts := [a, b, c, d, e, f, g, h];
    var tail := [c, d, e, f, g, h];
    assert parts[1..][1..] == tail;
    JoinSix(c, d, e, f, g, h, sep);
    assert Join(parts[1..], sep) == b + sep + Join(tail, sep);
  }

  /** Six non-empty words listed together are each non-empty words. */
  lemma {:induction false} SixWords(a: string, b: string, c: string, d: string, e: string, f: string)
    requires a != [] && NoSpace(a) && b != [] && NoSpace(b) && c != [] && NoSpace(c)
    requires d != [] && NoSpace(d) && e != [] && NoSpace(e) && f != [] && NoSpace(f)
    ensures forall i :: 0 <= i < 6 ==> [a, b, c, d, e, f][i] != [] && NoSpace([a, b, c, d, e, f][i])
  {
  }

  /** `" ".join(ws).split() == ws` for words without whitespace. */
  lemma {:induction false} WordsOfJoin(ws: seq<string>)
    requires forall i :: 0 <= i < |ws| ==> ws[i] != [] && NoSpace(ws[i])
    ensures Words(Join(ws, " ")) == ws
  {
    if |ws| == 1 {
      WordsOfWord(ws[0]);
    } else if |ws| > 1 {
      var rest := Join(ws[1..], " ");
      assert Join(ws, " ") == ws[0] + (" " + rest);
      WordsConcatBeforeSpace(ws[0], " " + rest);
      assert (" " + rest)[1..] == rest;
      WordsOfWord(ws[0]);
      WordsOfJoin(ws[1..]);
    }
  }

  /** `s.lstrip()`. */
  function TrimLeft(s: string): string
  {
    if s != [] && IsSpace(s[0]) then TrimLeft(s[1..]) else s
  }

  /** `s.rstrip()`. */
  function TrimRight(s: string): string
  {
    if s != [] && IsSpace(s[|s| - 1]) then TrimRight(s[..|s| - 1]) else s
  }

  /** `s.strip()`. */
  function Strip(s: string): string
  {
    TrimRight(TrimLeft(s))
  }

  /** `lstrip` leaves the suffix after the leading whitespace. */
  lemma {:induction false} TrimLeftFacts(s: string)
    ensures var r := TrimLeft(s);
      |r| <= |s| && r == s[|s| - |r|..] &&
      (forall i :: 0 <= i < |s| - |r| ==> IsSpace(s[i])) &&
      (r != [] ==> !IsSpace(r[0]))
  {
    if s != [] && IsSpace(s[0]) {
      var t := s[1..];
      TrimLeftFacts(t);
      var r := TrimLeft(t);
      assert TrimLeft(s) == r;
      assert t[|t| - |r|..] == s[|s| - |r|..];
      forall i | 0 <= i < |s| - |r|
        ensures IsSpace(s[i])
      {
        if i > 0 {
          assert s[i] == t[i - 1];
        }
      }
    }
  }

  /** `rstrip` leaves the prefix before the trailing whitespace. */
  lemma {:induction false} TrimRightFacts(s: string)
    ensures var r := TrimRight(s);
      |r| <= |s| && r == s[..|r|] &&
      (forall i :: |r| <= i < |s| ==> IsSpace(s[i])) &&
      (r != [] ==> !IsSpace(r[|r| - 1]))
  {
    if s != [] && IsSpace(s[|s| - 1]) {
      TrimRightFacts(s[..|s| - 1]);
    }
  }

  /** `s.strip()` is empty exactly when `s` is all whitespace. */
  lemma {:induction false} StripEmpty(s: string)
    ensures Strip(s) == [] <==> forall i :: 0 <= i < |s| ==> IsSpace(s[i])
  {
    var t := TrimLeft(s);
    TrimLeftFacts(s);
    TrimRightFacts(t);
    assert t != [] ==> t[0] == s[|s| - |t|];
  }

  /** `s.strip()` leaves a string alone that neither starts nor ends with
      whitespace. */
  lemma {:induction false} StripUnchanged(s: string)
    requires s != [] && !IsSpace(s[0]) && !IsSpace(s[|s| - 1])
    ensures Strip(s) == s
  {
  }

  function IndexOf(s: string, c: char): (i: nat)
    requires c in s
    ensures i < |s| && s[i] == c && c !in s[..i]
  {
    if s[0] == c then 0 else 1 + IndexOf(s[1..], c)
  }

  /** `s.split(c)` for a one-character separator. */
  function SplitOn(s: string, c: char): (parts: seq<string>)
    ensures |parts| >= 1
    decreases |s|
  {
    if c !in s then [s]
    else var i := IndexOf(s, c); [s[..i]] + SplitOn(s[i + 1..], c)
  }

  /** `c.join(lines).split(c) == lines` when no line contains `c`. */
  lemma {:induction false} SplitOnJoin(lines: seq<string>, c: char)
    requires |lines| >= 1
    requires forall i :: 0 <= i < |lines| ==> c !in lines[i]
    ensures SplitOn(Join(lines, [c]), c) == lines
  {
    if |lines| > 1 {
      var s := Join(lines, [c]);
      var rest := Join(lines[1..], [c]);
      assert s == lines[0] + [c] + rest;
      assert s[|lines[0]|] == c;
      assert s[..|lines[0]|] == lines[0];
      var i := IndexOf(s, c);
      assert c !in s[..|lines[0]|];
      assert i == |lines[0]|;
      assert s[i + 1..] == rest;
      SplitOnJoin(lines[1..], c);
    }
  }
}
