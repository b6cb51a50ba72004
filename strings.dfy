/** The string operations of Python's `str` and `os.path` that the chat
    loop uses, over `seq<char>`. Case mapping is ASCII only: a character
    outside 'A'..'Z' and 'a'..'z' is uncased and left as it is. */
module Strings {

  // ---------------------------------------------------------------------
  // Characters

  predicate IsUpper(c: char) { 'A' <= c <= 'Z' }

  predicate IsLower(c: char) { 'a' <= c <= 'z' }

  /** A cased character in the sense of `str.title` (ASCII letters only). */
  predicate IsLetter(c: char) { IsUpper(c) || IsLower(c) }

  function ToUpper(c: char): (r: char)
    ensures IsLower(c) ==> IsUpper(r)
    ensures !IsLower(c) ==> r == c
  {
    if IsLower(c) then (c as int - 32) as char else c
  }

  function ToLower(c: char): (r: char)
    ensures IsUpper(c) ==> IsLower(r)
    ensures !IsUpper(c) ==> r == c
  {
    if IsUpper(c) then (c as int + 32) as char else c
  }

  function LowerAll(s: string): (r: string)
    ensures |r| == |s|
    ensures forall i :: 0 <= i < |s| ==> r[i] == ToLower(s[i])
  {
    seq(|s|, i requires 0 <= i < |s| => ToLower(s[i]))
  }

  // ---------------------------------------------------------------------
  // str.capitalize, str.replace (one character for another), str.title

  /** `s.capitalize()`: first character upper-cased, the rest lower-cased. */
  function Capitalize(s: string): (r: string)
    ensures |r| == |s|
    ensures s != [] ==> r[0] == ToUpper(s[0])
    ensures forall i :: 1 <= i < |s| ==> r[i] == ToLower(s[i])
  {
    if s == [] then [] else [ToUpper(s[0])] + LowerAll(s[1..])
  }

  /** `s.replace(from, to)` for one-character `from` and `to`. */
  function ReplaceChar(s: string, from: char, to: char): (r: string)
    ensures |r| == |s|
    ensures forall i :: 0 <= i < |s| ==> r[i] == (if s[i] == from then to else s[i])
  {
    seq(|s|, i requires 0 <= i < |s| => if s[i] == from then to else s[i])
  }

  /** `s.title()`: a letter is upper-cased when the character before it is
      not a letter, and lower-cased when it is. `afterLetter` says whether
      the character before `s` was a letter. */
  function TitleFrom(s: string, afterLetter: bool): (r: string)
    decreases |s|
  {
    if s == [] then []
    else
      var c := s[0];
      var c' := if !IsLetter(c) then c else if afterLetter then ToLower(c) else ToUpper(c);
      [c'] + TitleFrom(s[1..], IsLetter(c))
  }

  function Title(s: string): string
  {
    TitleFrom(s, false)
  }

  /** Whether position `i` of `s` starts a word for `str.title`. */
  predicate StartsWord(s: string, i: int)
    requires 0 <= i < |s|
  {
    i == 0 || !IsLetter(s[i - 1])
  }

  /** What `TitleFrom` does to each character, position by position: it keeps
      the length, maps letters to letters of the same letter (case aside),
      leaves every other character alone, and upper-cases exactly the letters
      that start a word. */
  lemma {:induction false} TitleFromAt(s: string, afterLetter: bool)
    ensures var r := TitleFrom(s, afterLetter);
      && |r| == |s|
      && (forall i :: 0 <= i < |s| ==> ToLower(r[i]) == ToLower(s[i]))
      && (forall i :: 0 <= i < |s| ==> (IsLetter(r[i]) <==> IsLetter(s[i])))
      && (forall i :: 0 <= i < |s| && !IsLetter(s[i]) ==> r[i] == s[i])
      && (forall i :: 0 <= i < |s| && IsLetter(s[i]) ==>
            (IsUpper(r[i]) <==> (if i == 0 then !afterLetter else !IsLetter(s[i - 1]))))
    decreases |s|
  {
    if s != [] {
      TitleFromAt(s[1..], IsLetter(s[0]));
      var r := TitleFrom(s, afterLetter);
      var t := TitleFrom(s[1..], IsLetter(s[0]));
      assert r[1..] == t;
      forall i | 1 <= i < |s|
        ensures ToLower(r[i]) == ToLower(s[i])
        ensures IsLetter(r[i]) <==> IsLetter(s[i])
        ensures !IsLetter(s[i]) ==> r[i] == s[i]
        ensures IsLetter(s[i]) ==> (IsUpper(r[i]) <==> !IsLetter(s[i - 1]))
      {
        assert r[i] == t[i - 1] && s[i] == s[1..][i - 1];
        if i > 1 {
          assert s[i - 1] == s[1..][i - 2];
        }
      }
    }
  }

  /** `str.title` over ASCII: the same text up to case, with the letters that
      start a word upper-case and every other letter lower-case. */
  lemma TitleShape(s: string)
    ensures var r := Title(s);
      && |r| == |s|
      && LowerAll(r) == LowerAll(s)
      && (forall i :: 0 <= i < |s| && !IsLetter(s[i]) ==> r[i] == s[i])
      && (forall i :: 0 <= i < |s| && IsLetter(s[i]) ==> (IsUpper(r[i]) <==> StartsWord(s, i)))
      && (forall i :: 0 <= i < |s| && IsLetter(s[i]) ==> (IsLower(r[i]) <==> !StartsWord(s, i)))
  {
    TitleFromAt(s, false);
  }

  // ---------------------------------------------------------------------
  // Joining, prefixes, suffixes, substrings

  /** `sep.join(parts)`. */
  function Join(sep: string, parts: seq<string>): string
  {
    if |parts| == 0 then ""
    else if |parts| == 1 then parts[0]
    else parts[0] + sep + Join(sep, parts[1..])
  }

  /** Joining one more part adds exactly one separator and the part, at the end. */
  lemma {:induction false} JoinSnoc(sep: string, parts: seq<string>, last: string)
    requires |parts| > 0
    ensures Join(sep, parts + [last]) == Join(sep, parts) + sep + last
  {
    if |parts| == 1 {
      assert parts + [last] == [parts[0], last];
      assert [parts[0], last][1..] == [last];
    } else {
      assert (parts + [last])[1..] == parts[1..] + [last];
      JoinSnoc(sep, parts[1..], last);
    }
  }

  /** Joining two non-empty runs of parts is joining each and putting one
      separator between them: order is kept and nothing is dropped. */
  lemma {:induction false} JoinAppend(sep: string, a: seq<string>, b: seq<string>)
    requires |a| > 0 && |b| > 0
    ensures Join(sep, a + b) == Join(sep, a) + sep + Join(sep, b)
    decreases |b|
  {
    if |b| == 1 {
      JoinSnoc(sep, a, b[0]);
      assert a + b == a + [b[0]];
    } else {
      var init := b[..|b| - 1];
      var last := b[|b| - 1];
      assert b == init + [last];
      assert a + b == (a + init) + [last];
      JoinAppend(sep, a, init);
      JoinSnoc(sep, a + init, last);
      JoinSnoc(sep, init, last);
    }
  }

  predicate IsPrefix(p: string, s: string) { |p| <= |s| && s[..|p|] == p }

  /** `s.endswith(suffix)`. */
  predicate EndsWith(s: string, suffix: string)
  {
    |suffix| <= |s| && s[|s| - |suffix|..] == suffix
  }

  /** Whether `sub` occurs in `s` starting at index `i`. */
  predicate OccursAt(s: string, sub: string, i: int)
  {
    0 <= i <= |s| - |sub| && s[i..i + |sub|] == sub
  }

  /** `sub in s` for strings. */
  predicate Contains(s: string, sub: string)
  {
    exists i :: 0 <= i <= |s| && OccursAt(s, sub, i)
  }

  // ---------------------------------------------------------------------
  // Paths (POSIX separators, as os.path does on Linux)

  /** `s.rfind(c)`: the last index holding `c`, or -1. */
  function LastIndexOf(s: string, c: char): (r: int)
    ensures -1 <= r < |s|
    ensures r >= 0 ==> s[r] == c
    ensures forall j :: r < j < |s| ==> s[j] != c
  {
    if s == [] then -1
    else if s[|s| - 1] == c then |s| - 1
    else LastIndexOf(s[..|s| - 1], c)
  }

  /** `os.path.basename(p)`: what follows the last '/'. */
  function BaseName(p: string): (r: string)
    ensures '/' !in r
    ensures |r| <= |p| && p[|p| - |r|..] == r
    ensures |r| < |p| ==> p[|p| - |r| - 1] == '/'
  {
    NoneAfterLast(p, '/');
    p[LastIndexOf(p, '/') + 1..]
  }

  /** What follows the last `c` of `s` holds no `c`. */
  lemma NoneAfterLast(s: string, c: char)
    ensures c !in s[LastIndexOf(s, c) + 1..]
  {
    var k := LastIndexOf(s, c) + 1;
    var r := s[k..];
    forall j | 0 <= j < |r| ensures r[j] != c {
      assert r[j] == s[k + j];
    }
  }

  predicate AllDots(s: string) { forall i :: 0 <= i < |s| ==> s[i] == '.' }

  /** `os.path.splitext(b)[0]` for a name `b` with no '/': the name without
      its last extension, where dots that only lead the name do not start
      an extension. */
  function Stem(b: string): string
  {
    var dot := LastIndexOf(b, '.');
    if dot > 0 && !AllDots(b[..dot]) then b[..dot] else b
  }

  /** The part of `b` that `Stem` removes. */
  function Extension(b: string): string
  {
    b[|Stem(b)|..]
  }

  /** `Stem` splits a name into a stem and an extension that is either empty
      or one dot followed by dot-free text, and the stem is never just dots
      unless nothing was removed. */
  lemma StemSplits(b: string)
    ensures IsPrefix(Stem(b), b)
    ensures b == Stem(b) + Extension(b)
    ensures var e := Extension(b); e == [] || (e[0] == '.' && '.' !in e[1..])
    ensures Extension(b) != [] ==> !AllDots(Stem(b))
  {
    var dot := LastIndexOf(b, '.');
    if dot > 0 && !AllDots(b[..dot]) {
      var e := b[dot..];
      assert Extension(b) == e;
      forall j | 0 <= j < |e[1..]| ensures e[1..][j] != '.' {
        assert e[1..][j] == b[dot + 1 + j];
      }
    }
  }

  /** A dot that is preceded by something other than dots marks an
      extension, and `Stem` removes an extension exactly when `b` has such
      a dot: a name like ".bashrc" or "..." keeps its whole text. */
  lemma StemRemovesExtension(b: string)
    ensures Extension(b) != [] <==>
      exists i :: 0 < i < |b| && b[i] == '.' && !AllDots(b[..i])
  {
    var dot := LastIndexOf(b, '.');
    if i :| 0 < i < |b| && b[i] == '.' && !AllDots(b[..i]) {
      assert i <= dot;
      NotAllDotsExtends(b, i, dot);
      assert |Stem(b)| == dot;
    }
  }

  /** A prefix that is not all dots stays so when it is extended. */
  lemma NotAllDotsExtends(b: string, i: nat, j: nat)
    requires i <= j <= |b|
    requires !AllDots(b[..i])
    ensures !AllDots(b[..j])
  {
    assert b[..i] == b[..j][..i];
  }

  // ---------------------------------------------------------------------
  // Numbers

  function DigitChar(d: nat): (c: char)
    requires d < 10
    ensures '0' <= c <= '9'
    ensures DigitValue(c) == d
  {
    ('0' as int + d) as char
  }

  function DigitValue(c: char): int
  {
    c as int - '0' as int
  }

  predicate AllDigits(s: string)
  {
    forall i :: 0 <= i < |s| ==> '0' <= s[i] <= '9'
  }

  /** The number a string of decimal digits denotes, as `int(s)` reads it. */
  function DigitsValue(s: string): int
  {
    if s == [] then 0 else 10 * DigitsValue(s[..|s| - 1]) + DigitValue(s[|s| - 1])
  }

  function NatDigits(n: nat): (r: string)
    ensures |r| > 0
    ensures forall i :: 0 <= i < |r| ==> '0' <= r[i] <= '9'
    decreases n
  {
    if n < 10 then [DigitChar(n)] else NatDigits(n / 10) + [DigitChar(n % 10)]
  }

  /** `NatDigits` writes the digits of `n` without leading zeros, and
      reading them back gives `n`. */
  lemma {:induction false} NatDigitsValue(n: nat)
    ensures DigitsValue(NatDigits(n)) == n
    ensures NatDigits(n)[0] == '0' ==> n == 0
    decreases n
  {
    if n >= 10 {
      var r := NatDigits(n);
      NatDigitsValue(n / 10);
      assert r[..|r| - 1] == NatDigits(n / 10);
    }
  }

  /** `str(n)` for an integer: a '-' for negatives, then decimal digits. */
  function Decimal(n: int): (r: string)
    ensures |r| > 0
  {
    if n < 0 then "-" + NatDigits(-n) else NatDigits(n)
  }

  /** `Decimal` writes `n` in canonical form: a '-' exactly for negative
      numbers, then digits without leading zeros whose value is |n|. */
  lemma DecimalValue(n: int)
    ensures var r := Decimal(n);
      && (r[0] == '-' <==> n < 0)
      && var digits := if n < 0 then r[1..] else r;
      && digits != [] && AllDigits(digits)
      && DigitsValue(digits) == (if n < 0 then -n else n)
      && (digits[0] == '0' ==> n == 0)
  {
    if n < 0 {
      var d := NatDigits(-n);
      NatDigitsValue(-n);
      assert Decimal(n) == "-" + d;
      assert Decimal(n)[0] == '-';
      assert Decimal(n)[1..] == d;
    } else {
      NatDigitsValue(n);
      assert Decimal(n) == NatDigits(n);
      assert '0' <= Decimal(n)[0] <= '9';
    }
  }
}
