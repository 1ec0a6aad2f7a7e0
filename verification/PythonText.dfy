/** Python's `str.strip`, `str.split` without arguments, `" ".join` and `str` of a natural number. */
module PythonText {

  /** `str.isspace` for one character. */
  predicate Space(c: char) {
    var n := c as int;
    || 0x09 <= n <= 0x0d || 0x1c <= n <= 0x20 || n == 0x85 || n == 0xa0 || n == 0x1680
    || 0x2000 <= n <= 0x200a || n == 0x2028 || n == 0x2029 || n == 0x202f || n == 0x205f || n == 0x3000
  }

  lemma Spaces(c: char)
    ensures Space(c) <==>
            c in "\t\n\U{b}\U{c}\r\U{1c}\U{1d}\U{1e}\U{1f} \U{85}\U{a0}\U{1680}" ||
            c in "\U{2000}\U{2001}\U{2002}\U{2003}\U{2004}\U{2005}\U{2006}\U{2007}\U{2008}\U{2009}\U{200a}" ||
            c in "\U{2028}\U{2029}\U{202f}\U{205f}\U{3000}"
  {
  }

  predicate NoSpace(s: string) {
    forall i :: 0 <= i < |s| ==> !Space(s[i])
  }

  predicate Blank(s: string) {
    forall i :: 0 <= i < |s| ==> Space(s[i])
  }

  function LeftStrip(s: string): string {
    if s != "" && Space(s[0]) then LeftStrip(s[1..]) else s
  }

  function RightStrip(s: string): string {
    if s != "" && Space(s[|s| - 1]) then RightStrip(s[..|s| - 1]) else s
  }

  function Strip(s: string): string {
    RightStrip(LeftStrip(s))
  }

  /** The words of `s`, the first of which has already begun with `word`. */
  function SplitFrom(word: string, s: string): seq<string>
    decreases |s|
  {
    if s == "" then Finished(word)
    else if Space(s[0]) then Finished(word) + SplitFrom("", s[1..])
    else SplitFrom(word + [s[0]], s[1..])
  }

  function Finished(word: string): seq<string> {
    if word == "" then [] else [word]
  }

  function Split(s: string): seq<string> {
    SplitFrom("", s)
  }

  function Join(words: seq<string>): string {
    if words == [] then ""
    else if |words| == 1 then words[0]
    else Join(words[..|words| - 1]) + " " + words[|words| - 1]
  }

  function Digit(d: nat): char
    requires d < 10
  {
    (d + 48) as char
  }

  function Decimal(n: nat): string {
    if n < 10 then [Digit(n)] else Decimal(n / 10) + [Digit(n % 10)]
  }

  predicate IsDigit(c: char) { '0' <= c <= '9' }

  // Splitting.

  /** A space always separates: what comes before it and after it are split on their own. */
  lemma {:induction false} SplitAtSpace(word: string, s: string, space: char, t: string)
    requires Space(space)
    ensures SplitFrom(word, s + [space] + t) == SplitFrom(word, s) + Split(t)
    decreases |s|
  {
    var whole := s + [space] + t;
    if s == "" {
      assert whole[1..] == t;
    } else {
      assert whole[1..] == s[1..] + [space] + t;
      if Space(s[0]) {
        SplitAtSpace("", s[1..], space, t);
      } else {
        SplitAtSpace(word + [s[0]], s[1..], space, t);
      }
    }
  }

  lemma {:induction false} SplitWord(word: string, s: string)
    requires NoSpace(s)
    ensures SplitFrom(word, s) == Finished(word + s)
    decreases |s|
  {
    if s == "" {
      assert word + s == word;
    } else {
      SplitWord(word + [s[0]], s[1..]);
      assert word + [s[0]] + s[1..] == word + s;
    }
  }

  lemma {:induction false} SplitLeftStrip(s: string)
    ensures Split(LeftStrip(s)) == Split(s)
  {
    if s != "" && Space(s[0]) { SplitLeftStrip(s[1..]); }
  }

  lemma {:induction false} SplitRightStrip(s: string)
    ensures Split(RightStrip(s)) == Split(s)
  {
    if s != "" && Space(s[|s| - 1]) {
      var init := s[..|s| - 1];
      SplitRightStrip(init);
      SplitAtSpace("", init, s[|s| - 1], "");
      assert init + [s[|s| - 1]] + "" == s;
      assert Split("") == [];
    }
  }

  lemma SplitStrip(s: string)
    ensures Split(Strip(s)) == Split(s)
  {
    SplitLeftStrip(s);
    SplitRightStrip(LeftStrip(s));
  }

  /** There is a word unless everything is space. */
  lemma {:induction false} SplitBlank(word: string, s: string)
    ensures SplitFrom(word, s) == [] <==> word == "" && Blank(s)
    decreases |s|
  {
    if s != "" {
      if Space(s[0]) {
        SplitBlank("", s[1..]);
        assert Blank(s) <==> Blank(s[1..]);
      } else {
        SplitBlank(word + [s[0]], s[1..]);
      }
    }
  }

  lemma {:induction false} SplitWords(word: string, s: string)
    requires NoSpace(word)
    ensures forall k :: 0 <= k < |SplitFrom(word, s)| ==> SplitFrom(word, s)[k] != "" && NoSpace(SplitFrom(word, s)[k])
    decreases |s|
  {
    if s != "" {
      if Space(s[0]) { SplitWords("", s[1..]); } else { SplitWords(word + [s[0]], s[1..]); }
    }
  }

  // Stripping.

  lemma {:induction false} LeftStripBlank(s: string)
    ensures LeftStrip(s) == "" <==> Blank(s)
    ensures LeftStrip(s) != "" ==> !Space(LeftStrip(s)[0])
  {
    if s != "" && Space(s[0]) {
      LeftStripBlank(s[1..]);
      assert Blank(s) <==> Blank(s[1..]);
    }
  }

  lemma {:induction false} RightStripBlank(s: string)
    ensures RightStrip(s) == "" <==> Blank(s)
    ensures RightStrip(s) != "" ==> !Space(RightStrip(s)[|RightStrip(s)| - 1]) && RightStrip(s)[0] == s[0]
  {
    if s != "" && Space(s[|s| - 1]) {
      var init := s[..|s| - 1];
      RightStripBlank(init);
      assert Blank(s) <==> Blank(init);
    }
  }

  lemma StripBlank(s: string)
    ensures Strip(s) == "" <==> Blank(s)
  {
    LeftStripBlank(s);
    RightStripBlank(LeftStrip(s));
  }

  /** Nothing is left to strip. */
  lemma StripTwice(s: string)
    ensures Strip(Strip(s)) == Strip(s)
  {
    LeftStripBlank(s);
    RightStripBlank(LeftStrip(s));
  }

  /** What is stripped is the space at either end, and nothing else. */
  lemma StripIsMiddle(s: string) returns (before: string, after: string)
    ensures s == before + Strip(s) + after && Blank(before) && Blank(after)
    ensures Strip(s) != "" ==> !Space(Strip(s)[0]) && !Space(Strip(s)[|Strip(s)| - 1])
  {
    before := LeftStripSuffix(s);
    after := RightStripPrefix(LeftStrip(s));
    LeftStripBlank(s);
    RightStripBlank(LeftStrip(s));
  }

  lemma {:induction false} LeftStripSuffix(s: string) returns (before: string)
    ensures s == before + LeftStrip(s) && Blank(before)
  {
    if s != "" && Space(s[0]) {
      var rest := LeftStripSuffix(s[1..]);
      before := [s[0]] + rest;
    } else {
      before := "";
    }
  }

  lemma {:induction false} RightStripPrefix(s: string) returns (after: string)
    ensures s == RightStrip(s) + after && Blank(after)
  {
    if s != "" && Space(s[|s| - 1]) {
      var rest := RightStripPrefix(s[..|s| - 1]);
      after := rest + [s[|s| - 1]];
    } else {
      after := "";
    }
  }

  // Splitting and joining.

  lemma JoinSnoc(words: seq<string>, word: string)
    requires words != []
    ensures Join(words + [word]) == Join(words) + " " + word
  {
    assert (words + [word])[..|words|] == words;
  }

  /** Words are what `split` makes: none empty, none with a space in it. */
  ghost predicate AreWords(words: seq<string>) {
    forall k :: 0 <= k < |words| ==> words[k] != "" && NoSpace(words[k])
  }

  /** Joined words split into the same words. */
  lemma {:induction false} SplitJoin(words: seq<string>)
    requires AreWords(words)
    ensures Split(Join(words)) == words
  {
    if words != [] {
      var init, last := words[..|words| - 1], words[|words| - 1];
      SplitWord("", last);
      assert "" + last == last && init + [last] == words;
      if init != [] {
        SplitJoin(init);
        JoinSnoc(init, last);
        SplitAtSpace("", Join(init), ' ', last);
        assert Join(init) + " " + last == Join(init) + [' '] + last;
      }
    }
  }

  // Numbers.

  /** A decimal numeral read back. */
  function Value(digits: string): int
    requires forall i :: 0 <= i < |digits| ==> IsDigit(digits[i])
  {
    if digits == "" then 0 else 10 * Value(digits[..|digits| - 1]) + (digits[|digits| - 1] as int - 48)
  }

  /** `str(n)` reads as n and has no leading zero. */
  lemma {:induction false} DecimalReads(n: nat)
    ensures forall i :: 0 <= i < |Decimal(n)| ==> IsDigit(Decimal(n)[i])
    ensures Value(Decimal(n)) == n
    ensures Decimal(n) != "" && (n > 0 ==> Decimal(n)[0] != '0')
  {
    DecimalDigits(n);
    if n >= 10 {
      DecimalReads(n / 10);
      assert Decimal(n)[..|Decimal(n)| - 1] == Decimal(n / 10);
    } else {
      assert Decimal(n)[..0] == "";
    }
  }

  lemma {:induction false} DecimalDigits(n: nat)
    ensures Decimal(n) != "" && forall i :: 0 <= i < |Decimal(n)| ==> IsDigit(Decimal(n)[i])
  {
    if n >= 10 { DecimalDigits(n / 10); }
  }

  lemma DecimalNoSpace(n: nat)
    ensures NoSpace(Decimal(n))
  {
    DecimalDigits(n);
  }

  lemma {:induction false} DecimalInjective(m: nat, n: nat)
    requires Decimal(m) == Decimal(n)
    ensures m == n
    decreases m + n
  {
    DecimalDigits(m / 10);
    DecimalDigits(n / 10);
    var a, b := Decimal(m), Decimal(n);
    if m >= 10 && n >= 10 {
      assert a[..|a| - 1] == Decimal(m / 10) && b[..|b| - 1] == Decimal(n / 10);
      DecimalInjective(m / 10, n / 10);
      assert a[|a| - 1] == Digit(m % 10) && b[|b| - 1] == Digit(n % 10);
    }
  }

  // A comprehension with an inner loop.

  function Collect<T, U>(f: T -> seq<U>, q: seq<T>): seq<U> {
    if q == [] then [] else f(q[0]) + Collect(f, q[1..])
  }

  lemma {:induction false} CollectConcat<T, U>(f: T -> seq<U>, a: seq<T>, b: seq<T>)
    ensures Collect(f, a + b) == Collect(f, a) + Collect(f, b)
  {
    if a == [] {
      assert a + b == b;
    } else {
      CollectConcat(f, a[1..], b);
      assert (a + b)[1..] == a[1..] + b;
    }
  }
}
