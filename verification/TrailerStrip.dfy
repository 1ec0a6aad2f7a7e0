/**
 Commit trailers: `classify_message` and `strip_trailers` of `scripts/strip_ai_coauthors.py`, and the
 second stripper in `scripts/_strip_ai_coauthors_msg_filter.py`.
 */
module TrailerStrips {
  import opened Rows
  import opened PythonText

  /** A named pattern, tried on stripped lines. */
  datatype Rule = Rule(name: string, matches: string -> bool)

  /** No pattern matches the empty line. */
  ghost predicate Sensible(rules: seq<Rule>) {
    forall k :: 0 <= k < |rules| ==> !rules[k].matches("")
  }

  // `str.splitlines` and `"\n".join`.

  predicate LineBreak(c: char) {
    var n := c as int;
    0x0a <= n <= 0x0d || 0x1c <= n <= 0x1e || n == 0x85 || n == 0x2028 || n == 0x2029
  }

  lemma LineBreaks(c: char)
    ensures LineBreak(c) <==>
            c in "\n\U{b}\U{c}\r\U{1c}\U{1d}\U{1e}\U{85}\U{2028}\U{2029}"
  {
  }

  /** The lines of `s`, the first of which has already begun with `line`. "\r\n" ends one line. */
  function LinesFrom(line: string, s: string): seq<string>
    decreases |s|
  {
    if s == "" then (if line == "" then [] else [line])
    else if s[0] == '\r' && |s| > 1 && s[1] == '\n' then [line] + LinesFrom("", s[2..])
    else if LineBreak(s[0]) then [line] + LinesFrom("", s[1..])
    else LinesFrom(line + [s[0]], s[1..])
  }

  function Lines(s: string): seq<string> {
    LinesFrom("", s)
  }

  function JoinLines(lines: seq<string>): string {
    if lines == [] then ""
    else if |lines| == 1 then lines[0]
    else lines[0] + "\n" + JoinLines(lines[1..])
  }

  predicate EndsWithNewline(s: string) {
    s != "" && s[|s| - 1] == '\n'
  }

  // What the functions compute.

  predicate IsTrailer(rules: seq<Rule>, line: string) {
    exists k :: 0 <= k < |rules| && rules[k].matches(Strip(line))
  }

  function Kept(rules: seq<Rule>, lines: seq<string>): seq<string> {
    if lines == [] then []
    else Kept(rules, lines[..|lines| - 1]) + if IsTrailer(rules, lines[|lines| - 1]) then [] else [lines[|lines| - 1]]
  }

  function DropBlankTail(lines: seq<string>): seq<string> {
    if lines != [] && Strip(lines[|lines| - 1]) == "" then DropBlankTail(lines[..|lines| - 1]) else lines
  }

  function Survivors(rules: seq<Rule>, body: string): seq<string> {
    DropBlankTail(Kept(rules, Lines(body)))
  }

  function StripText(rules: seq<Rule>, body: string): string {
    var text := JoinLines(Survivors(rules, body));
    if EndsWithNewline(body) && text != "" then text + "\n" else text
  }

  /** `name` is a rule that some line matches. */
  ghost predicate Found(rules: seq<Rule>, lines: seq<string>, name: string) {
    exists i, k :: 0 <= i < |lines| && 0 <= k < |rules| && rules[k].name == name && rules[k].matches(Strip(lines[i]))
  }

  /** The rule that comes first of those the line matches. */
  predicate FirstMatch(rules: seq<Rule>, line: string, k: int) {
    0 <= k < |rules| && rules[k].matches(Strip(line)) && forall j :: 0 <= j < k ==> !rules[j].matches(Strip(line))
  }

  ghost predicate FoundFirst(rules: seq<Rule>, lines: seq<string>, name: string) {
    exists i, k :: 0 <= i < |lines| && FirstMatch(rules, lines[i], k) && rules[k].name == name
  }

  /** A stripped line for each rule it matches, in order. */
  function Samples(rules: seq<Rule>, lines: seq<string>): seq<string> {
    if lines == [] then []
    else Samples(rules, lines[..|lines| - 1]) + LineSamples(rules, lines[|lines| - 1])
  }

  function LineSamples(rules: seq<Rule>, line: string): seq<string> {
    if rules == [] then []
    else LineSamples(rules[..|rules| - 1], line) +
         if Strip(line) != "" && rules[|rules| - 1].matches(Strip(line)) then [Strip(line)] else []
  }

  function Categories(rules: seq<Rule>, lines: seq<string>): set<string> {
    if lines == [] then {}
    else Categories(rules, lines[..|lines| - 1]) + LineCategories(rules, lines[|lines| - 1])
  }

  function LineCategories(rules: seq<Rule>, line: string): set<string> {
    if rules == [] then {}
    else LineCategories(rules[..|rules| - 1], line) +
         if Strip(line) != "" && rules[|rules| - 1].matches(Strip(line)) then {rules[|rules| - 1].name} else {}
  }

  function Removed(rules: seq<Rule>, lines: seq<string>): set<string> {
    if lines == [] then {}
    else Removed(rules, lines[..|lines| - 1]) + FirstName(rules, lines[|lines| - 1])
  }

  function FirstName(rules: seq<Rule>, line: string): set<string> {
    if rules == [] then {}
    else if rules[0].matches(Strip(line)) then {rules[0].name}
    else FirstName(rules[1..], line)
  }

  function AtMost<T>(q: seq<T>, n: nat): seq<T> {
    if |q| <= n then q else q[..n]
  }

  const MAX_SAMPLES := 8

  // What the programs promise of their results.

  /**
   `text` has the lines of `body` that no pattern matches, in order, up to the last of them that is not
   blank, joined by newlines, with a newline at the end if `body` has one and anything is left.
   */
  ghost predicate Cleaned(patterns: seq<string -> bool>, body: string, text: string) {
    && (exists ps: seq<nat> :: CleanLines(patterns, Lines(body), ps, Lines(text)))
    && text == JoinLines(Lines(text)) + (if EndsWithNewline(body) && text != "" then "\n" else "")
  }

  /** The lines kept are those at positions `ps`. */
  ghost predicate CleanLines(patterns: seq<string -> bool>, lines: seq<string>, ps: seq<nat>, kept: seq<string>) {
    && Increasing(ps) && PositionsIn(ps, lines) && kept == At(lines, ps)
    && forall i: nat :: i in ps <==> i < |lines| && StaysAt(patterns, lines, i)
  }

  ghost predicate StaysAt(patterns: seq<string -> bool>, lines: seq<string>, i: nat)
    requires i < |lines|
  {
    && !Matched(patterns, lines[i])
    && exists j :: i <= j < |lines| && !Matched(patterns, lines[j]) && !Blank(lines[j])
  }

  ghost predicate Matched(patterns: seq<string -> bool>, line: string) {
    exists k :: 0 <= k < |patterns| && patterns[k](Strip(line))
  }

  function Patterns(rules: seq<Rule>): seq<string -> bool> {
    seq(|rules|, k requires 0 <= k < |rules| => rules[k].matches)
  }

  // The programs.

  method ClassifyMessage(rules: seq<Rule>, body: string) returns (categories: set<string>, samples: seq<string>)
    ensures categories == Categories(rules, Lines(body))
    ensures samples == AtMost(Samples(rules, Lines(body)), MAX_SAMPLES)
    ensures exists all :: Sampled(rules, Lines(body), all) && samples == if |all| <= 8 then all else all[..8]
  {
    categories, samples := {}, [];
    var lines := Lines(body);
    for i := 0 to |lines|
      invariant categories == Categories(rules, lines[..i])
      invariant samples == AtMost(Samples(rules, lines[..i]), MAX_SAMPLES)
    {
      LineNext(rules, lines, i);
      categories, samples := ClassifyLine(rules, lines[i], categories, samples, Samples(rules, lines[..i]));
    }
    assert lines[..|lines|] == lines;
    SamplesAreHits(rules, lines);
  }

  /** The body of the loop: blank lines are passed over, and a line is a sample of each rule it matches. */
  method ClassifyLine(rules: seq<Rule>, line: string, categories0: set<string>, samples0: seq<string>,
                      ghost all: seq<string>)
    returns (categories: set<string>, samples: seq<string>)
    requires samples0 == AtMost(all, MAX_SAMPLES)
    ensures categories == categories0 + LineCategories(rules, line)
    ensures samples == AtMost(all + LineSamples(rules, line), MAX_SAMPLES)
  {
    categories, samples := categories0, samples0;
    var stripped := Strip(line);
    if stripped == "" {
      BlankLine(rules, line);
      return;
    }
    for k := 0 to |rules|
      invariant categories == categories0 + LineCategories(rules[..k], line)
      invariant samples == AtMost(all + LineSamples(rules[..k], line), MAX_SAMPLES)
    {
      CategoryNext(rules, line, k);
      SampleNext(rules, line, k, all);
      if rules[k].matches(stripped) {
        categories := categories + {rules[k].name};
        if |samples| < MAX_SAMPLES {
          samples := samples + [stripped];
        }
      }
    }
    assert rules[..|rules|] == rules;
  }

  lemma AtMostNext(q: seq<string>, x: string)
    ensures var cut := AtMost(q, MAX_SAMPLES);
            AtMost(q + [x], MAX_SAMPLES) == if |cut| < MAX_SAMPLES then cut + [x] else cut
  {
  }

  method StripTrailers(rules: seq<Rule>, body: string) returns (newBody: string, removed: set<string>)
    ensures newBody == StripText(rules, body)
    ensures Cleaned(Patterns(rules), body, newBody)
    ensures removed == Removed(rules, Lines(body))
  {
    removed := {};
    var kept: seq<string> := [];
    var lines := Lines(body);
    for i := 0 to |lines|
      invariant kept == Kept(rules, lines[..i])
      invariant removed == Removed(rules, lines[..i])
    {
      var stripped := Strip(lines[i]);
      var matched := false;
      var k := 0;
      assert lines[..i + 1][..i] == lines[..i];
      while k < |rules|
        invariant 0 <= k <= |rules| && !matched
        invariant forall j :: 0 <= j < k ==> !rules[j].matches(stripped)
        invariant FirstName(rules[k..], lines[i]) == FirstName(rules, lines[i])
        invariant removed == Removed(rules, lines[..i])
      {
        if rules[k].matches(stripped) {
          removed := removed + {rules[k].name};
          matched := true;
          break;
        }
        k := k + 1;
      }
      if !matched {
        kept := kept + [lines[i]];
      }
    }
    assert lines[..|lines|] == lines;
    newBody := Finish(kept, body);
    StripTextCleans(rules, body);
  }

  method Finish(lines: seq<string>, body: string) returns (text: string)
    ensures var joined := JoinLines(DropBlankTail(lines));
            text == if EndsWithNewline(body) && joined != "" then joined + "\n" else joined
  {
    var kept := lines;
    while kept != [] && Strip(kept[|kept| - 1]) == ""
      invariant DropBlankTail(kept) == DropBlankTail(lines)
      decreases |kept|
    {
      kept := kept[..|kept| - 1];
    }
    text := JoinLines(kept);
    if EndsWithNewline(body) && text != "" {
      text := text + "\n";
    }
  }

  /** Reading text with universal newlines. */
  function Translate(s: string): string {
    if s == "" then ""
    else if s[0] == '\r' then "\n" + Translate(if |s| > 1 && s[1] == '\n' then s[2..] else s[1..])
    else [s[0]] + Translate(s[1..])
  }

  /** The filter knows the patterns but not their names, and reads its input as text. */
  method FilterMain(patterns: seq<string -> bool>, input: string) returns (out: string)
    ensures Cleaned(patterns, Translate(input), out)
    ensures forall rules: seq<Rule> ::
              (|rules| == |patterns| && forall k :: 0 <= k < |rules| ==> rules[k].matches == patterns[k]) ==>
              out == StripText(rules, Translate(input))
  {
    var body := Translate(input);
    ghost var unnamed := seq(|patterns|, k requires 0 <= k < |patterns| => Rule("", patterns[k]));
    var kept: seq<string> := [];
    var lines := Lines(body);
    for i := 0 to |lines|
      invariant kept == Kept(unnamed, lines[..i])
    {
      var stripped := Strip(lines[i]);
      assert lines[..i + 1][..i] == lines[..i];
      if exists k :: 0 <= k < |patterns| && patterns[k](stripped) {
        var k :| 0 <= k < |patterns| && patterns[k](stripped);
        assert unnamed[k].matches(stripped);
        assert IsTrailer(unnamed, lines[i]);
        continue;
      }
      kept := kept + [lines[i]];
    }
    assert lines[..|lines|] == lines;
    out := Finish(kept, body);
    StripTextCleans(unnamed, body);
    assert Patterns(unnamed) == patterns;
    forall rules: seq<Rule> | |rules| == |patterns| && forall k :: 0 <= k < |rules| ==> rules[k].matches == patterns[k]
      ensures out == StripText(rules, body)
    {
      assert Kept(unnamed, lines) == kept;
      NamesDoNotMatter(rules, unnamed, lines);
    }
  }

  lemma {:induction false} NamesDoNotMatter(rules: seq<Rule>, rules': seq<Rule>, lines: seq<string>)
    requires |rules| == |rules'| && forall k :: 0 <= k < |rules| ==> rules[k].matches == rules'[k].matches
    ensures Kept(rules, lines) == Kept(rules', lines)
  {
    if lines != [] {
      NamesDoNotMatter(rules, rules', lines[..|lines| - 1]);
      var last := lines[|lines| - 1];
      if IsTrailer(rules, last) {
        var k :| 0 <= k < |rules| && rules[k].matches(Strip(last));
        assert rules'[k].matches(Strip(last));
      }
      if IsTrailer(rules', last) {
        var k :| 0 <= k < |rules'| && rules'[k].matches(Strip(last));
        assert rules[k].matches(Strip(last));
      }
    }
  }

  lemma LineNext(rules: seq<Rule>, lines: seq<string>, i: nat)
    requires i < |lines|
    ensures Categories(rules, lines[..i + 1]) == Categories(rules, lines[..i]) + LineCategories(rules, lines[i])
    ensures Samples(rules, lines[..i + 1]) == Samples(rules, lines[..i]) + LineSamples(rules, lines[i])
  {
    assert lines[..i + 1][..i] == lines[..i];
  }

  lemma CategoryNext(rules: seq<Rule>, line: string, k: nat)
    requires k < |rules| && Strip(line) != ""
    ensures LineCategories(rules[..k + 1], line) ==
            LineCategories(rules[..k], line) + if rules[k].matches(Strip(line)) then {rules[k].name} else {}
  {
    assert rules[..k + 1][..k] == rules[..k];
  }

  lemma LineSampleNext(rules: seq<Rule>, line: string, k: nat)
    requires k < |rules| && Strip(line) != ""
    ensures LineSamples(rules[..k + 1], line) ==
            LineSamples(rules[..k], line) + if rules[k].matches(Strip(line)) then [Strip(line)] else []
  {
    assert rules[..k + 1][..k] == rules[..k];
  }

  lemma SampleNext(rules: seq<Rule>, line: string, k: nat, all: seq<string>)
    requires k < |rules| && Strip(line) != ""
    ensures var q := AtMost(all + LineSamples(rules[..k], line), MAX_SAMPLES);
            AtMost(all + LineSamples(rules[..k + 1], line), MAX_SAMPLES) ==
            if rules[k].matches(Strip(line)) && |q| < MAX_SAMPLES then q + [Strip(line)] else q
  {
    var q := LineSamples(rules[..k], line);
    LineSampleNext(rules, line, k);
    AtMostNext(all + q, Strip(line));
    assert all + (q + [Strip(line)]) == all + q + [Strip(line)];
    assert q + [] == q;
  }

  lemma {:induction false} BlankLine(rules: seq<Rule>, line: string)
    requires Strip(line) == ""
    ensures LineSamples(rules, line) == [] && LineCategories(rules, line) == {}
  {
    if rules != [] { BlankLine(rules[..|rules| - 1], line); }
  }

  // The samples.

  /** Rule number `rule` matches line number `line`. */
  datatype Hit = Hit(line: nat, rule: nat)

  predicate Earlier(a: Hit, b: Hit) {
    a.line < b.line || (a.line == b.line && a.rule < b.rule)
  }

  ghost predicate InOrder(hits: seq<Hit>) {
    forall a, b :: 0 <= a < b < |hits| ==> Earlier(hits[a], hits[b])
  }

  predicate IsHit(rules: seq<Rule>, lines: seq<string>, h: Hit) {
    h.line < |lines| && h.rule < |rules| && Strip(lines[h.line]) != "" && rules[h.rule].matches(Strip(lines[h.line]))
  }

  /** `all` has the stripped line of every hit, line by line and rule by rule. */
  ghost predicate Sampled(rules: seq<Rule>, lines: seq<string>, all: seq<string>) {
    exists hits: seq<Hit> :: HitsFor(rules, lines, hits, all)
  }

  ghost predicate HitsFor(rules: seq<Rule>, lines: seq<string>, hits: seq<Hit>, all: seq<string>) {
    && InOrder(hits) && (forall h :: h in hits <==> IsHit(rules, lines, h))
    && |all| == |hits|
    && forall k :: 0 <= k < |hits| ==> hits[k].line < |lines| && all[k] == Strip(lines[hits[k].line])
  }

  /** The same for one line, number i. */
  ghost predicate LineHitsFor(rules: seq<Rule>, line: string, i: nat, hits: seq<Hit>, all: seq<string>) {
    && InOrder(hits) && |all| == |hits|
    && (forall h :: h in hits <==>
          h.line == i && h.rule < |rules| && Strip(line) != "" && rules[h.rule].matches(Strip(line)))
    && (forall k :: 0 <= k < |hits| ==> hits[k].line == i)
    && forall k :: 0 <= k < |all| ==> all[k] == Strip(line)
  }

  function LineHits(rules: seq<Rule>, line: string, i: nat): seq<Hit> {
    if rules == [] then []
    else LineHits(rules[..|rules| - 1], line, i) +
         if Strip(line) != "" && rules[|rules| - 1].matches(Strip(line)) then [Hit(i, |rules| - 1)] else []
  }

  lemma {:induction false} LineHitsAre(rules: seq<Rule>, line: string, i: nat)
    ensures LineHitsFor(rules, line, i, LineHits(rules, line, i), LineSamples(rules, line))
  {
    if rules != [] {
      var init := rules[..|rules| - 1];
      LineHitsAre(init, line, i);
      var hits := LineHits(init, line, i);
      forall k | 0 <= k < |hits| ensures hits[k].rule < |init| {
        assert hits[k] in hits;
      }
    }
  }

  function Hits(rules: seq<Rule>, lines: seq<string>): seq<Hit> {
    if lines == [] then []
    else Hits(rules, lines[..|lines| - 1]) + LineHits(rules, lines[|lines| - 1], |lines| - 1)
  }

  lemma {:induction false} HitsAre(rules: seq<Rule>, lines: seq<string>)
    ensures HitsFor(rules, lines, Hits(rules, lines), Samples(rules, lines))
  {
    if lines != [] {
      var init, last := lines[..|lines| - 1], lines[|lines| - 1];
      HitsAre(rules, init);
      LineHitsAre(rules, last, |init|);
      HitsNext(rules, init, last, Hits(rules, init), Samples(rules, init),
               LineHits(rules, last, |init|), LineSamples(rules, last));
      assert init + [last] == lines;
    }
  }

  lemma HitsNext(rules: seq<Rule>, init: seq<string>, last: string, before: seq<Hit>, sampled: seq<string>,
                 here: seq<Hit>, more: seq<string>)
    requires HitsFor(rules, init, before, sampled) && LineHitsFor(rules, last, |init|, here, more)
    ensures HitsFor(rules, init + [last], before + here, sampled + more)
  {
    var lines := init + [last];
    forall h ensures h in before + here <==> IsHit(rules, lines, h) {
      assert h.line < |init| ==> init[h.line] == lines[h.line];
    }
  }

  lemma SamplesAreHits(rules: seq<Rule>, lines: seq<string>)
    ensures Sampled(rules, lines, Samples(rules, lines))
  {
    HitsAre(rules, lines);
  }

  // What the results mean.

  /** The categories are the names of the rules that some line matches. */
  lemma {:induction false} CategoriesAreFound(rules: seq<Rule>, lines: seq<string>, name: string)
    requires Sensible(rules)
    ensures name in Categories(rules, lines) <==> Found(rules, lines, name)
  {
    if lines != [] {
      var init, last := lines[..|lines| - 1], lines[|lines| - 1];
      CategoriesAreFound(rules, init, name);
      LineCategoriesAreFound(rules, last, name);
      FoundSnoc(rules, init, last, name);
      assert init + [last] == lines;
    }
  }

  lemma FoundSnoc(rules: seq<Rule>, init: seq<string>, last: string, name: string)
    ensures Found(rules, init + [last], name) <==> Found(rules, init, name) || LineFound(rules, last, name)
  {
    var lines := init + [last];
    if Found(rules, init, name) {
      var i, k :| 0 <= i < |init| && 0 <= k < |rules| && rules[k].name == name && rules[k].matches(Strip(init[i]));
      assert rules[k].matches(Strip(lines[i]));
    }
    if LineFound(rules, last, name) {
      var k :| 0 <= k < |rules| && rules[k].name == name && rules[k].matches(Strip(last));
      assert rules[k].matches(Strip(lines[|init|]));
    }
    if Found(rules, lines, name) {
      var i, k :| 0 <= i < |lines| && 0 <= k < |rules| && rules[k].name == name && rules[k].matches(Strip(lines[i]));
      if i < |init| { assert rules[k].matches(Strip(init[i])); }
    }
  }

  ghost predicate LineFound(rules: seq<Rule>, line: string, name: string) {
    exists k :: 0 <= k < |rules| && rules[k].name == name && rules[k].matches(Strip(line))
  }

  lemma {:induction false} LineCategoriesAreFound(rules: seq<Rule>, line: string, name: string)
    requires Sensible(rules)
    ensures name in LineCategories(rules, line) <==> LineFound(rules, line, name)
  {
    if rules != [] {
      LineCategoriesAreFound(rules[..|rules| - 1], line, name);
    }
  }

  /** The removed names are those of the first rule each trailer matches. */
  lemma {:induction false} RemovedAreFirst(rules: seq<Rule>, lines: seq<string>, name: string)
    ensures name in Removed(rules, lines) <==> FoundFirst(rules, lines, name)
  {
    if lines != [] {
      var init, last := lines[..|lines| - 1], lines[|lines| - 1];
      RemovedAreFirst(rules, init, name);
      FirstNameIsFirst(rules, last, name);
      if FoundFirst(rules, init, name) {
        var i, k :| 0 <= i < |init| && FirstMatch(rules, init[i], k) && rules[k].name == name;
        assert FirstMatch(rules, lines[i], k);
      }
      if k :| FirstMatch(rules, last, k) && rules[k].name == name {
        assert FirstMatch(rules, lines[|lines| - 1], k);
      }
      if FoundFirst(rules, lines, name) {
        var i, k :| 0 <= i < |lines| && FirstMatch(rules, lines[i], k) && rules[k].name == name;
        if i < |init| { assert FirstMatch(rules, init[i], k); }
      }
    }
  }

  lemma {:induction false} FirstNameIsFirst(rules: seq<Rule>, line: string, name: string)
    ensures name in FirstName(rules, line) <==> exists k :: FirstMatch(rules, line, k) && rules[k].name == name
  {
    if rules != [] {
      var rest := rules[1..];
      if rules[0].matches(Strip(line)) {
        assert FirstMatch(rules, line, 0);
      } else {
        FirstNameIsFirst(rest, line, name);
        if k :| FirstMatch(rest, line, k) && rest[k].name == name { assert FirstMatch(rules, line, k + 1); }
        if k :| FirstMatch(rules, line, k) && rules[k].name == name { assert FirstMatch(rest, line, k - 1); }
      }
    }
  }

  lemma {:induction false} TrailerHasFirst(rules: seq<Rule>, line: string, k: nat)
    requires k < |rules| && rules[k].matches(Strip(line))
    ensures exists j :: FirstMatch(rules, line, j)
  {
    if !FirstMatch(rules, line, k) {
      var j: nat :| j < k && rules[j].matches(Strip(line));
      TrailerHasFirst(rules, line, j);
    }
  }

  /** Something is removed exactly when classifying finds something, and nothing is removed that it does not find. */
  lemma RemovedVersusCategories(rules: seq<Rule>, body: string)
    requires Sensible(rules)
    ensures Removed(rules, Lines(body)) <= Categories(rules, Lines(body))
    ensures Removed(rules, Lines(body)) == {} <==> Categories(rules, Lines(body)) == {}
  {
    var lines := Lines(body);
    forall name | name in Removed(rules, lines) ensures name in Categories(rules, lines) {
      RemovedAreFirst(rules, lines, name);
      CategoriesAreFound(rules, lines, name);
      var i, k :| 0 <= i < |lines| && FirstMatch(rules, lines[i], k) && rules[k].name == name;
      assert rules[k].matches(Strip(lines[i]));
    }
    forall name | name in Categories(rules, lines) ensures Removed(rules, lines) != {} {
      CategoriesAreFound(rules, lines, name);
      var i, k :| 0 <= i < |lines| && 0 <= k < |rules| && rules[k].name == name && rules[k].matches(Strip(lines[i]));
      TrailerHasFirst(rules, lines[i], k);
      var j :| FirstMatch(rules, lines[i], j);
      RemovedAreFirst(rules, lines, rules[j].name);
    }
  }

  // Reading the result back.

  predicate OneLine(line: string) {
    forall i :: 0 <= i < |line| ==> !LineBreak(line[i])
  }

  lemma {:induction false} LinesAreOneLine(line: string, s: string)
    requires OneLine(line)
    ensures forall k :: 0 <= k < |LinesFrom(line, s)| ==> OneLine(LinesFrom(line, s)[k])
    decreases |s|
  {
    if s != "" {
      if s[0] == '\r' && |s| > 1 && s[1] == '\n' { LinesAreOneLine("", s[2..]); }
      else if LineBreak(s[0]) { LinesAreOneLine("", s[1..]); }
      else { LinesAreOneLine(line + [s[0]], s[1..]); }
    }
  }

  lemma {:induction false} ReadLine(line: string, more: string, rest: string)
    requires OneLine(more)
    ensures LinesFrom(line, more + "\n" + rest) == [line + more] + Lines(rest)
    ensures LinesFrom(line, more) == if line + more == "" then [] else [line + more]
    decreases |more|
  {
    var s := more + "\n" + rest;
    if more == "" {
      assert s == "\n" + rest && s[0] == '\n' && s[1..] == rest && line + more == line;
    } else {
      assert s[0] == more[0] && s[1..] == more[1..] + "\n" + rest;
      assert !LineBreak(more[0]);
      ReadLine(line + [more[0]], more[1..], rest);
      assert line + [more[0]] + more[1..] == line + more;
    }
  }

  /** Joined lines are read back, with or without a final newline, when the last is not empty. */
  lemma {:induction false} ReadBack(lines: seq<string>)
    requires forall k :: 0 <= k < |lines| ==> OneLine(lines[k])
    requires lines != [] ==> lines[|lines| - 1] != ""
    ensures Lines(JoinLines(lines)) == lines
    ensures lines != [] ==> JoinLines(lines) != "" && Lines(JoinLines(lines) + "\n") == lines
    ensures lines != [] ==> !EndsWithNewline(JoinLines(lines))
  {
    if |lines| == 1 {
      ReadOnly(lines[0]);
      assert [lines[0]] == lines;
    } else if |lines| > 1 {
      ReadBack(lines[1..]);
      ReadFirst(lines[0], JoinLines(lines[1..]));
      assert [lines[0]] + lines[1..] == lines;
    }
  }

  lemma ReadOnly(line: string)
    requires OneLine(line) && line != ""
    ensures Lines(line) == [line] && Lines(line + "\n") == [line] && !EndsWithNewline(line)
  {
    ReadLine("", line, "");
    assert "" + line == line && line + "\n" + "" == line + "\n";
  }

  lemma ReadFirst(line: string, rest: string)
    requires OneLine(line) && rest != ""
    ensures Lines(line + "\n" + rest) == [line] + Lines(rest)
    ensures Lines(line + "\n" + rest + "\n") == [line] + Lines(rest + "\n")
    ensures EndsWithNewline(line + "\n" + rest) == EndsWithNewline(rest)
  {
    ReadLine("", line, rest);
    ReadLine("", line, rest + "\n");
    assert "" + line == line;
    assert line + "\n" + (rest + "\n") == line + "\n" + rest + "\n";
    var whole := line + "\n" + rest;
    assert whole[|whole| - 1] == rest[|rest| - 1];
  }

  lemma {:induction false} KeptAreLines(rules: seq<Rule>, lines: seq<string>)
    requires forall k :: 0 <= k < |lines| ==> OneLine(lines[k])
    ensures forall k :: 0 <= k < |Kept(rules, lines)| ==>
              OneLine(Kept(rules, lines)[k]) && !IsTrailer(rules, Kept(rules, lines)[k])
  {
    if lines != [] { KeptAreLines(rules, lines[..|lines| - 1]); }
  }

  /** Only blank lines at the end are dropped, and all of those. */
  lemma {:induction false} TailDropped(lines: seq<string>)
    ensures var q := DropBlankTail(lines);
            && q <= lines && (forall k :: |q| <= k < |lines| ==> Blank(lines[k]))
            && (q != [] ==> !Blank(q[|q| - 1]))
  {
    if lines != [] {
      StripBlank(lines[|lines| - 1]);
      if Blank(lines[|lines| - 1]) { TailDropped(lines[..|lines| - 1]); }
    }
  }

  /** The lines of the stripped body are the lines that are no trailers, in order, less the blank ones at the end. */
  lemma StrippedLines(rules: seq<Rule>, body: string)
    ensures Lines(StripText(rules, body)) == Survivors(rules, body)
    ensures Survivors(rules, body) != [] ==> EndsWithNewline(StripText(rules, body)) == EndsWithNewline(body)
    ensures Survivors(rules, body) == [] ==> StripText(rules, body) == ""
    ensures forall k :: 0 <= k < |Survivors(rules, body)| ==> !IsTrailer(rules, Survivors(rules, body)[k])
  {
    var kept := Kept(rules, Lines(body));
    LinesAreOneLine("", body);
    KeptAreLines(rules, Lines(body));
    TailDropped(kept);
    ReadBack(DropBlankTail(kept));
  }

  lemma KeptOne(rules: seq<Rule>, init: seq<string>, last: string)
    requires !IsTrailer(rules, last)
    ensures Kept(rules, init + [last]) == Kept(rules, init) + [last]
  {
    assert (init + [last])[..|init|] == init;
  }

  lemma {:induction false} KeptIsFiltered(rules: seq<Rule>, lines: seq<string>, keep: string -> bool)
    requires forall line :: keep(line) <==> !Matched(Patterns(rules), line)
    ensures Filtered(lines, keep, Kept(rules, lines))
  {
    if lines == [] {
      FilteredNothing(keep);
    } else {
      var init, last := lines[..|lines| - 1], lines[|lines| - 1];
      KeptIsFiltered(rules, init, keep);
      FilteredSnoc(init, keep, Kept(rules, init), last);
      MatchedIsTrailer(rules, last);
      assert init + [last] == lines;
      assert Kept(rules, init) + [] == Kept(rules, init);
    }
  }

  lemma MatchedIsTrailer(rules: seq<Rule>, line: string)
    ensures Matched(Patterns(rules), line) <==> IsTrailer(rules, line)
  {
    if IsTrailer(rules, line) {
      var k :| 0 <= k < |rules| && rules[k].matches(Strip(line));
      assert Patterns(rules)[k](Strip(line));
    }
  }

  /** Cutting a blank tail cuts the positions after the last line that is kept and not blank. */
  lemma TailAt(patterns: seq<string -> bool>, lines: seq<string>, keep: string -> bool, ps: seq<nat>,
               kept: seq<string>, n: nat)
    requires forall line :: keep(line) <==> !Matched(patterns, line)
    requires Increasing(ps) && PositionsIn(ps, lines) && kept == At(lines, ps)
    requires forall i: nat :: i in ps <==> i < |lines| && keep(lines[i])
    requires n <= |kept| && forall k :: n <= k < |kept| ==> Blank(kept[k])
    requires n > 0 ==> !Blank(kept[n - 1])
    ensures CleanLines(patterns, lines, ps[..n], kept[..n])
  {
    forall i: nat ensures i in ps[..n] <==> i < |lines| && StaysAt(patterns, lines, i) {
      if i in ps[..n] { KeptStays(patterns, lines, keep, ps, kept, n, i); }
      if i < |lines| && StaysAt(patterns, lines, i) { StayingIsKept(patterns, lines, keep, ps, kept, n, i); }
    }
  }

  lemma KeptStays(patterns: seq<string -> bool>, lines: seq<string>, keep: string -> bool, ps: seq<nat>,
                  kept: seq<string>, n: nat, i: nat)
    requires forall line :: keep(line) <==> !Matched(patterns, line)
    requires Increasing(ps) && PositionsIn(ps, lines) && kept == At(lines, ps)
    requires forall i: nat :: i in ps <==> i < |lines| && keep(lines[i])
    requires n <= |kept| && (n > 0 ==> !Blank(kept[n - 1])) && i in ps[..n]
    ensures i < |lines| && StaysAt(patterns, lines, i)
  {
    var last := ps[n - 1];
    assert lines[last] == kept[n - 1] && last in ps && i in ps;
    assert i <= last;
  }

  lemma StayingIsKept(patterns: seq<string -> bool>, lines: seq<string>, keep: string -> bool, ps: seq<nat>,
                      kept: seq<string>, n: nat, i: nat)
    requires forall line :: keep(line) <==> !Matched(patterns, line)
    requires Increasing(ps) && PositionsIn(ps, lines) && kept == At(lines, ps)
    requires forall i: nat :: i in ps <==> i < |lines| && keep(lines[i])
    requires n <= |kept| && forall k :: n <= k < |kept| ==> Blank(kept[k])
    requires i < |lines| && StaysAt(patterns, lines, i)
    ensures i in ps[..n]
  {
    var j: nat :| i <= j < |lines| && !Matched(patterns, lines[j]) && !Blank(lines[j]);
    assert keep(lines[i]) && keep(lines[j]);
    var a :| 0 <= a < |ps| && ps[a] == i;
    var b :| 0 <= b < |ps| && ps[b] == j;
    assert kept[b] == lines[j];
    assert a <= b < n;
    assert ps[..n][a] == i;
  }

  lemma KeptCleans(rules: seq<Rule>, lines: seq<string>)
    ensures exists ps: seq<nat> :: CleanLines(Patterns(rules), lines, ps, DropBlankTail(Kept(rules, lines)))
  {
    var kept, keep := Kept(rules, lines), (line: string) => !IsTrailer(rules, line);
    forall line ensures keep(line) <==> !Matched(Patterns(rules), line) { MatchedIsTrailer(rules, line); }
    KeptIsFiltered(rules, lines, keep);
    var ps: seq<nat> :| Increasing(ps) && PositionsIn(ps, lines) && kept == At(lines, ps)
      && forall i: nat :: i in ps <==> i < |lines| && keep(lines[i]);
    var n := TailCut(kept);
    TailAt(Patterns(rules), lines, keep, ps, kept, n);
  }

  lemma TailCut(kept: seq<string>) returns (n: nat)
    ensures n <= |kept| && kept[..n] == DropBlankTail(kept)
    ensures (forall k :: n <= k < |kept| ==> Blank(kept[k])) && (n > 0 ==> !Blank(kept[n - 1]))
  {
    TailDropped(kept);
    n := |DropBlankTail(kept)|;
  }

  /** The whole of what stripping promises, without a word about how it is done. */
  lemma StripTextCleans(rules: seq<Rule>, body: string)
    ensures Cleaned(Patterns(rules), body, StripText(rules, body))
  {
    KeptCleans(rules, Lines(body));
    StrippedLines(rules, body);
    JoinedText(rules, body);
  }

  lemma JoinedText(rules: seq<Rule>, body: string)
    ensures var text := StripText(rules, body);
            text == JoinLines(Lines(text)) + (if EndsWithNewline(body) && text != "" then "\n" else "")
  {
    StrippedLines(rules, body);
    var text := JoinLines(Survivors(rules, body));
    assert text + "" == text;
    assert EndsWithNewline(body) && text != "" ==> StripText(rules, body) != "";
  }

  lemma {:induction false} KeptAll(rules: seq<Rule>, lines: seq<string>)
    requires forall k :: 0 <= k < |lines| ==> !IsTrailer(rules, lines[k])
    ensures Kept(rules, lines) == lines
  {
    if lines != [] {
      var init, last := lines[..|lines| - 1], lines[|lines| - 1];
      KeptAll(rules, init);
      KeptOne(rules, init, last);
      assert init + [last] == lines;
    }
  }

  lemma {:induction false} DropTwice(lines: seq<string>)
    ensures DropBlankTail(DropBlankTail(lines)) == DropBlankTail(lines)
  {
    if lines != [] && Strip(lines[|lines| - 1]) == "" { DropTwice(lines[..|lines| - 1]); }
  }

  lemma FoundIsTrailer(rules: seq<Rule>, lines: seq<string>, name: string)
    ensures Found(rules, lines, name) ==> exists i :: 0 <= i < |lines| && IsTrailer(rules, lines[i])
  {
  }

  /** Stripping leaves nothing to classify. */
  lemma StrippedIsClean(rules: seq<Rule>, body: string)
    requires Sensible(rules)
    ensures Categories(rules, Lines(StripText(rules, body))) == {}
    ensures Removed(rules, Lines(StripText(rules, body))) == {}
  {
    StrippedLines(rules, body);
    var lines := Lines(StripText(rules, body));
    forall name ensures name !in Categories(rules, lines) {
      CategoriesAreFound(rules, lines, name);
      FoundIsTrailer(rules, lines, name);
    }
    RemovedVersusCategories(rules, StripText(rules, body));
  }

  /** Stripping twice is stripping once. */
  lemma StripIsIdempotent(rules: seq<Rule>, body: string)
    ensures StripText(rules, StripText(rules, body)) == StripText(rules, body)
  {
    StrippedLines(rules, body);
    KeptAll(rules, Survivors(rules, body));
    DropTwice(Kept(rules, Lines(body)));
  }

  // The two strippers.

  predicate EndsWithReturn(s: string) {
    s != "" && s[|s| - 1] == '\r'
  }

  lemma {:induction false} TranslatedLines(line: string, s: string)
    ensures LinesFrom(line, Translate(s)) == LinesFrom(line, s)
    ensures EndsWithNewline(Translate(s)) <==> EndsWithNewline(s) || EndsWithReturn(s)
    ensures s != "" ==> Translate(s) != ""
    decreases |s|
  {
    if s != "" {
      var t, rest := Translate(s), AfterBreak(s);
      TranslateFirst(s);
      LinesFirst(line, s);
      LinesFirst(line, t);
      TranslatedLines(if LineBreak(s[0]) then "" else line + [s[0]], rest);
    }
  }

  lemma LinesFirst(line: string, s: string)
    requires s != ""
    ensures LinesFrom(line, s) ==
            if LineBreak(s[0]) then [line] + LinesFrom("", AfterBreak(s)) else LinesFrom(line + [s[0]], AfterBreak(s))
    ensures s[0] != '\r' ==> AfterBreak(s) == s[1..]
    ensures AfterBreak(s) != "" ==> AfterBreak(s)[|AfterBreak(s)| - 1] == s[|s| - 1]
    ensures AfterBreak(s) == "" ==> s[|s| - 1] == s[0] || s == "\r\n"
  {
  }

  function AfterBreak(s: string): string
    requires s != ""
  {
    if s[0] == '\r' && |s| > 1 && s[1] == '\n' then s[2..] else s[1..]
  }

  lemma TranslateFirst(s: string)
    requires s != ""
    ensures var t := Translate(s);
            && t != "" && t[1..] == Translate(AfterBreak(s)) && t[0] == (if s[0] == '\r' then '\n' else s[0])
  {
  }

  /** The filter and `strip_trailers` agree unless a message ends in a bare carriage return and something survives. */
  lemma StrippersAgree(rules: seq<Rule>, body: string)
    ensures StripText(rules, Translate(body)) == StripText(rules, body) <==>
            !EndsWithReturn(body) || Survivors(rules, body) == []
    ensures Survivors(rules, Translate(body)) == Survivors(rules, body)
  {
    TranslatedLines("", body);
    StrippedLines(rules, body);
    StrippedLines(rules, Translate(body));
  }
}
