/**
 Names made unique: `_normalize_name`, `_dedupe_users_display_names` and `_dedupe_artists` of
 `alembic/versions/0075_user_owned_artist_and_name_uniqueness.py`.
 */
module NameDedupes {
  import opened Wrappers
  import opened Rows
  import opened PythonText

  /** `str.lower`, one character at a time. */
  type Lowering = char -> string

  /** It leaves spaces and digits alone, and makes no character vanish. */
  ghost predicate Plain(lower: Lowering) {
    && (forall c :: Space(c) || IsDigit(c) ==> lower(c) == [c])
    && (forall c :: lower(c) != "")
  }

  function Lower(lower: Lowering, s: string): string {
    Collect(lower, s)
  }

  function Normalize(lower: Lowering, raw: Option<string>): Option<string> {
    if raw.None? then None
    else
      var value := Lower(lower, Join(Split(Strip(raw.value))));
      if value == "" then None else Some(value)
  }

  function Suffixed(stem: string, k: nat): string {
    stem + " " + Decimal(k)
  }

  // Normalising a suffixed name.

  lemma LowerConcat(lower: Lowering, s: string, t: string)
    ensures Lower(lower, s + t) == Lower(lower, s) + Lower(lower, t)
  {
    CollectConcat(lower, s, t);
  }

  lemma {:induction false} LowerDigits(lower: Lowering, s: string)
    requires Plain(lower) && forall i :: 0 <= i < |s| ==> IsDigit(s[i])
    ensures Lower(lower, s) == s
  {
    if s != "" {
      LowerDigits(lower, s[1..]);
      assert IsDigit(s[0]) && lower(s[0]) == [s[0]];
      assert [s[0]] + s[1..] == s;
    }
  }

  lemma LowerSpace(lower: Lowering)
    requires Plain(lower)
    ensures Lower(lower, " ") == " "
  {
    assert Collect(lower, " "[1..]) == "";
    assert Space(' ');
  }

  lemma JoinNonEmpty(words: seq<string>)
    requires words != [] && forall k :: 0 <= k < |words| ==> words[k] != ""
    ensures Join(words) != ""
  {
    assert |words| == 1 ==> Join(words) == words[0];
  }

  /** Only a name of nothing but spaces has no normal form. */
  lemma NormalOfBlank(lower: Lowering, raw: string)
    requires Plain(lower)
    ensures Normalize(lower, Some(raw)).None? <==> Blank(raw)
  {
    var words := Split(Strip(raw));
    SplitStrip(raw);
    SplitBlank("", raw);
    SplitWords("", raw);
    if words != [] {
      JoinNonEmpty(words);
      LowerGrows(lower, Join(words));
    }
  }

  lemma {:induction false} LowerGrows(lower: Lowering, s: string)
    requires Plain(lower)
    ensures |Lower(lower, s)| >= |s|
  {
    if s != "" {
      LowerGrows(lower, s[1..]);
      assert lower(s[0]) != "";
    }
  }

  /** norm("stem k") = norm("stem") + " k": in the loops there is always a normal form, so the fallbacks never apply. */
  lemma NormalOfSuffixed(lower: Lowering, stem: string, k: nat)
    requires Plain(lower) && !Blank(stem)
    ensures Normalize(lower, Some(stem)).Some?
    ensures Normalize(lower, Some(Suffixed(stem, k))) == Some(Suffixed(Normalize(lower, Some(stem)).value, k))
  {
    NormalOfBlank(lower, stem);
    SplitOfSuffixed(stem, k);
    SplitStrip(stem);
    JoinSnoc(Split(stem), Decimal(k));
    LowerSuffixed(lower, Join(Split(stem)), k);
  }

  lemma SplitOfSuffixed(stem: string, k: nat)
    requires !Blank(stem)
    ensures Split(stem) != [] && Split(Strip(Suffixed(stem, k))) == Split(stem) + [Decimal(k)]
  {
    SplitStrip(Suffixed(stem, k));
    SplitAtSpace("", stem, ' ', Decimal(k));
    DecimalDigits(k);
    SplitWord("", Decimal(k));
    assert "" + Decimal(k) == Decimal(k);
    SplitBlank("", stem);
  }

  lemma LowerSuffixed(lower: Lowering, s: string, k: nat)
    requires Plain(lower)
    ensures Lower(lower, Suffixed(s, k)) == Suffixed(Lower(lower, s), k)
  {
    LowerConcat(lower, s + " ", Decimal(k));
    LowerConcat(lower, s, " ");
    LowerSpace(lower);
    DecimalDigits(k);
    LowerDigits(lower, Decimal(k));
  }

  /** Stripping does not change the normal form. */
  lemma NormalOfStripped(lower: Lowering, raw: string)
    ensures Normalize(lower, Some(Strip(raw))) == Normalize(lower, Some(raw))
  {
    SplitStrip(raw);
    SplitStrip(Strip(raw));
  }

  lemma SuffixInjective(a: string, m: nat, n: nat)
    requires Suffixed(a, m) == Suffixed(a, n)
    ensures m == n
  {
    assert Suffixed(a, m)[|a| + 1..] == Decimal(m);
    assert Suffixed(a, n)[|a| + 1..] == Decimal(n);
    DecimalInjective(m, n);
  }

  // Case and spacing.

  /** It makes no spaces either. */
  ghost predicate MakesNoSpace(lower: Lowering) {
    forall c :: !Space(c) ==> NoSpace(lower(c))
  }

  function LowerWords(lower: Lowering, words: seq<string>): seq<string> {
    if words == [] then [] else LowerWords(lower, words[..|words| - 1]) + [Lower(lower, words[|words| - 1])]
  }

  lemma LowerWordsSnoc(lower: Lowering, words: seq<string>, word: string)
    ensures LowerWords(lower, words + [word]) == LowerWords(lower, words) + [Lower(lower, word)]
  {
    assert (words + [word])[..|words|] == words;
  }

  lemma {:induction false} LowerNoSpace(lower: Lowering, s: string)
    requires MakesNoSpace(lower) && NoSpace(s)
    ensures NoSpace(Lower(lower, s))
  {
    if s != "" {
      LowerNoSpace(lower, s[1..]);
      assert NoSpace(lower(s[0]));
    }
  }

  lemma {:induction false} LowerAreWords(lower: Lowering, words: seq<string>)
    requires Plain(lower) && MakesNoSpace(lower) && AreWords(words)
    ensures AreWords(LowerWords(lower, words)) && |LowerWords(lower, words)| == |words|
  {
    if words != [] {
      var init, last := words[..|words| - 1], words[|words| - 1];
      LowerAreWords(lower, init);
      LowerNoSpace(lower, last);
      LowerGrows(lower, last);
    }
  }

  lemma {:induction false} LowerJoin(lower: Lowering, words: seq<string>)
    requires Plain(lower)
    ensures Lower(lower, Join(words)) == Join(LowerWords(lower, words)) && |LowerWords(lower, words)| == |words|
  {
    if words != [] {
      var init, last := words[..|words| - 1], words[|words| - 1];
      LowerJoin(lower, init);
      assert init + [last] == words;
      if init != [] {
        JoinSnoc(init, last);
        JoinSnoc(LowerWords(lower, init), Lower(lower, last));
        LowerConcat(lower, Join(init) + " ", last);
        LowerConcat(lower, Join(init), " ");
        LowerSpace(lower);
      }
    }
  }

  /** The normal form is the lower-cased words with one space between them. */
  lemma NormalIsJoinedWords(lower: Lowering, raw: string)
    requires Plain(lower)
    ensures Normalize(lower, Some(raw)) ==
            if Split(raw) == [] then None else Some(Join(LowerWords(lower, Split(raw))))
  {
    SplitStrip(raw);
    LowerJoin(lower, Split(raw));
    NormalOfBlank(lower, raw);
    SplitBlank("", raw);
  }

  /** Two names have one normal form exactly when their lower-cased words are the same, in the same order. */
  lemma SameNormalIffSameWords(lower: Lowering, a: string, b: string)
    requires Plain(lower) && MakesNoSpace(lower)
    ensures Normalize(lower, Some(a)) == Normalize(lower, Some(b)) <==>
            LowerWords(lower, Split(a)) == LowerWords(lower, Split(b))
  {
    NormalIsJoinedWords(lower, a);
    NormalIsJoinedWords(lower, b);
    SplitWords("", a);
    SplitWords("", b);
    LowerAreWords(lower, Split(a));
    LowerAreWords(lower, Split(b));
    SplitJoin(LowerWords(lower, Split(a)));
    SplitJoin(LowerWords(lower, Split(b)));
  }

  /** Lower-casing before splitting, or after, comes to the same. */
  lemma {:induction false} LowerThenSplit(lower: Lowering, word: string, s: string)
    requires Plain(lower) && MakesNoSpace(lower) && NoSpace(word)
    ensures SplitFrom(Lower(lower, word), Lower(lower, s)) == LowerWords(lower, SplitFrom(word, s))
    decreases |s|
  {
    LowerGrows(lower, word);
    if s == "" {
      LowerFinished(lower, word);
    } else {
      var c, rest := s[0], s[1..];
      assert s == [c] + rest;
      LowerOne(lower, c);
      LowerConcat(lower, [c], rest);
      if Space(c) {
        LowerThenSplit(lower, "", rest);
        LowerFinished(lower, word);
        LowerWordsConcat(lower, Finished(word), SplitFrom("", rest));
        assert Lower(lower, s)[0] == c && Lower(lower, s)[1..] == Lower(lower, rest);
      } else {
        LowerThenSplit(lower, word + [c], rest);
        LowerConcat(lower, word, [c]);
        SplitOn(Lower(lower, word), lower(c), Lower(lower, rest));
      }
    }
  }

  lemma LowerOne(lower: Lowering, c: char)
    ensures Lower(lower, [c]) == lower(c)
  {
    assert Collect(lower, [c][1..]) == "";
  }

  lemma LowerFinished(lower: Lowering, word: string)
    requires Plain(lower)
    ensures LowerWords(lower, Finished(word)) == Finished(Lower(lower, word))
  {
    LowerGrows(lower, word);
    LowerWordsSnoc(lower, [], word);
    assert [] + [word] == [word] && LowerWords(lower, []) == [];
  }

  lemma {:induction false} LowerWordsConcat(lower: Lowering, a: seq<string>, b: seq<string>)
    ensures LowerWords(lower, a + b) == LowerWords(lower, a) + LowerWords(lower, b)
  {
    if b == [] {
      assert a + b == a;
    } else {
      var init, last := b[..|b| - 1], b[|b| - 1];
      LowerWordsConcat(lower, a, init);
      LowerWordsSnoc(lower, a + init, last);
      assert a + init + [last] == a + b;
    }
  }

  lemma {:induction false} SplitOn(word: string, more: string, rest: string)
    requires NoSpace(more)
    ensures SplitFrom(word, more + rest) == SplitFrom(word + more, rest)
    decreases |more|
  {
    if more == "" {
      assert more + rest == rest && word + more == word;
    } else {
      assert (more + rest)[0] == more[0] && (more + rest)[1..] == more[1..] + rest;
      SplitOn(word + [more[0]], more[1..], rest);
      assert word + [more[0]] + more[1..] == word + more;
    }
  }

  /** Names that differ only in case have one normal form. */
  lemma CaseIsIgnored(lower: Lowering, a: string, b: string)
    requires Plain(lower) && MakesNoSpace(lower) && Lower(lower, a) == Lower(lower, b)
    ensures Normalize(lower, Some(a)) == Normalize(lower, Some(b))
  {
    LowerThenSplit(lower, "", a);
    LowerThenSplit(lower, "", b);
    SameNormalIffSameWords(lower, a, b);
  }

  /** So have names that differ only in spacing. */
  lemma SpacingIsIgnored(lower: Lowering, a: string, b: string)
    requires Plain(lower) && Split(a) == Split(b)
    ensures Normalize(lower, Some(a)) == Normalize(lower, Some(b))
  {
    NormalIsJoinedWords(lower, a);
    NormalIsJoinedWords(lower, b);
  }

  // Which name a row gets.

  /**
   With `base` free, the first name; otherwise "stem k" for the least k from 2 whose normal form is free.
   `norm` is the normal form of the stem.
   */
  ghost predicate FirstFree(stem: string, norm: string, first: string, base: string, taken: set<string>,
                            finalName: string, finalNorm: string) {
    if base !in taken then finalName == first && finalNorm == base
    else
      exists k: nat ::
        k >= 2 && LeastFree(norm, taken, k) && finalName == Suffixed(stem, k) && finalNorm == Suffixed(norm, k)
  }

  ghost predicate LeastFree(norm: string, taken: set<string>, k: nat) {
    Suffixed(norm, k) !in taken && forall j: nat :: 2 <= j < k ==> Suffixed(norm, j) in taken
  }

  /** What the loops have tried before suffix `k`. */
  function Tried(norm: string, base: string, k: nat): set<string>
    requires k >= 2
  {
    if k == 2 then {base} else Tried(norm, base, k - 1) + {Suffixed(norm, k - 1)}
  }

  lemma {:induction false} TriedAre(norm: string, base: string, k: nat)
    requires k >= 2 && forall j: nat :: base != Suffixed(norm, j)
    ensures |Tried(norm, base, k)| == k - 1
    ensures Suffixed(norm, k) !in Tried(norm, base, k)
    ensures forall x :: x in Tried(norm, base, k) ==> x == base || exists j: nat :: 2 <= j < k && x == Suffixed(norm, j)
  {
    if k > 2 {
      TriedAre(norm, base, k - 1);
      forall j: nat | j < k ensures Suffixed(norm, j) != Suffixed(norm, k) {
        if Suffixed(norm, j) == Suffixed(norm, k) { SuffixInjective(norm, j, k); }
      }
    }
  }

  /** The loop's state when `suffix` is the next one to try. */
  ghost predicate Trying(stem: string, norm: string, first: string, base: string, taken: set<string>,
                         suffix: nat, name: string, final: string) {
    && suffix >= 2
    && (suffix == 2 ==> name == first && final == base)
    && (suffix > 2 ==> name == Suffixed(stem, suffix - 1) && final == Suffixed(norm, suffix - 1))
    && (suffix > 2 ==> base in taken && Tried(norm, base, suffix - 1) <= taken)
    && (forall j: nat :: 2 <= j < suffix - 1 ==> Suffixed(norm, j) in taken)
  }

  /** Each suffix tried is another name taken, so the loop ends. */
  lemma TryNext(stem: string, norm: string, first: string, base: string, taken: set<string>,
                suffix: nat, name: string, final: string)
    requires Trying(stem, norm, first, base, taken, suffix, name, final) && final in taken
    requires forall j: nat :: base != Suffixed(norm, j)
    ensures Trying(stem, norm, first, base, taken, suffix + 1, Suffixed(stem, suffix), Suffixed(norm, suffix))
    ensures suffix <= |taken| + 1
  {
    assert Tried(norm, base, suffix) <= taken;
    TriedAre(norm, base, suffix);
    SubsetSize(Tried(norm, base, suffix), taken);
  }

  lemma TryEnds(stem: string, norm: string, first: string, base: string, taken: set<string>,
                suffix: nat, name: string, final: string)
    requires Trying(stem, norm, first, base, taken, suffix, name, final) && final !in taken
    ensures FirstFree(stem, norm, first, base, taken, name, final)
  {
    if suffix > 2 { assert LeastFree(norm, taken, suffix - 1); }
  }

  lemma LongerByASuffix(base: string)
    ensures forall j: nat :: base != Suffixed(base, j)
  {
    forall j: nat ensures base != Suffixed(base, j) {
      assert |Suffixed(base, j)| > |base|;
    }
  }

  ghost predicate UserNamed(raw: string, base: string, taken: set<string>, finalName: string, finalNorm: string) {
    FirstFree(Strip(raw), base, Strip(raw), base, taken, finalName, finalNorm)
  }

  /** The inner loop of `_dedupe_users_display_names`. */
  method FreeUserName(lower: Lowering, id: nat, raw: string, base: string, taken: set<string>)
    returns (finalName: string, finalNorm: string)
    requires Plain(lower) && Normalize(lower, Some(raw)) == Some(base)
    ensures UserNamed(raw, base, taken, finalName, finalNorm)
    ensures finalNorm !in taken
  {
    finalName, finalNorm := Strip(raw), base;
    var suffix: nat := 2;
    NormalOfStripped(lower, raw);
    NormalOfBlank(lower, Strip(raw));
    LongerByASuffix(base);
    while finalNorm in taken
      invariant Trying(Strip(raw), base, Strip(raw), base, taken, suffix, finalName, finalNorm)
      decreases |taken| + 2 - suffix
    {
      TryNext(Strip(raw), base, Strip(raw), base, taken, suffix, finalName, finalNorm);
      finalName := Suffixed(Strip(raw), suffix);
      NormalOfSuffixed(lower, Strip(raw), suffix);
      finalNorm := match Normalize(lower, Some(finalName))
        case Some(norm) => norm
        case None => "user-" + Decimal(id) + "-" + Decimal(suffix);
      suffix := suffix + 1;
    }
    TryEnds(Strip(raw), base, Strip(raw), base, taken, suffix, finalName, finalNorm);
  }

  function ArtistStem(raw: string): string {
    if Strip(raw) != "" then Strip(raw) else "Artist"
  }

  function ArtistFirst(raw: string, id: nat): string {
    if Strip(raw) != "" then Strip(raw) else "Artist " + Decimal(id)
  }

  function ArtistBase(lower: Lowering, raw: string, id: nat): string {
    match Normalize(lower, Some(raw))
    case Some(norm) => norm
    case None => "artist-" + Decimal(id)
  }

  lemma ArtistStemNormal(lower: Lowering, raw: string, id: nat)
    requires Plain(lower)
    ensures !Blank(ArtistStem(raw)) && Normalize(lower, Some(ArtistStem(raw))).Some?
    ensures !Blank(raw) ==> Normalize(lower, Some(ArtistStem(raw))) == Some(ArtistBase(lower, raw, id))
  {
    StripBlank(raw);
    StripBlank(Strip(raw));
    StripTwice(raw);
    assert !Space("Artist"[0]);
    NormalOfBlank(lower, ArtistStem(raw));
    NormalOfBlank(lower, raw);
    NormalOfStripped(lower, raw);
  }

  /** "artist-7" has no space in it. */
  lemma NumberedIsNotSuffixed(id: nat, norm: string)
    ensures forall j: nat :: "artist-" + Decimal(id) != Suffixed(norm, j)
  {
    var base := "artist-" + Decimal(id);
    DecimalNoSpace(id);
    assert NoSpace(base);
    forall j: nat ensures base != Suffixed(norm, j) {
      assert Space(Suffixed(norm, j)[|norm|]);
    }
  }

  lemma ArtistBases(lower: Lowering, raw: string, id: nat)
    requires Plain(lower)
    ensures !Blank(ArtistStem(raw)) && Normalize(lower, Some(ArtistStem(raw))).Some?
    ensures var norm := Normalize(lower, Some(ArtistStem(raw))).value;
            forall j: nat :: ArtistBase(lower, raw, id) != Suffixed(norm, j)
  {
    ArtistStemNormal(lower, raw, id);
    if Blank(raw) {
      NormalOfBlank(lower, raw);
      NumberedIsNotSuffixed(id, Normalize(lower, Some(ArtistStem(raw))).value);
    }
  }

  ghost predicate ArtistNamed(lower: Lowering, id: nat, raw: string, taken: set<string>, finalName: string,
                              finalNorm: string) {
    && Normalize(lower, Some(ArtistStem(raw))).Some?
    && FirstFree(ArtistStem(raw), Normalize(lower, Some(ArtistStem(raw))).value, ArtistFirst(raw, id),
                 ArtistBase(lower, raw, id), taken, finalName, finalNorm)
  }

  /** The inner loop of `_dedupe_artists`. */
  method FreeArtistName(lower: Lowering, id: nat, raw: string, taken: set<string>)
    returns (finalName: string, finalNorm: string)
    requires Plain(lower)
    ensures ArtistNamed(lower, id, raw, taken, finalName, finalNorm)
    ensures finalNorm !in taken
  {
    ArtistBases(lower, raw, id);
    ghost var norm := Normalize(lower, Some(ArtistStem(raw))).value;
    var base := ArtistBase(lower, raw, id);
    finalName, finalNorm := ArtistFirst(raw, id), base;
    var suffix: nat := 2;
    while finalNorm in taken
      invariant Trying(ArtistStem(raw), norm, ArtistFirst(raw, id), base, taken, suffix, finalName, finalNorm)
      decreases |taken| + 2 - suffix
    {
      TryNext(ArtistStem(raw), norm, ArtistFirst(raw, id), base, taken, suffix, finalName, finalNorm);
      finalName := Suffixed(ArtistStem(raw), suffix);
      NormalOfSuffixed(lower, ArtistStem(raw), suffix);
      finalNorm := match Normalize(lower, Some(finalName))
        case Some(n) => n
        case None => "artist-" + Decimal(id) + "-" + Decimal(suffix);
      suffix := suffix + 1;
    }
    TryEnds(ArtistStem(raw), norm, ArtistFirst(raw, id), base, taken, suffix, finalName, finalNorm);
  }

  // The tables.

  /** `display_name` and `display_name_normalized`, or an artist's `name` and `name_normalized`. */
  datatype Named = Named(name: Option<string>, norm: Option<string>)
  type Table = map<nat, Named>

  function Norms(table: Table): set<string> {
    set id | id in table && table[id].norm.Some? :: table[id].norm.value
  }

  /** Normal forms stored in rows with smaller ids. */
  function Earlier(table: Table, id: nat): set<string> {
    set other | other in table && other < id && table[other].norm.Some? :: table[other].norm.value
  }

  ghost predicate UserDone(lower: Lowering, before: Named, after: Named, earlier: set<string>) {
    if before.name.None? then after == before
    else match Normalize(lower, before.name)
      case None => after == Named(None, None)
      case Some(base) =>
        && after.name.Some? && after.norm.Some?
        && UserNamed(before.name.value, base, earlier, after.name.value, after.norm.value)
  }

  ghost predicate UsersDone(lower: Lowering, before: Table, after: Table) {
    && after.Keys == before.Keys
    && forall id: nat | id in before :: UserDone(lower, before[id], after[id], Earlier(after, id))
  }

  ghost predicate ArtistDone(lower: Lowering, id: nat, before: Named, after: Named, earlier: set<string>) {
    && before.name.Some? && after.name.Some? && after.norm.Some?
    && ArtistNamed(lower, id, before.name.value, earlier, after.name.value, after.norm.value)
  }

  ghost predicate ArtistsDone(lower: Lowering, userNorms: set<string>, before: Table, after: Table) {
    && after.Keys == before.Keys
    && forall id: nat | id in before :: ArtistDone(lower, id, before[id], after[id], userNorms + Earlier(after, id))
  }

  // What that means.

  lemma UserNormIsNew(lower: Lowering, before: Named, after: Named, earlier: set<string>)
    requires UserDone(lower, before, after, earlier) && before.norm.None? && after.norm.Some?
    ensures after.norm.value !in earlier
  {
  }

  lemma ArtistNormIsNew(lower: Lowering, id: nat, before: Named, after: Named, earlier: set<string>)
    requires ArtistDone(lower, id, before, after, earlier)
    ensures after.norm.Some? && after.norm.value !in earlier
  {
  }

  /** The unique constraint on users. */
  lemma UserNormsAreDistinct(lower: Lowering, users0: Table, users: Table, i: nat, j: nat)
    requires UsersDone(lower, users0, users) && i in users && j in users && i < j
    requires users0[j].norm.None? && users[i].norm.Some?
    ensures users[j].norm != users[i].norm
  {
    if users[j].norm.Some? { UserNormIsNew(lower, users0[j], users[j], Earlier(users, j)); }
    assert users[i].norm.value in Earlier(users, j);
  }

  /** The unique constraint on artists. */
  lemma ArtistNormsAreDistinct(lower: Lowering, userNorms: set<string>, artists0: Table, artists: Table, i: nat, j: nat)
    requires ArtistsDone(lower, userNorms, artists0, artists) && i in artists && j in artists && i < j
    ensures artists[j].norm.Some? && artists[j].norm != artists[i].norm
  {
    ArtistNormIsNew(lower, i, artists0[i], artists[i], userNorms + Earlier(artists, i));
    ArtistNormIsNew(lower, j, artists0[j], artists[j], userNorms + Earlier(artists, j));
    assert artists[i].norm.value in Earlier(artists, j);
  }

  /** No artist has a user's normal form. */
  lemma ArtistsAvoidUsers(lower: Lowering, users: Table, artists0: Table, artists: Table, i: nat, j: nat)
    requires ArtistsDone(lower, Norms(users), artists0, artists) && i in users && j in artists && users[i].norm.Some?
    ensures artists[j].norm != users[i].norm
  {
    ArtistNormIsNew(lower, j, artists0[j], artists[j], Norms(users) + Earlier(artists, j));
    assert users[i].norm.value in Norms(users);
  }

  /** Every stored user norm is the normal form of the stored name. */
  lemma UserNormMatches(lower: Lowering, before: Named, after: Named, earlier: set<string>)
    requires Plain(lower) && UserDone(lower, before, after, earlier) && before.norm.None?
    ensures before.name.Some? ==> Normalize(lower, after.name) == after.norm
    ensures after.norm.Some? <==> before.name.Some? && !Blank(before.name.value)
  {
    if before.name.Some? {
      var raw := before.name.value;
      NormalOfBlank(lower, raw);
      NormalOfStripped(lower, raw);
      if !Blank(raw) {
        NormalOfBlank(lower, Strip(raw));
        SuffixedNorms(lower, Strip(raw));
      }
    }
  }

  lemma SuffixedNorms(lower: Lowering, stem: string)
    requires Plain(lower) && !Blank(stem)
    ensures Normalize(lower, Some(stem)).Some?
    ensures forall k: nat ::
              Normalize(lower, Some(Suffixed(stem, k))) == Some(Suffixed(Normalize(lower, Some(stem)).value, k))
  {
    NormalOfSuffixed(lower, stem, 0);
    forall k: nat
      ensures Normalize(lower, Some(Suffixed(stem, k))) == Some(Suffixed(Normalize(lower, Some(stem)).value, k))
    {
      NormalOfSuffixed(lower, stem, k);
    }
  }

  /** An artist's norm matches the stored name unless the original was blank and "artist-<id>" was still free. */
  lemma ArtistNormMatches(lower: Lowering, id: nat, before: Named, after: Named, earlier: set<string>)
    requires Plain(lower) && ArtistDone(lower, id, before, after, earlier)
    ensures Normalize(lower, after.name) == after.norm <==>
            !Blank(before.name.value) || "artist-" + Decimal(id) in earlier
  {
    var raw := before.name.value;
    ArtistStemNormal(lower, raw, id);
    SuffixedNorms(lower, ArtistStem(raw));
    NormalOfBlank(lower, raw);
    StripBlank(raw);
    NormalOfStripped(lower, raw);
    if Blank(raw) {
      BlankArtist(lower, id);
    }
  }

  lemma BlankArtist(lower: Lowering, id: nat)
    requires Plain(lower)
    ensures Normalize(lower, Some("Artist " + Decimal(id))) != Some("artist-" + Decimal(id))
  {
    SuffixedArtist(id);
    NotBlankArtist();
    NormalOfSuffixed(lower, "Artist", id);
    NumberedIsNotSuffixed(id, Normalize(lower, Some("Artist")).value);
  }

  lemma SuffixedArtist(id: nat)
    ensures "Artist " + Decimal(id) == Suffixed("Artist", id)
  {
    assert "Artist" + " " == "Artist ";
  }

  lemma NotBlankArtist()
    ensures !Blank("Artist")
  {
    assert !Space("Artist"[0]);
  }

  /** Row by row: a user keeps their stripped name, or gets it with the least number from 2 that leaves it new. */
  lemma UserOutcome(lower: Lowering, before: Named, after: Named, earlier: set<string>)
    requires Plain(lower) && UserDone(lower, before, after, earlier) && before.name.Some? && !Blank(before.name.value)
    ensures Normalize(lower, before.name).Some?
    ensures var name, base := Strip(before.name.value), Normalize(lower, before.name).value;
            && after.name.Some?
            && (base !in earlier ==> after.name.value == name)
            && after.norm.Some?
            && (base in earlier ==> TakesNumber(name, base, earlier, after.name.value, after.norm.value))
  {
    NormalOfBlank(lower, before.name.value);
    var name, base := Strip(before.name.value), Normalize(lower, before.name).value;
    if base in earlier { Numbered(name, base, name, base, earlier, after.name.value, after.norm.value); }
  }

  /** "stem k" and "norm k" for the least k from 2 that leaves the normal form new. */
  ghost predicate TakesNumber(stem: string, norm: string, taken: set<string>, name: string, final: string) {
    exists k: nat ::
      && k >= 2 && name == stem + " " + Decimal(k) && final == norm + " " + Decimal(k)
      && norm + " " + Decimal(k) !in taken
      && forall j: nat :: 2 <= j < k ==> norm + " " + Decimal(j) in taken
  }

  lemma Numbered(stem: string, norm: string, first: string, base: string, taken: set<string>,
                 name: string, final: string)
    requires FirstFree(stem, norm, first, base, taken, name, final) && base in taken
    ensures TakesNumber(stem, norm, taken, name, final)
  {
    var k: nat :| k >= 2 && LeastFree(norm, taken, k) && name == Suffixed(stem, k) && final == Suffixed(norm, k);
    forall j: nat | 2 <= j < k ensures norm + " " + Decimal(j) in taken {
      assert Suffixed(norm, j) in taken;
    }
    assert name == stem + " " + Decimal(k);
  }

  /** A blank display name is dropped. */
  lemma BlankUserOutcome(lower: Lowering, before: Named, after: Named, earlier: set<string>)
    requires Plain(lower) && UserDone(lower, before, after, earlier)
    requires before.name.Some? && Blank(before.name.value)
    ensures after == Named(None, None)
  {
    NormalOfBlank(lower, before.name.value);
  }

  lemma ArtistTexts(lower: Lowering, id: nat, raw: string)
    requires Plain(lower)
    ensures Normalize(lower, Some("Artist")).Some? && Normalize(lower, Some(ArtistStem(raw))).Some?
    ensures Blank(raw) <==> Normalize(lower, Some(raw)).None?
    ensures Blank(raw) ==> ArtistStem(raw) == "Artist" && ArtistFirst(raw, id) == "Artist " + Decimal(id)
    ensures Blank(raw) ==> ArtistBase(lower, raw, id) == "artist-" + Decimal(id)
    ensures !Blank(raw) ==> ArtistStem(raw) == ArtistFirst(raw, id) == Strip(raw)
    ensures !Blank(raw) ==> Normalize(lower, Some(ArtistStem(raw))) == Normalize(lower, Some(raw))
    ensures !Blank(raw) ==> Some(ArtistBase(lower, raw, id)) == Normalize(lower, Some(raw))
  {
    NormalOfBlank(lower, raw);
    NotBlankArtist();
    NormalOfBlank(lower, "Artist");
    StripBlank(raw);
    NormalOfStripped(lower, raw);
  }

  /** An artist likewise; a blank one is "Artist <id>" under "artist-<id>", or else "Artist k". */
  lemma ArtistOutcome(lower: Lowering, id: nat, before: Named, after: Named, earlier: set<string>)
    requires Plain(lower) && ArtistDone(lower, id, before, after, earlier)
    ensures Normalize(lower, Some("Artist")).Some?
    ensures Blank(before.name.value) <==> Normalize(lower, before.name).None?
    ensures var blank := Blank(before.name.value);
            var stem := if blank then "Artist" else Strip(before.name.value);
            var base := if blank then "artist-" + Decimal(id) else Normalize(lower, before.name).value;
            var norm := if blank then Normalize(lower, Some("Artist")).value else base;
            && (base !in earlier ==>
                  after == Named(Some(if blank then "Artist " + Decimal(id) else stem), Some(base)))
            && after.name.Some? && after.norm.Some?
            && (base in earlier ==> TakesNumber(stem, norm, earlier, after.name.value, after.norm.value))
  {
    var raw := before.name.value;
    ArtistTexts(lower, id, raw);
    var base, norm := ArtistBase(lower, raw, id), Normalize(lower, Some(ArtistStem(raw))).value;
    if base in earlier {
      Numbered(ArtistStem(raw), norm, ArtistFirst(raw, id), base, earlier, after.name.value, after.norm.value);
    }
  }

  // Names as people read them.

  /** Two users never end up with names that differ only in case or spacing. */
  lemma UserNamesDiffer(lower: Lowering, users0: Table, users: Table, i: nat, j: nat)
    requires Plain(lower) && MakesNoSpace(lower) && UsersDone(lower, users0, users) && i in users && j in users && i < j
    requires users0[i].norm.None? && users0[j].norm.None? && users[i].name.Some? && users[j].name.Some?
    ensures LowerWords(lower, Split(users[i].name.value)) != LowerWords(lower, Split(users[j].name.value))
  {
    UserNameMatches(lower, users0, users, i);
    UserNameMatches(lower, users0, users, j);
    UserNormsAreDistinct(lower, users0, users, i, j);
    SameNormalIffSameWords(lower, users[i].name.value, users[j].name.value);
  }

  lemma UserNameMatches(lower: Lowering, users0: Table, users: Table, i: nat)
    requires Plain(lower) && UsersDone(lower, users0, users) && i in users
    requires users0[i].norm.None? && users[i].name.Some?
    ensures users[i].norm.Some? && Normalize(lower, users[i].name) == users[i].norm
  {
    NamedUserMatches(lower, users0[i], users[i], Earlier(users, i));
  }

  lemma NamedUserMatches(lower: Lowering, before: Named, after: Named, earlier: set<string>)
    requires Plain(lower) && UserDone(lower, before, after, earlier) && before.norm.None? && after.name.Some?
    ensures after.norm.Some? && Normalize(lower, after.name) == after.norm
  {
    UserNormMatches(lower, before, after, earlier);
    if before.name.Some? { NormalOfBlank(lower, before.name.value); }
  }

  /** Nor do two artists, or an artist and a user, when the artists' original names were not blank. */
  lemma ArtistNamesDiffer(lower: Lowering, userNorms: set<string>, artists0: Table, artists: Table, i: nat, j: nat)
    requires Plain(lower) && MakesNoSpace(lower) && ArtistsDone(lower, userNorms, artists0, artists)
    requires i in artists && j in artists && i < j && artists0[i].name.Some? && artists0[j].name.Some?
    requires !Blank(artists0[i].name.value) && !Blank(artists0[j].name.value)
    ensures artists[i].name.Some? && artists[j].name.Some?
    ensures LowerWords(lower, Split(artists[i].name.value)) != LowerWords(lower, Split(artists[j].name.value))
  {
    ArtistNormMatches(lower, i, artists0[i], artists[i], userNorms + Earlier(artists, i));
    ArtistNormMatches(lower, j, artists0[j], artists[j], userNorms + Earlier(artists, j));
    ArtistNormsAreDistinct(lower, userNorms, artists0, artists, i, j);
    SameNormalIffSameWords(lower, artists[i].name.value, artists[j].name.value);
  }

  lemma ArtistAndUserNamesDiffer(lower: Lowering, users0: Table, users: Table, artists0: Table, artists: Table,
                                 i: nat, j: nat)
    requires Plain(lower) && MakesNoSpace(lower)
    requires UsersDone(lower, users0, users) && ArtistsDone(lower, Norms(users), artists0, artists)
    requires i in users && users0[i].norm.None? && users[i].name.Some?
    requires j in artists && artists0[j].name.Some? && !Blank(artists0[j].name.value)
    ensures artists[j].name.Some?
    ensures LowerWords(lower, Split(users[i].name.value)) != LowerWords(lower, Split(artists[j].name.value))
  {
    UserNameMatches(lower, users0, users, i);
    ArtistNormMatches(lower, j, artists0[j], artists[j], Norms(users) + Earlier(artists, j));
    ArtistsAvoidUsers(lower, users, artists0, artists, i, j);
    SameNormalIffSameWords(lower, users[i].name.value, artists[j].name.value);
  }

  // One outcome.

  lemma FirstFreeUnique(stem: string, norm: string, first: string, base: string, taken: set<string>,
                        name: string, final: string, name': string, final': string)
    requires FirstFree(stem, norm, first, base, taken, name, final)
    requires FirstFree(stem, norm, first, base, taken, name', final')
    ensures name == name' && final == final'
  {
    if base in taken {
      var k: nat :| k >= 2 && LeastFree(norm, taken, k) && name == Suffixed(stem, k) && final == Suffixed(norm, k);
      var k': nat :| k' >= 2 && LeastFree(norm, taken, k') && name' == Suffixed(stem, k') &&
          final' == Suffixed(norm, k');
      assert k == k';
    }
  }

  /** The result is settled by the table and the order of ids alone. */
  lemma {:induction false} UsersUnique(lower: Lowering, before: Table, after: Table, after': Table, bound: nat)
    requires UsersDone(lower, before, after) && UsersDone(lower, before, after')
    ensures forall id: nat :: id in before && id < bound ==> after[id] == after'[id]
  {
    if bound > 0 {
      var id: nat := bound - 1;
      UsersUnique(lower, before, after, after', id);
      if id in before {
        EarlierSame(after, after', id);
        UserUnique(lower, before[id], after[id], after'[id], Earlier(after, id));
      }
    }
  }

  lemma EarlierSame(table: Table, table': Table, id: nat)
    requires table.Keys == table'.Keys
    requires forall other: nat :: other in table && other < id ==> table[other] == table'[other]
    ensures Earlier(table, id) == Earlier(table', id)
  {
    assert forall other: nat :: other in table <==> other in table';
  }

  lemma UserUnique(lower: Lowering, before: Named, after: Named, after': Named, earlier: set<string>)
    requires UserDone(lower, before, after, earlier) && UserDone(lower, before, after', earlier)
    ensures after == after'
  {
    if before.name.Some? {
      match Normalize(lower, before.name)
      case None =>
      case Some(base) =>
        var stem := Strip(before.name.value);
        FirstFreeUnique(stem, base, stem, base, earlier, after.name.value, after.norm.value,
                        after'.name.value, after'.norm.value);
    }
  }

  // The two passes.

  lemma EarlierUnmoved(table: Table, id: nat, row: Named, other: nat)
    requires other <= id
    ensures Earlier(table[id := row], other) == Earlier(table, other)
  {
    var table' := table[id := row];
    forall x ensures x in Earlier(table', other) <==> x in Earlier(table, other) {
      if x in Earlier(table', other) {
        var o: nat :| o in table' && o < other && table'[o].norm == Some(x);
        assert o in table && o < other && table[o].norm == Some(x);
      }
      if x in Earlier(table, other) {
        var o: nat :| o in table && o < other && table[o].norm == Some(x);
        assert o in table' && o < other && table'[o].norm == Some(x);
      }
    }
  }

  /** The norms the loop has put into `taken` when it reaches row i. */
  function UpTo(table: Table, rows: seq<nat>, i: nat): set<string> {
    if i < |rows| then Earlier(table, rows[i]) else Norms(table)
  }

  ghost predicate Ordered(rows: seq<nat>) {
    forall i, j :: 0 <= i < j < |rows| ==> rows[i] < rows[j]
  }

  /** The rows the loop goes through; the rest of the table has no normal forms. */
  ghost predicate Visits(table: Table, rows: seq<nat>) {
    && Ordered(rows) && (forall k :: 0 <= k < |rows| ==> rows[k] in table)
    && forall id: nat :: id in table && table[id].norm.Some? ==> id in rows
  }

  function NormOf(row: Named): set<string> {
    if row.norm.Some? then {row.norm.value} else {}
  }

  lemma NothingTaken(table: Table, rows: seq<nat>)
    requires forall id: nat :: id in table ==> table[id].norm.None?
    ensures UpTo(table, rows, 0) == {}
  {
  }

  lemma FirstTaken(table: Table, rows: seq<nat>)
    requires Ordered(rows) && forall id: nat :: id in table ==> id in rows
    ensures UpTo(table, rows, 0) == {}
  {
    if |rows| > 0 {
      forall o: nat | o in table ensures o >= rows[0] {
        var k :| 0 <= k < |rows| && rows[k] == o;
      }
    }
  }

  lemma TakenGrows(table: Table, rows: seq<nat>, i: nat, row: Named)
    requires Visits(table, rows) && i < |rows|
    ensures UpTo(table[rows[i] := row], rows, i + 1) == UpTo(table, rows, i) + NormOf(row)
  {
    var table', id := table[rows[i] := row], rows[i];
    forall x ensures x in UpTo(table', rows, i + 1) <==> x in UpTo(table, rows, i) + NormOf(row) {
      if x in UpTo(table', rows, i + 1) {
        var o: nat :| o in table' && (i + 1 < |rows| ==> o < rows[i + 1]) && table'[o].norm == Some(x);
        if o != id {
          assert o in rows;
          var k :| 0 <= k < |rows| && rows[k] == o;
          assert k < i;
          assert x in Earlier(table, id);
        }
      }
      if x in Earlier(table, id) {
        var o: nat :| o in table && o < id && table[o].norm == Some(x);
        assert o in table' && table'[o].norm == Some(x);
      }
      if x in NormOf(row) { assert id in table' && table'[id].norm == Some(x); }
    }
  }

  lemma PrefixUnmoved(table: Table, rows: seq<nat>, i: nat, row: Named)
    requires Ordered(rows) && i < |rows|
    ensures rows[..i + 1] == rows[..i] + [rows[i]]
    ensures forall id: nat :: id in rows[..i] ==> id < rows[i]
    ensures forall id: nat :: id in rows[..i + 1] ==> Earlier(table[rows[i] := row], id) == Earlier(table, id)
  {
    forall id: nat | id in rows[..i + 1] ensures Earlier(table[rows[i] := row], id) == Earlier(table, id) {
      EarlierUnmoved(table, rows[i], row, id);
    }
  }

  /** ORDER BY id ASC. */
  method SortIds(ids: set<nat>) returns (rows: seq<nat>)
    ensures Ordered(rows) && forall id: nat :: id in rows <==> id in ids
    ensures forall k :: 0 <= k < |rows| ==> rows[k] in ids
  {
    var q := Sort(ids);
    forall k | 0 <= k < |q| ensures q[k] in ids {
      var x := q[k];
      assert x in q;
    }
    rows := q;
  }

  /** What a pass has to establish of a row, given the norms stored before it. */
  type RowSpec = (nat, Named, set<string>) -> bool

  /** The first `i` rows meet `spec`, the rest are as before, and `taken` is what they may not use. */
  ghost predicate SoFar(spec: RowSpec, before: Table, table: Table, rows: seq<nat>, i: nat,
                        outside: set<string>, taken: set<string>) {
    && table.Keys == before.Keys && Visits(table, rows)
    && i <= |rows| && taken == outside + UpTo(table, rows, i)
    && Kept(before, table, rows, i) && Met(spec, table, rows, i, outside)
  }

  ghost predicate Kept(before: Table, table: Table, rows: seq<nat>, i: nat)
    requires i <= |rows|
  {
    forall id: nat :: id in table && id !in rows[..i] ==> id in before && table[id] == before[id]
  }

  ghost predicate Met(spec: RowSpec, table: Table, rows: seq<nat>, i: nat, outside: set<string>)
    requires i <= |rows|
  {
    forall id: nat :: id in table && id in rows[..i] ==> spec(id, table[id], outside + Earlier(table, id))
  }

  lemma OneMoreKept(before: Table, table: Table, rows: seq<nat>, i: nat, row: Named)
    requires i < |rows| && Kept(before, table, rows, i)
    ensures Kept(before, table[rows[i] := row], rows, i + 1)
  {
    assert rows[..i + 1] == rows[..i] + [rows[i]];
  }

  lemma OneMoreMet(spec: RowSpec, table: Table, rows: seq<nat>, i: nat, outside: set<string>, row: Named)
    requires i < |rows| && Ordered(rows) && Met(spec, table, rows, i, outside)
    requires spec(rows[i], row, outside + Earlier(table, rows[i]))
    ensures Met(spec, table[rows[i] := row], rows, i + 1, outside)
  {
    PrefixUnmoved(table, rows, i, row);
  }

  lemma VisitsStays(table: Table, rows: seq<nat>, id: nat, row: Named)
    requires Visits(table, rows) && id in rows
    ensures Visits(table[id := row], rows)
  {
  }

  lemma OneMore(spec: RowSpec, before: Table, table: Table, rows: seq<nat>, i: nat,
                outside: set<string>, taken: set<string>, row: Named)
    requires SoFar(spec, before, table, rows, i, outside, taken) && i < |rows|
    requires spec(rows[i], row, taken)
    ensures SoFar(spec, before, table[rows[i] := row], rows, i + 1, outside, taken + NormOf(row))
  {
    TakenGrows(table, rows, i, row);
    OneMoreKept(before, table, rows, i, row);
    OneMoreMet(spec, table, rows, i, outside, row);
    VisitsStays(table, rows, rows[i], row);
  }

  // One turn of either loop.

  ghost function UserSpec(lower: Lowering, before: Table): RowSpec {
    (id, after, earlier) => id in before && UserDone(lower, before[id], after, earlier)
  }

  ghost function ArtistSpec(lower: Lowering, before: Table): RowSpec {
    (id, after, earlier) => id in before && ArtistDone(lower, id, before[id], after, earlier)
  }

  lemma UserRow(lower: Lowering, before: Table, table: Table, rows: seq<nat>, i: nat, taken: set<string>,
                base: string, finalName: string, finalNorm: string)
    requires SoFar(UserSpec(lower, before), before, table, rows, i, {}, taken) && i < |rows|
    requires table[rows[i]].name.Some? && Normalize(lower, table[rows[i]].name) == Some(base)
    requires UserNamed(table[rows[i]].name.value, base, taken, finalName, finalNorm)
    ensures SoFar(UserSpec(lower, before), before, table[rows[i] := Named(Some(finalName), Some(finalNorm))],
                  rows, i + 1, {}, taken + {finalNorm})
  {
    NotYet(rows, i);
    OneMore(UserSpec(lower, before), before, table, rows, i, {}, taken, Named(Some(finalName), Some(finalNorm)));
  }

  lemma BlankUserRow(lower: Lowering, before: Table, table: Table, rows: seq<nat>, i: nat, taken: set<string>)
    requires SoFar(UserSpec(lower, before), before, table, rows, i, {}, taken) && i < |rows|
    requires table[rows[i]].name.Some? && Normalize(lower, table[rows[i]].name) == None
    ensures SoFar(UserSpec(lower, before), before, table[rows[i] := Named(None, None)], rows, i + 1, {}, taken)
  {
    NotYet(rows, i);
    assert taken + NormOf(Named(None, None)) == taken;
    OneMore(UserSpec(lower, before), before, table, rows, i, {}, taken, Named(None, None));
  }

  lemma ArtistRow(lower: Lowering, before: Table, table: Table, rows: seq<nat>, i: nat, userNorms: set<string>,
                  taken: set<string>, finalName: string, finalNorm: string)
    requires SoFar(ArtistSpec(lower, before), before, table, rows, i, userNorms, taken) && i < |rows|
    requires table[rows[i]].name.Some? &&
             ArtistNamed(lower, rows[i], table[rows[i]].name.value, taken, finalName, finalNorm)
    ensures SoFar(ArtistSpec(lower, before), before, table[rows[i] := Named(Some(finalName), Some(finalNorm))],
                  rows, i + 1, userNorms, taken + {finalNorm})
  {
    NotYet(rows, i);
    OneMore(ArtistSpec(lower, before), before, table, rows, i, userNorms, taken,
            Named(Some(finalName), Some(finalNorm)));
  }

  /** The row the loop is at is still as it was. */
  lemma RowAsBefore(spec: RowSpec, before: Table, table: Table, rows: seq<nat>, i: nat, outside: set<string>,
                    taken: set<string>)
    requires SoFar(spec, before, table, rows, i, outside, taken) && i < |rows|
    ensures rows[i] in table && rows[i] in before && table[rows[i]] == before[rows[i]]
  {
    NotYet(rows, i);
  }

  class NameDb {
    var users: Table
    var artists: Table

    constructor (users: Table, artists: Table)
      ensures this.users == users && this.artists == artists
    {
      this.users, this.artists := users, artists;
    }

    /** Display names in order of id; a blank one becomes NULL. */
    method DedupeUsers(lower: Lowering)
      requires Plain(lower) && forall id: nat :: id in users ==> users[id].norm.None?
      modifies this`users
      ensures UsersDone(lower, old(users), users)
    {
      var rows := SortIds(set id | id in users && users[id].name.Some?);
      var taken: set<string> := {};
      NothingTaken(users, rows);
      ghost var before := users;
      ghost var spec := UserSpec(lower, before);
      for i := 0 to |rows|
        invariant SoFar(spec, before, users, rows, i, {}, taken)
      {
        var id := rows[i];
        RowAsBefore(spec, before, users, rows, i, {}, taken);
        match Normalize(lower, users[id].name) {
          case None =>
            BlankUserRow(lower, before, users, rows, i, taken);
            users := users[id := Named(None, None)];
          case Some(base) =>
            var finalName, finalNorm := FreeUserName(lower, id, users[id].name.value, base, taken);
            UserRow(lower, before, users, rows, i, taken, base, finalName, finalNorm);
            taken := taken + {finalNorm};
            users := users[id := Named(Some(finalName), Some(finalNorm))];
        }
      }
      AllUsers(lower, before, users, rows, taken);
    }

    /** Artists in order of id, avoiding users' names and one another's. */
    method DedupeArtists(lower: Lowering)
      requires Plain(lower) && forall id: nat :: id in artists ==> artists[id].name.Some?
      modifies this`artists
      ensures ArtistsDone(lower, Norms(users), old(artists), artists)
    {
      var rows := SortIds(artists.Keys);
      var taken := Norms(users);
      FirstTaken(artists, rows);
      ghost var before, userNorms := artists, taken;
      ghost var spec := ArtistSpec(lower, before);
      for i := 0 to |rows|
        invariant SoFar(spec, before, artists, rows, i, userNorms, taken)
      {
        var id := rows[i];
        RowAsBefore(spec, before, artists, rows, i, userNorms, taken);
        var finalName, finalNorm := FreeArtistName(lower, id, artists[id].name.value, taken);
        ArtistRow(lower, before, artists, rows, i, userNorms, taken, finalName, finalNorm);
        taken := taken + {finalNorm};
        artists := artists[id := Named(Some(finalName), Some(finalNorm))];
      }
      AllArtists(lower, userNorms, before, artists, rows, taken);
    }

    /** Both passes: afterwards no normal form is stored twice, in either table or across them. */
    method Upgrade(lower: Lowering)
      requires Plain(lower)
      requires forall id: nat :: id in users ==> users[id].norm.None?
      requires forall id: nat :: id in artists ==> artists[id].name.Some?
      modifies this
      ensures UsersDone(lower, old(users), users)
      ensures ArtistsDone(lower, Norms(users), old(artists), artists)
    {
      DedupeUsers(lower);
      DedupeArtists(lower);
    }
  }

  lemma NotYet(rows: seq<nat>, i: nat)
    requires Ordered(rows) && i < |rows|
    ensures rows[i] !in rows[..i]
  {
  }

  lemma AllUsers(lower: Lowering, before: Table, after: Table, rows: seq<nat>, taken: set<string>)
    requires SoFar(UserSpec(lower, before), before, after, rows, |rows|, {}, taken)
    requires forall id: nat :: id in before && before[id].name.Some? ==> id in rows
    ensures UsersDone(lower, before, after)
  {
    assert rows[..|rows|] == rows;
    forall id: nat | id in before ensures UserDone(lower, before[id], after[id], Earlier(after, id)) {
      if id in rows {
        assert {} + Earlier(after, id) == Earlier(after, id);
        assert UserSpec(lower, before)(id, after[id], {} + Earlier(after, id));
      }
    }
  }

  lemma AllArtists(lower: Lowering, userNorms: set<string>, before: Table, after: Table, rows: seq<nat>,
                   taken: set<string>)
    requires SoFar(ArtistSpec(lower, before), before, after, rows, |rows|, userNorms, taken)
    requires forall id: nat :: id in before ==> id in rows
    ensures ArtistsDone(lower, userNorms, before, after)
  {
    assert rows[..|rows|] == rows;
    forall id: nat | id in before ensures ArtistDone(lower, id, before[id], after[id], userNorms + Earlier(after, id)) {
      assert ArtistSpec(lower, before)(id, after[id], userNorms + Earlier(after, id));
    }
  }
}
