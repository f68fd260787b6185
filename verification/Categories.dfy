/** Codes of categories: slugs derived from titles, and the search for a free one. */
module Categories {
  import opened Ordering
  import opened Planning

  const CODE_MIN_LENGTH: nat := 2
  const CODE_MAX_LENGTH: nat := 32

  predicate IsDigit(c: char) {
    '0' <= c <= '9'
  }

  predicate IsSlugChar(c: char) {
    'a' <= c <= 'z' || IsDigit(c) || c == '_'
  }

  /** What the column accepts: `^[a-z0-9_]{2,32}$`. */
  ghost predicate IsSlug(s: string) {
    CODE_MIN_LENGTH <= |s| <= CODE_MAX_LENGTH && forall i :: 0 <= i < |s| ==> IsSlugChar(s[i])
  }

  function StripLeft(s: string): string {
    if s != [] && s[0] == '_' then StripLeft(s[1..]) else s
  }

  function StripRight(s: string): string {
    if s != [] && s[|s| - 1] == '_' then StripRight(s[..|s| - 1]) else s
  }

  /** `s.strip("_")`. */
  function Strip(s: string): string {
    StripRight(StripLeft(s))
  }

  /** `s[:n]`, which counts from the end when `n` is negative. */
  function Prefix(s: string, n: int): string {
    if n < 0 then s[..(if -n <= |s| then |s| + n else 0)] else if n <= |s| then s[..n] else s
  }

  /** `str(n)`. */
  function Decimal(n: nat): (s: string)
    ensures s != [] && forall i :: 0 <= i < |s| ==> IsDigit(s[i])
  {
    if n < 10 then [Digit(n)] else Decimal(n / 10) + [Digit(n % 10)]
  }

  function Digit(n: nat): (c: char)
    requires n < 10
    ensures IsDigit(c)
  {
    '0' + n as char
  }

  function Suffix(index: nat): string {
    "_" + Decimal(index)
  }

  /** The `index`-th code of the series. */
  function Candidate(base: string, index: nat): string {
    Strip(Prefix(base, CODE_MAX_LENGTH - |Suffix(index)|)) + Suffix(index)
  }

  // ---------------------------------------------------------------------------------------------
  // The series
  // ---------------------------------------------------------------------------------------------

  ghost function Value(s: string): int {
    if s == [] then 0 else 10 * Value(s[..|s| - 1]) + s[|s| - 1] as int - '0' as int
  }

  lemma {:induction false} DecimalRoundTrip(n: nat)
    ensures Value(Decimal(n)) == n
  {
    var s := Decimal(n);
    if n < 10 {
      assert s[..0] == [];
    } else {
      DecimalRoundTrip(n / 10);
      assert s[..|s| - 1] == Decimal(n / 10);
    }
  }

  /** The last underscore marks where the number begins. */
  lemma NumberIsTail(code: string, a: string, b: string)
    requires forall i :: 0 <= i < |b| ==> IsDigit(b[i])
    requires |a| < |code| && code[|code| - |a| - 1] == '_'
    requires |b| <= |code| && code[|code| - |b|..] == b
    ensures |b| <= |a|
  {
    forall i | |code| - |b| <= i < |code| ensures IsDigit(code[i]) {
      assert code[i] == b[i - (|code| - |b|)];
    }
  }

  /** Different numbers give different codes. */
  lemma CandidatesDiffer(base: string, i: nat, j: nat)
    requires Candidate(base, i) == Candidate(base, j)
    ensures i == j
  {
    hide Strip, Prefix;
    var c, a, b := Candidate(base, i), Decimal(i), Decimal(j);
    assert c[|c| - |a|..] == a && c[|c| - |b|..] == b;
    NumberIsTail(c, a, b);
    NumberIsTail(c, b, a);
    DecimalRoundTrip(i);
    DecimalRoundTrip(j);
  }

  ghost function Series(base: string, end: nat): set<string> {
    set i | 2 <= i < end :: Candidate(base, i)
  }

  lemma {:induction false} SeriesSize(base: string, end: nat)
    requires end >= 2
    ensures |Series(base, end)| == end - 2
  {
    hide Candidate;
    if end > 2 {
      SeriesSize(base, end - 1);
      assert Series(base, end) == Series(base, end - 1) + {Candidate(base, end - 1)};
      if Candidate(base, end - 1) in Series(base, end - 1) {
        var i :| 2 <= i < end - 1 && Candidate(base, i) == Candidate(base, end - 1);
        CandidatesDiffer(base, i, end - 1);
      }
    }
  }

  /** One more candidate than there are taken codes: some candidate is free. */
  lemma SomeCandidateIsFree(base: string, taken: seq<string>) returns (index: nat)
    ensures 2 <= index < |taken| + 3 && Candidate(base, index) !in taken
  {
    hide Candidate;
    var series, codes := Series(base, |taken| + 3), set t | t in taken;
    SeriesSize(base, |taken| + 3);
    MembersAtMost(taken);
    if series <= codes { SubsetIsSmaller(series, codes); }
    var c :| c in series && c !in codes;
    index :| 2 <= index < |taken| + 3 && Candidate(base, index) == c;
  }

  // ---------------------------------------------------------------------------------------------
  // Shape
  // ---------------------------------------------------------------------------------------------

  lemma {:induction false} StripLeftShape(s: string)
    ensures |StripLeft(s)| <= |s| && forall c :: c in StripLeft(s) ==> c in s
    ensures StripLeft(s) == [] || StripLeft(s)[0] != '_'
  {
    if s != [] && s[0] == '_' {
      StripLeftShape(s[1..]);
    }
  }

  lemma {:induction false} StripRightShape(s: string)
    ensures StripRight(s) <= s
    ensures StripRight(s) == [] || StripRight(s)[|StripRight(s)| - 1] != '_'
  {
    if s != [] && s[|s| - 1] == '_' {
      StripRightShape(s[..|s| - 1]);
    }
  }

  lemma StripShape(s: string)
    ensures |Strip(s)| <= |s| && forall c :: c in Strip(s) ==> c in s
    ensures Strip(s) == [] || (Strip(s)[0] != '_' && Strip(s)[|Strip(s)| - 1] != '_')
  {
    StripLeftShape(s);
    StripRightShape(StripLeft(s));
    var left, t := StripLeft(s), Strip(s);
    forall c | c in t ensures c in s {
      var i :| 0 <= i < |t| && t[i] == c;
      assert left[i] == c;
    }
  }

  /** Trimming the base rather than the number keeps a code within the column exactly while the number
      itself fits into it. */
  lemma CandidateIsSlugExactly(base: string, index: nat)
    requires IsSlug(base)
    ensures IsSlug(Candidate(base, index)) <==> |Suffix(index)| <= CODE_MAX_LENGTH
  {
    hide Strip;
    var room := CODE_MAX_LENGTH - |Suffix(index)|;
    var trimmed := Strip(Prefix(base, room));
    StripShape(Prefix(base, room));
    if room >= 0 {
      forall i | 0 <= i < |trimmed| ensures IsSlugChar(trimmed[i]) {
        assert trimmed[i] in Prefix(base, room);
      }
    }
  }

  lemma {:induction false} DecimalGrows(n: nat, m: nat)
    requires n <= m
    ensures |Decimal(n)| <= |Decimal(m)|
  {
    if m >= 10 && n >= 10 {
      DecimalGrows(n / 10, m / 10);
    }
  }

  // ---------------------------------------------------------------------------------------------
  // next_free_code
  // ---------------------------------------------------------------------------------------------

  /** The first code of the series that nobody has. `None` is the source's final `ValidationError`,
      and is never returned; a slug stays a slug while the collection is shorter than a number of
      thirty-one digits. */
  method NextFreeCode(base: string, taken: seq<string>) returns (code: Option<string>)
    ensures code.Some? && code.value !in taken
    ensures base !in taken ==> code.value == base
    ensures base in taken ==> exists index ::
      && 2 <= index < |taken| + 3 && code.value == Candidate(base, index)
      && forall j :: 2 <= j < index ==> Candidate(base, j) in taken
    ensures IsSlug(base) && |Suffix(|taken| + 2)| <= CODE_MAX_LENGTH ==> IsSlug(code.value)
  {
    hide Candidate, Suffix, IsSlug;
    if base !in taken {
      return Some(base);
    }
    ghost var free := SomeCandidateIsFree(base, taken);
    var index := 2;
    while index < |taken| + 3
      invariant 2 <= index <= free
      invariant forall j :: 2 <= j < index ==> Candidate(base, j) in taken
    {
      var candidate := Candidate(base, index);
      if candidate !in taken {
        FitsWhenLaterFits(base, index, |taken| + 2);
        return Some(candidate);
      }
      index := index + 1;
    }
    assert false;
  }

  lemma FitsWhenLaterFits(base: string, index: nat, last: nat)
    requires index <= last
    ensures IsSlug(base) && |Suffix(last)| <= CODE_MAX_LENGTH ==> IsSlug(Candidate(base, index))
  {
    hide Candidate, IsSlug;
    DecimalGrows(index, last);
    if IsSlug(base) { CandidateIsSlugExactly(base, index); }
  }

  // ---------------------------------------------------------------------------------------------
  // slugify_code
  // ---------------------------------------------------------------------------------------------

  predicate IsWordChar(c: char) {
    'a' <= c <= 'z' || IsDigit(c)
  }

  /** Every run of other characters becomes one underscore; `gap` says whether one has just begun. */
  function Underscored(text: string, gap: bool): string {
    if text == [] then []
    else if IsWordChar(text[0]) then [text[0]] + Underscored(text[1..], false)
    else (if gap then [] else "_") + Underscored(text[1..], true)
  }

  /** `text` is the title folded and transliterated, `digest` eight hexadecimal digits of its hash. */
  function SlugifyCode(text: string, digest: string): string {
    var slug := Strip(Prefix(Strip(Underscored(text, false)), CODE_MAX_LENGTH));
    if |slug| < CODE_MIN_LENGTH then "cat_" + digest else slug
  }

  predicate IsDigest(s: string) {
    |s| == 8 && forall i :: 0 <= i < |s| ==> IsDigit(s[i]) || 'a' <= s[i] <= 'f'
  }

  lemma {:induction false} UnderscoredShape(text: string, gap: bool)
    ensures forall c :: c in Underscored(text, gap) ==> IsSlugChar(c)
  {
    if text != [] {
      UnderscoredShape(text[1..], !IsWordChar(text[0]));
    }
  }

  /** Whatever the title, its code is one the column accepts. */
  lemma SlugifiedIsSlug(text: string, digest: string)
    requires IsDigest(digest)
    ensures IsSlug(SlugifyCode(text, digest)) && 2 <= |SlugifyCode(text, digest)| <= 32
  {
    hide Strip, Underscored;
    var inner := Strip(Underscored(text, false));
    var cut := Prefix(inner, CODE_MAX_LENGTH);
    var slug := Strip(cut);
    UnderscoredShape(text, false);
    StripShape(Underscored(text, false));
    StripShape(cut);
    forall i | 0 <= i < |slug| ensures IsSlugChar(slug[i]) {
      assert slug[i] in cut;
      assert slug[i] in inner;
    }
  }

  // ---------------------------------------------------------------------------------------------
  // What a code keeps
  // ---------------------------------------------------------------------------------------------

  /** A base that fits is kept as it is, and one too long is cut at the end, never its number. */
  lemma CandidateKeepsBase(base: string, index: nat)
    requires |Suffix(index)| < CODE_MAX_LENGTH
    ensures var room := CODE_MAX_LENGTH - |Suffix(index)|;
      var stem := if |base| <= room then base else base[..room];
      stem != [] && stem[0] != '_' && stem[|stem| - 1] != '_' ==> Candidate(base, index) == stem + "_" + Decimal(index)
  {
    hide Decimal;
    var room := CODE_MAX_LENGTH - |Suffix(index)|;
    if |base| == room { assert base[..room] == base; }
  }

  /** The letters and digits of a text, without what lies between them. */
  function Words(s: string): string {
    if s == [] then [] else (if IsWordChar(s[0]) then [s[0]] else []) + Words(s[1..])
  }

  lemma {:induction false} WordsAppend(a: string, b: string)
    ensures Words(a + b) == Words(a) + Words(b)
  {
    hide IsWordChar;
    if a == [] {
      assert a + b == b && [] + Words(b) == Words(b);
    } else {
      var head := if IsWordChar(a[0]) then [a[0]] else [];
      WordsAppend(a[1..], b);
      assert (a + b)[0] == a[0] && (a + b)[1..] == a[1..] + b;
      assert Words(a + b) == head + Words(a[1..] + b);
      hide Words;
      assert head + (Words(a[1..]) + Words(b)) == head + Words(a[1..]) + Words(b);
    }
  }

  lemma {:induction false} UnderscoredWords(text: string, gap: bool)
    ensures Words(Underscored(text, gap)) == Words(text)
  {
    if text != [] {
      var rest := Underscored(text[1..], !IsWordChar(text[0]));
      UnderscoredWords(text[1..], !IsWordChar(text[0]));
      if IsWordChar(text[0]) {
        WordsAppend([text[0]], rest);
        assert [text[0]][1..] == [];
      } else {
        WordsAppend("_", rest);
        assert "_"[1..] == [];
        assert [] + rest == rest;
      }
    }
  }

  lemma {:induction false} StripLeftWords(s: string)
    ensures Words(StripLeft(s)) == Words(s)
  {
    if s != [] && s[0] == '_' { StripLeftWords(s[1..]); }
  }

  lemma {:induction false} StripRightWords(s: string)
    ensures Words(StripRight(s)) == Words(s)
  {
    if s != [] && s[|s| - 1] == '_' {
      var init := s[..|s| - 1];
      StripRightWords(init);
      WordsAppend(init, [s[|s| - 1]]);
      assert s == init + [s[|s| - 1]];
      assert [s[|s| - 1]][1..] == [];
    }
  }

  lemma StripWords(s: string)
    ensures Words(Strip(s)) == Words(s)
  {
    StripLeftWords(s);
    StripRightWords(StripLeft(s));
  }

  /** A code spells the letters and digits of the title in their order: all of them when they fit into the
      column, and the first ones otherwise. */
  lemma SlugKeepsWords(text: string, digest: string)
    ensures var whole, code := Strip(Underscored(text, false)), SlugifyCode(text, digest);
      || code == "cat_" + digest
      || (Words(code) <= Words(text) && (|whole| <= CODE_MAX_LENGTH ==> Words(code) == Words(text)))
  {
    hide Strip, Underscored, Words;
    var whole := Strip(Underscored(text, false));
    var cut := Prefix(whole, CODE_MAX_LENGTH);
    UnderscoredWords(text, false);
    StripWords(Underscored(text, false));
    StripWords(cut);
    WordsAppend(cut, whole[|cut|..]);
    assert whole == cut + whole[|cut|..];
    if |whole| <= CODE_MAX_LENGTH { assert cut == whole; }
  }

  /** Single underscores between words, and none around them. */
  predicate IsSpaced(s: string, gap: bool) {
    && (gap && s != [] ==> s[0] != '_')
    && (forall i :: 0 <= i < |s| - 1 && s[i] == '_' ==> s[i + 1] != '_')
  }

  lemma {:induction false} SpacedIsKept(s: string, gap: bool)
    requires (forall i :: 0 <= i < |s| ==> IsSlugChar(s[i])) && IsSpaced(s, gap)
    ensures Underscored(s, gap) == s
  {
    if s != [] {
      assert forall i :: 0 <= i < |s[1..]| ==> s[1..][i] == s[i + 1];
      SpacedIsKept(s[1..], !IsWordChar(s[0]));
    }
  }

  /** A title that is a code already is its own code, and the fallback is for titles with fewer than two
      usable characters. */
  lemma SlugIsItsCode(s: string, digest: string)
    requires 2 <= |s| <= 32 && forall i :: 0 <= i < |s| ==> 'a' <= s[i] <= 'z' || '0' <= s[i] <= '9' || s[i] == '_'
    requires IsSpaced(s, true) && s[|s| - 1] != '_'
    ensures SlugifyCode(s, digest) == s
  {
    SpacedIsKept(s, false);
    assert Prefix(s, CODE_MAX_LENGTH) == s;
  }
}
