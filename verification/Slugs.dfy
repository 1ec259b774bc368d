/** Slugs: the normalising pipeline, what it means in words, and the allocation of a free
  * slug among five candidates. */
module Slugs {
  import opened Basics

  const MAX_SLUG := 80
  const SLUG_RETRY_LIMIT := 5
  const FALLBACK := "component"

  predicate IsAlnum(c: char) { 'a' <= c <= 'z' || '0' <= c <= '9' }

  // By code: the lower-case letters and the digits of ASCII, and the hyphen between words.
  lemma SlugCharMeans(c: char)
    ensures IsSlugChar(c) <==> 97 <= c as int <= 122 || 48 <= c as int <= 57 || c as int == 45
    ensures IsAlnum(c) <==> IsSlugChar(c) && c as int != 45
  {
  }

  predicate IsSlugChar(c: char) { IsAlnum(c) || c == '-' }

  // Lower-casing, trimming and removing diacritics: any function that leaves text made
  // of [a-z0-9-] alone.
  type PreNormalizer = f: string -> string | PreservesSlugText(f) witness (s: string) => s

  ghost predicate PreservesSlugText(f: string -> string) {
    forall s: string :: SlugText(s) ==> f(s) == s
  }

  predicate SlugText(s: string) { forall i | 0 <= i < |s| :: IsSlugChar(s[i]) }

  // replace(/[^a-z0-9]+/g, '-'): `inRun` says the previous character was already replaced.
  function ReplaceRuns(s: string, inRun: bool): string {
    if s == [] then []
    else if IsAlnum(s[0]) then [s[0]] + ReplaceRuns(s[1..], false)
    else (if inRun then [] else "-") + ReplaceRuns(s[1..], true)
  }

  // replace(/(^-|-$)/g, ''): one hyphen at each end.
  function StripEnds(s: string): string {
    var t := if s != [] && s[0] == '-' then s[1..] else s;
    if t != [] && t[|t| - 1] == '-' then t[..|t| - 1] else t
  }

  function Cut(s: string): string { if |s| <= MAX_SLUG then s else s[..MAX_SLUG] }

  function Clean(s: string): string {
    var t := Cut(StripEnds(ReplaceRuns(s, false)));
    if t == [] then FALLBACK else t
  }

  function Slugify(pre: PreNormalizer, value: string): string { Clean(pre(value)) }

  // ── What it means: the words, joined by hyphens ────────────────────────────

  function FirstWord(s: string): string {
    if s == [] || !IsAlnum(s[0]) then [] else [s[0]] + FirstWord(s[1..])
  }

  lemma FirstWordIsPrefix(s: string)
    ensures FirstWord(s) <= s
    ensures |FirstWord(s)| < |s| ==> !IsAlnum(s[|FirstWord(s)|])
    ensures forall i | 0 <= i < |FirstWord(s)| :: IsAlnum(FirstWord(s)[i])
  {
  }

  // The maximal runs of [a-z0-9], in order.
  function Words(s: string): seq<string>
    decreases |s|
  {
    if s == [] then []
    else if !IsAlnum(s[0]) then Words(s[1..])
    else
      FirstWordIsPrefix(s);
      [FirstWord(s)] + Words(s[|FirstWord(s)|..])
  }

  function Join(ws: seq<string>): string {
    if ws == [] then [] else if |ws| == 1 then ws[0] else ws[0] + "-" + Join(ws[1..])
  }

  function HyphenIf(b: bool): string { if b then "-" else [] }

  predicate EndsOutside(s: string) { s != [] && !IsAlnum(s[|s| - 1]) }

  lemma {:induction false} ReplaceWord(w: string, t: string, inRun: bool)
    requires w != [] && forall i | 0 <= i < |w| :: IsAlnum(w[i])
    ensures ReplaceRuns(w + t, inRun) == w + ReplaceRuns(t, false)
  {
    if |w| == 1 {
      assert (w + t)[1..] == t;
    } else {
      assert (w + t)[1..] == w[1..] + t;
      ReplaceWord(w[1..], t, false);
      assert [w[0]] + (w[1..] + ReplaceRuns(t, false)) == w + ReplaceRuns(t, false);
    }
  }

  // What replacing runs leaves: the joined words, with a hyphen where the text ends outside
  // a word, and a further one in front where it starts outside (not after a replaced run).
  predicate Joins(s: string, inRun: bool) {
    var starts := s != [] && !IsAlnum(s[0]);
    ReplaceRuns(s, inRun) ==
      HyphenIf(starts && !inRun) + Join(Words(s)) + HyphenIf(Words(s) != [] && EndsOutside(s))
  }

  lemma GapCase(s: string, inRun: bool)
    requires s != [] && !IsAlnum(s[0]) && Joins(s[1..], true)
    ensures Joins(s, inRun)
  {
    var t := s[1..];
    assert t != [] ==> EndsOutside(t) == EndsOutside(s);
    assert Words(s) == Words(t);
    assert t == [] ==> Words(t) == [];
  }

  lemma WordsCons(w: string, t: string)
    requires w != [] && IsAlnum(w[0]) && FirstWord(w + t) == w
    ensures Words(w + t) == [w] + Words(t)
  {
    var s := w + t;
    assert s[|w|..] == t && s[0] == w[0];
  }

  lemma Glue(w: string, gap: bool, ws: seq<string>, h: bool)
    requires ws != [] ==> gap
    ensures w + (HyphenIf(gap) + Join(ws) + HyphenIf(ws != [] && h))
            == Join([w] + ws) + HyphenIf(if ws == [] then gap else h)
  {
    JoinCons(w, ws);
    if ws != [] {
      assert w + ("-" + Join(ws) + HyphenIf(h)) == (w + "-" + Join(ws)) + HyphenIf(h);
    }
  }

  lemma WordCase(w: string, t: string, inRun: bool)
    requires w != [] && Joins(t, false) && Words(w + t) == [w] + Words(t)
    requires t != [] ==> !IsAlnum(t[0])
    requires ReplaceRuns(w + t, inRun) == w + ReplaceRuns(t, false)
    requires IsAlnum((w + t)[0]) && IsAlnum(w[|w| - 1])
    ensures Joins(w + t, inRun)
  {
    var s, ws, r := w + t, Words(t), ReplaceRuns(t, false);
    assert s[|s| - 1] == if t == [] then w[|w| - 1] else t[|t| - 1];
    if t != [] && ws == [] { NoWordsEndOutside(t); }
    Glue(w, t != [], ws, EndsOutside(s));
    assert ReplaceRuns(s, inRun) == Join([w] + ws) + HyphenIf(EndsOutside(s));
    NoFront(Join(Words(s)), HyphenIf(Words(s) != [] && EndsOutside(s)));
  }

  lemma NoFront(a: string, b: string)
    ensures HyphenIf(false) + a + b == a + b
  {
  }

  lemma {:induction false} ReplaceRunsJoins(s: string, inRun: bool)
    ensures Joins(s, inRun)
    decreases |s|
  {
    if s != [] {
      if !IsAlnum(s[0]) {
        ReplaceRunsJoins(s[1..], true);
        GapCase(s, inRun);
      } else {
        FirstWordIsPrefix(s);
        var w := FirstWord(s);
        var t := s[|w|..];
        assert s == w + t;
        ReplaceRunsJoins(t, false);
        ReplaceWord(w, t, inRun);
        WordsCons(w, t);
        WordCase(w, t, inRun);
      }
    }
  }

  lemma JoinCons(w: string, ws: seq<string>)
    ensures Join([w] + ws) == if ws == [] then w else w + "-" + Join(ws)
  {
    assert ([w] + ws)[1..] == ws;
  }

  lemma NoWordsEndOutside(s: string)
    requires s != [] && Words(s) == []
    ensures EndsOutside(s)
  {
    if IsAlnum(s[0]) {
      FirstWordIsPrefix(s);
    } else if |s| > 1 {
      NoWordsEndOutside(s[1..]);
    }
  }

  predicate IsWord(w: string) { w != [] && forall i | 0 <= i < |w| :: IsAlnum(w[i]) }

  lemma {:induction false} WordsAreWords(s: string)
    ensures forall i | 0 <= i < |Words(s)| :: IsWord(Words(s)[i])
    decreases |s|
  {
    if s != [] {
      if !IsAlnum(s[0]) {
        WordsAreWords(s[1..]);
      } else {
        FirstWordIsPrefix(s);
        WordsAreWords(s[|FirstWord(s)|..]);
      }
    }
  }

  predicate NoDoubledHyphen(s: string) { forall i | 0 <= i < |s| - 1 :: !(s[i] == '-' && s[i + 1] == '-') }

  // Hyphens only, and only, between words.
  lemma {:induction false} JoinShape(ws: seq<string>)
    requires ws != [] && forall i | 0 <= i < |ws| :: IsWord(ws[i])
    ensures var t := Join(ws);
            t != [] && SlugText(t) && NoDoubledHyphen(t) && IsAlnum(t[0]) && IsAlnum(t[|t| - 1])
  {
    assert IsWord(ws[0]);
    if |ws| > 1 {
      JoinShape(ws[1..]);
      var w, rest := ws[0], Join(ws[1..]);
      var t := w + "-" + rest;
      assert t[|t| - 1] == rest[|rest| - 1];
      forall i | 0 <= i < |t| ensures IsSlugChar(t[i]) {
        if i > |w| { assert t[i] == rest[i - |w| - 1]; }
      }
      forall i | 0 <= i < |t| - 1 ensures !(t[i] == '-' && t[i + 1] == '-') {
        if i > |w| { assert t[i] == rest[i - |w| - 1] && t[i + 1] == rest[i - |w|]; }
      }
    }
  }

  lemma StripBoth(front: bool, j: string, back: bool)
    requires j != [] && IsAlnum(j[0]) && IsAlnum(j[|j| - 1])
    ensures StripEnds(HyphenIf(front) + j + HyphenIf(back)) == j
  {
    var r := HyphenIf(front) + j + HyphenIf(back);
    var t := if r[0] == '-' then r[1..] else r;
    assert t == j + HyphenIf(back);
  }

  lemma StripLeavesWords(s: string)
    ensures StripEnds(ReplaceRuns(s, false)) == Join(Words(s))
  {
    ReplaceRunsJoins(s, false);
    if Words(s) != [] {
      WordsAreWords(s);
      JoinShape(Words(s));
      StripBoth(!IsAlnum(s[0]), Join(Words(s)), EndsOutside(s));
    }
  }

  // ── Main results ───────────────────────────────────────────────────────────

  // The regular-expression pipeline is: the words of the text, joined by single hyphens,
  // cut at 80 characters, or the fallback when there is no word.
  lemma SlugIsJoinedWords(pre: PreNormalizer, value: string)
    ensures var ws := Words(pre(value));
            Slugify(pre, value) == if ws == [] then "component"
                                   else if |Join(ws)| <= 80 then Join(ws) else Join(ws)[..80]
  {
    var s := pre(value);
    StripLeavesWords(s);
    WordsAreWords(s);
    if Words(s) != [] { JoinShape(Words(s)); }
  }

  predicate WellFormed(s: string) {
    1 <= |s| <= MAX_SLUG && SlugText(s) && NoDoubledHyphen(s) && s[0] != '-'
  }

  lemma SlugWellFormed(pre: PreNormalizer, value: string)
    ensures WellFormed(Slugify(pre, value))
  {
    SlugIsJoinedWords(pre, value);
    var ws := Words(pre(value));
    if ws != [] {
      WordsAreWords(pre(value));
      JoinShape(ws);
      CutKeepsShape(Join(ws));
    } else {
      FallbackWellFormed();
    }
  }

  lemma FallbackWellFormed()
    ensures WellFormed(FALLBACK)
  {
  }

  lemma CutKeepsShape(s: string)
    requires SlugText(s) && NoDoubledHyphen(s)
    ensures SlugText(Cut(s)) && NoDoubledHyphen(Cut(s))
  {
  }

  lemma {:induction false} ReplaceRunsIdentity(s: string, inRun: bool)
    requires SlugText(s) && NoDoubledHyphen(s) && (inRun && s != [] ==> s[0] != '-')
    ensures ReplaceRuns(s, inRun) == s
  {
    if s != [] {
      assert IsSlugChar(s[0]);
      forall i | 0 <= i < |s[1..]| ensures IsSlugChar(s[1..][i]) { assert s[1..][i] == s[i + 1]; }
      forall i | 0 <= i < |s[1..]| - 1 ensures !(s[1..][i] == '-' && s[1..][i + 1] == '-') {
        assert s[1..][i] == s[i + 1] && s[1..][i + 1] == s[i + 2];
      }
      ReplaceRunsIdentity(s[1..], !IsAlnum(s[0]));
    }
  }

  function Unhyphenated(s: string): string { if s != [] && s[|s| - 1] == '-' then s[..|s| - 1] else s }

  lemma SlugifyAgain(pre: PreNormalizer, s: string)
    requires WellFormed(s)
    ensures Slugify(pre, s) == Unhyphenated(s)
  {
    assert pre(s) == s;
    ReplaceRunsIdentity(s, false);
    assert IsSlugChar(s[0]);
  }

  lemma UnhyphenatedSettles(s: string)
    requires NoDoubledHyphen(s)
    ensures Unhyphenated(Unhyphenated(s)) == Unhyphenated(s)
  {
    var i := |s| - 2;
    if i >= 0 { assert !(s[i] == '-' && s[i + 1] == '-'); }
  }

  // Slugifying a slug changes it exactly when the cut left a trailing hyphen; twice is a fixpoint.
  lemma SlugifySettles(pre: PreNormalizer, value: string)
    ensures var once := Slugify(pre, value);
            var twice := Slugify(pre, once);
            (twice == once <==> once[|once| - 1] != '-') && Slugify(pre, twice) == twice
  {
    SlugWellFormed(pre, value);
    var once := Slugify(pre, value);
    SlugifyAgain(pre, once);
    var twice := Slugify(pre, once);
    SlugWellFormed(pre, once);
    SlugifyAgain(pre, twice);
    UnhyphenatedSettles(once);
  }

  // ── Allocation ─────────────────────────────────────────────────────────────

  function Digit(n: nat): char
    requires n < 10
  {
    ('0' as int + n) as char
  }

  function Candidate(base: string, attempt: nat): string
    requires attempt < SLUG_RETRY_LIMIT
  {
    if attempt == 0 then base else base + "-" + [Digit(attempt + 1)]
  }

  function FirstFree(base: string, taken: set<string>, attempt: nat): Option<string>
    decreases SLUG_RETRY_LIMIT - attempt
  {
    if attempt >= SLUG_RETRY_LIMIT then None
    else if Candidate(base, attempt) !in taken then Some(Candidate(base, attempt))
    else FirstFree(base, taken, attempt + 1)
  }

  lemma CandidatesDistinct(base: string, i: nat, j: nat)
    requires i < j < SLUG_RETRY_LIMIT
    ensures Candidate(base, i) != Candidate(base, j)
  {
    if i > 0 {
      assert Candidate(base, i)[|base| + 1] == Digit(i + 1) && Candidate(base, j)[|base| + 1] == Digit(j + 1);
    }
  }

  // The name itself, then -2, -3, -4 and -5.
  lemma CandidatesAre(base: string)
    ensures Candidate(base, 0) == base
    ensures Candidate(base, 1) == base + "-2" && Candidate(base, 2) == base + "-3"
    ensures Candidate(base, 3) == base + "-4" && Candidate(base, 4) == base + "-5"
    ensures SLUG_RETRY_LIMIT == 5
  {
  }

  // The first free candidate, or a failure that means all five distinct candidates are taken.
  lemma {:induction false} FirstFreeMeans(base: string, taken: set<string>, attempt: nat)
    requires attempt <= SLUG_RETRY_LIMIT
    ensures var r := FirstFree(base, taken, attempt);
            match r
            case Some(c) => exists k: nat | attempt <= k < SLUG_RETRY_LIMIT ::
              c == Candidate(base, k) && c !in taken && forall j: nat | attempt <= j < k :: Candidate(base, j) in taken
            case None => forall j: nat | attempt <= j < SLUG_RETRY_LIMIT :: Candidate(base, j) in taken
    decreases SLUG_RETRY_LIMIT - attempt
  {
    if attempt < SLUG_RETRY_LIMIT && Candidate(base, attempt) in taken {
      FirstFreeMeans(base, taken, attempt + 1);
      var r := FirstFree(base, taken, attempt + 1);
      if r.Some? {
        var k: nat :| attempt + 1 <= k < SLUG_RETRY_LIMIT && r.value == Candidate(base, k) && r.value !in taken
                      && forall j: nat | attempt + 1 <= j < k :: Candidate(base, j) in taken;
        assert forall j: nat | attempt <= j < k :: Candidate(base, j) in taken;
      }
    } else if attempt < SLUG_RETRY_LIMIT {
      assert FirstFree(base, taken, attempt) == Some(Candidate(base, attempt));
    }
  }

  lemma FailureNeedsFive(base: string, taken: set<string>)
    requires FirstFree(base, taken, 0).None?
    ensures |taken| >= SLUG_RETRY_LIMIT
  {
    FirstFreeMeans(base, taken, 0);
    var five := [Candidate(base, 0), Candidate(base, 1), Candidate(base, 2), Candidate(base, 3), Candidate(base, 4)];
    forall i: nat, j: nat | i < j < 5 ensures five[i] != five[j] { CandidatesDistinct(base, i, j); }
    DistinctInside(five, taken);
  }

  lemma {:induction false} DistinctInside(xs: seq<string>, s: set<string>)
    requires forall i | 0 <= i < |xs| :: xs[i] in s
    requires forall i, j | 0 <= i < j < |xs| :: xs[i] != xs[j]
    ensures |xs| <= |s|
  {
    if xs != [] {
      var last := xs[|xs| - 1];
      DistinctInside(xs[..|xs| - 1], s - {last});
    }
  }
}
