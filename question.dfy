/** Reading a free-text question: the text normalisation every match runs
    on, the `\b`-delimited keyword tests, the "top N" limit and the word
    after the last "de"/"do"/"da" that may become an equality filter. */
module Question {
  import opened Js

  /* ---------------------------------------------------------------- */
  /* normalize(s): toLowerCase, NFD, drop \p{Diacritic}                */
  /* ---------------------------------------------------------------- */

  /** A character that `\p{Diacritic}` removes after decomposition: the
      spacing accents of ASCII and Latin-1 and the combining marks. */
  predicate IsDiacritic(c: char)
  {
    c == '^' || c == '`' || c == '\U{A8}' || c == '\U{AF}' || c == '\U{B4}' || c == '\U{B7}' || c == '\U{B8}'
    || ('\U{2B0}' <= c <= '\U{34E}') || ('\U{350}' <= c <= '\U{357}') || ('\U{35D}' <= c <= '\U{362}')
  }

  /** What one lower-cased character leaves after NFD decomposition and the
      removal of diacritics: accented Latin-1 letters keep their base letter. */
  function Fold(c: char): string
  {
    if IsDiacritic(c) then []
    else if '\U{E0}' <= c <= '\U{E5}' then "a"
    else if c == '\U{E7}' then "c"
    else if '\U{E8}' <= c <= '\U{EB}' then "e"
    else if '\U{EC}' <= c <= '\U{EF}' then "i"
    else if c == '\U{F1}' then "n"
    else if '\U{F2}' <= c <= '\U{F6}' then "o"
    else if '\U{F9}' <= c <= '\U{FC}' then "u"
    else if c == '\U{FD}' || c == '\U{FF}' then "y"
    else [c]
  }

  /** A character that normalisation leaves as it is. */
  predicate IsNormal(c: char)
  {
    Fold(Lower(c)) == [c]
  }

  function Normalize(s: string): (r: string)
    ensures |r| <= |s|
    ensures forall i :: 0 <= i < |r| ==> IsNormal(r[i])
  {
    if s == [] then [] else FoldNormal(s[0]); Fold(Lower(s[0])) + Normalize(s[1..])
  }

  /** Every character normalisation produces is left alone by a second pass. */
  lemma FoldNormal(c: char)
    ensures |Fold(Lower(c))| <= 1
    ensures forall i :: 0 <= i < |Fold(Lower(c))| ==> IsNormal(Fold(Lower(c))[i])
  {
  }

  lemma {:induction false} NormalizeAppend(a: string, b: string)
    ensures Normalize(a + b) == Normalize(a) + Normalize(b)
  {
    if a == [] {
      assert a + b == b;
    } else {
      assert (a + b)[0] == a[0];
      assert (a + b)[1..] == a[1..] + b;
      NormalizeAppend(a[1..], b);
    }
  }

  lemma {:induction false} NormalizeOfNormal(s: string)
    requires forall i :: 0 <= i < |s| ==> IsNormal(s[i])
    ensures Normalize(s) == s
  {
    if s != [] {
      NormalizeOfNormal(s[1..]);
    }
  }

  /** normalize is idempotent. */
  lemma NormalizeIdempotent(s: string)
    ensures Normalize(Normalize(s)) == Normalize(s)
  {
    NormalizeOfNormal(Normalize(s));
  }

  /** A text holding a character normalisation changes never occurs in a
      normalised question: this is why the accented synonyms and keywords
      ("m\U{EA}s", "pre\U{E7}o", "tend\U{EA}ncia", ...) can never match. */
  lemma NotNormalNeverOccurs(q: string, t: string, j: nat)
    requires j < |t| && !IsNormal(t[j])
    ensures !Contains(Normalize(q), t)
  {
    var n := Normalize(q);
    forall i | 0 <= i <= |n|
      ensures !AtPos(n, i, t)
    {
      if i + |t| <= |n| {
        assert n[i..i + |t|][j] == n[i + j];
      }
    }
  }

  /* ---------------------------------------------------------------- */
  /* \b and keyword alternations                                       */
  /* ---------------------------------------------------------------- */

  /** `\b` at position p: a word character on exactly one side. */
  predicate Boundary(q: string, p: int)
  {
    var before := 0 < p <= |q| && IsWord(q[p - 1]);
    var after := 0 <= p < |q| && IsWord(q[p]);
    before != after
  }

  /** `\bw\b` matches at position p. */
  predicate WordAt(q: string, p: int, w: string)
  {
    AtPos(q, p, w) && Boundary(q, p) && Boundary(q, p + |w|)
  }

  /** `/\b(w1|w2|...)\b/.test(q)`: some alternative matches, delimited, somewhere. */
  predicate MatchesWord(q: string, words: seq<string>)
  {
    exists p, k | 0 <= p <= |q| && 0 <= k < |words| :: WordAt(q, p, words[k])
  }

  /** `/w1|w2|.../.test(q)` without delimiters. */
  predicate ContainsAny(q: string, words: seq<string>)
  {
    exists k | 0 <= k < |words| :: Contains(q, words[k])
  }

  const TrendWords: seq<string> := [
    "tendencia", "tend\U{EA}ncia", "evolucao", "evolu\U{E7}\U{E3}o", "por mes", "por m\U{EA}s",
    "mensal", "anual", "por ano", "timeline", "ao longo", "mes a mes", "m\U{EA}s a m\U{EA}s",
    "year over year"]

  const SumWords: seq<string> := ["somar", "soma", "faturamento", "receita", "valor total", "totalizado"]

  const AvgWords: seq<string> := ["media", "m\U{E9}dia", "avg"]

  /** The year-unit test is a plain substring test, with no `\b`. */
  const YearWords: seq<string> := ["ano", "year", "anual"]

  predicate WantsTrend(qn: string) { MatchesWord(qn, TrendWords) }

  predicate SumKeyword(qn: string) { MatchesWord(qn, SumWords) }

  predicate AvgKeyword(qn: string) { MatchesWord(qn, AvgWords) }

  predicate YearUnit(qn: string) { ContainsAny(qn, YearWords) }

  /** Because the year test has no word boundary, any word holding "ano"
      (for instance "plano") asks for yearly buckets. */
  lemma YearUnitInsideWord()
    ensures YearUnit("qual a evolucao do plano")
  {
    assert AtPos("qual a evolucao do plano", 21, "ano");
    assert Contains("qual a evolucao do plano", YearWords[0]);
  }

  /* ---------------------------------------------------------------- */
  /* guessN                                                            */
  /* ---------------------------------------------------------------- */

  /** The number of consecutive digits starting at position d. */
  function DigitRun(q: string, d: nat): (k: nat)
    ensures d + k <= |q| || (d >= |q| && k == 0)
    ensures forall i :: d <= i < d + k ==> IsDigit(q[i])
    ensures d + k < |q| ==> !IsDigit(q[d + k])
    decreases |q| - d
  {
    if d < |q| && IsDigit(q[d]) then 1 + DigitRun(q, d + 1) else 0
  }

  /** parseInt of a string of decimal digits. */
  function DigitsValue(s: string): (v: nat)
    requires forall i :: 0 <= i < |s| ==> IsDigit(s[i])
    ensures v < Pow10(|s|)
  {
    if s == [] then 0
    else
      var c := s[|s| - 1];
      assert IsDigit(c);
      var high := DigitsValue(s[..|s| - 1]);
      assert high * 10 + 9 < Pow10(|s|) by {
        assert high + 1 <= Pow10(|s| - 1);
        assert (high + 1) * 10 <= Pow10(|s| - 1) * 10;
      }
      high * 10 + (c as int - '0' as int)
  }

  function Pow10(k: nat): (r: nat)
    ensures r >= 1
  {
    if k == 0 then 1 else 10 * Pow10(k - 1)
  }

  /** The position after the run of `\s` characters starting at d. */
  function SkipSpaces(q: string, d: nat): (e: nat)
    ensures d <= e
    ensures e < |q| ==> !IsSpace(q[e])
    decreases |q| - d
  {
    if d < |q| && IsSpace(q[d]) then SkipSpaces(q, d + 1) else d
  }

  /** Where the digits start when `\b(top|maiores|principais|top\s*)(\d{1,3})`
      matches at position p. The three prefixes begin with different letters,
      so at most one applies; "top" followed by a digit is the zero-space case
      of `top\s*`, and `\s*` never has to give back a character because no
      space is a digit. */
  function PrefixDigits(q: string, p: nat): (d: Option<nat>)
    ensures d.Some? ==> d.value < |q| && IsDigit(q[d.value])
  {
    if !Boundary(q, p) then None
    else
      var d :=
        if AtPos(q, p, "top") then SkipSpaces(q, p + 3)
        else if AtPos(q, p, "maiores") then p + 7
        else if AtPos(q, p, "principais") then p + 10
        else |q|;
      if d < |q| && IsDigit(q[d]) then Some(d) else None
  }

  predicate PrefixedAt(q: string, p: nat)
  {
    PrefixDigits(q, p).Some?
  }

  /** `\d{1,3}` is greedy: the value of up to three digits at d. */
  function GreedyDigits(q: string, d: nat): (v: nat)
    requires d < |q| && IsDigit(q[d])
    ensures v < 1000
  {
    var k := Min(3, DigitRun(q, d));
    assert Pow10(k) <= 1000 by { assert k == 1 || k == 2 || k == 3; }
    DigitsValue(q[d..d + k])
  }

  /** The length `\b(\d{1,3})\b` matches at p, trying three digits, then two,
      then one, as the backtracking engine does. */
  function StandaloneLength(q: string, p: nat): (k: Option<nat>)
    ensures k.Some? ==> 1 <= k.value <= 3 && p + k.value <= |q|
    ensures k.Some? ==> forall i :: p <= i < p + k.value ==> IsDigit(q[i])
  {
    if !Boundary(q, p) then None
    else if DigitRun(q, p) >= 3 && Boundary(q, p + 3) then Some(3)
    else if DigitRun(q, p) >= 2 && Boundary(q, p + 2) then Some(2)
    else if DigitRun(q, p) >= 1 && Boundary(q, p + 1) then Some(1)
    else None
  }

  predicate StandaloneAt(q: string, p: nat)
  {
    StandaloneLength(q, p).Some?
  }

  /** The backtracking in `\b(\d{1,3})\b` only ever succeeds on a whole run of
      one to three digits that starts and ends at a word boundary. */
  lemma StandaloneIsWholeRun(q: string, p: nat)
    ensures StandaloneAt(q, p) <==>
      (1 <= DigitRun(q, p) <= 3 && Boundary(q, p) && Boundary(q, p + DigitRun(q, p)))
    ensures StandaloneAt(q, p) ==> StandaloneLength(q, p).value == DigitRun(q, p)
  {
    var r := DigitRun(q, p);
    if r >= 1 && Boundary(q, p) {
      if r > 3 { assert IsDigit(q[p + 3]) && IsDigit(q[p + 2]) && IsDigit(q[p + 1]); }
      if r > 1 { assert IsDigit(q[p + 1]); }
      if r > 2 { assert IsDigit(q[p + 2]); }
      if r < 3 && p + r < |q| { assert !IsDigit(q[p + r]); }
    }
  }

  /** The first position from `from` on where P holds. */
  function FirstFrom(q: string, from: nat, P: (string, nat) -> bool): (r: Option<nat>)
    ensures r.Some? ==> from <= r.value <= |q| && P(q, r.value)
    ensures r.Some? ==> forall k :: from <= k < r.value ==> !P(q, k)
    ensures r.None? ==> forall k :: from <= k <= |q| ==> !P(q, k)
    decreases |q| + 1 - from
  {
    if from > |q| then None
    else if P(q, from) then Some(from)
    else FirstFrom(q, from + 1, P)
  }

  /** The last position at or before `to` where P holds. */
  function LastUpTo(q: string, to: nat, P: (string, nat) -> bool): (r: Option<nat>)
    ensures r.Some? ==> r.value <= to && P(q, r.value)
    ensures r.Some? ==> forall k :: r.value < k <= to ==> !P(q, k)
    ensures r.None? ==> forall k :: 0 <= k <= to ==> !P(q, k)
  {
    if P(q, to) then Some(to)
    else if to == 0 then None
    else LastUpTo(q, to - 1, P)
  }

  /** The limit a normalised question asks for: the number after the first
      "top"/"maiores"/"principais", else the first standalone number of one
      to three digits, else 10, capped at 1000. */
  function LimitOf(q: string): (n: nat)
    ensures n <= 1000
  {
    match FirstFrom(q, 0, PrefixedAt)
    case Some(p) => Min(1000, GreedyDigits(q, PrefixDigits(q, p).value))
    case None =>
      match FirstFrom(q, 0, StandaloneAt)
      case Some(p) =>
        var k := StandaloneLength(q, p).value;
        assert DigitsValue(q[p..p + k]) < Pow10(k) <= 1000 by { assert k == 1 || k == 2 || k == 3; }
        Min(1000, DigitsValue(q[p..p + k]))
      case None => 10
  }

  /** guessN */
  function GuessN(question: string): (n: nat)
    ensures n <= 1000
  {
    LimitOf(Normalize(question))
  }

  /** The limit is 10 when the question holds no number either pattern accepts. */
  lemma LimitDefault(q: string)
    requires forall p :: 0 <= p <= |q| ==> !PrefixedAt(q, p) && !StandaloneAt(q, p)
    ensures LimitOf(q) == 10
  {
    match FirstFrom(q, 0, PrefixedAt)
    case Some(_) =>
    case None =>
      match FirstFrom(q, 0, StandaloneAt)
      case Some(_) =>
      case None =>
  }

  /** The leftmost prefixed number decides the limit, whatever standalone
      numbers come before it. */
  lemma LimitPrefixedWins(q: string, p: nat)
    requires p <= |q| && PrefixedAt(q, p) && forall j :: 0 <= j < p ==> !PrefixedAt(q, j)
    ensures LimitOf(q) == GreedyDigits(q, PrefixDigits(q, p).value)
  {
    assert FirstFrom(q, 0, PrefixedAt) == Some(p);
  }

  /** Without a prefixed number, the leftmost standalone run decides. */
  lemma LimitStandalone(q: string, p: nat)
    requires forall j :: 0 <= j <= |q| ==> !PrefixedAt(q, j)
    requires p <= |q| && StandaloneAt(q, p) && forall j :: 0 <= j < p ==> !StandaloneAt(q, j)
    ensures LimitOf(q) == DigitsValue(q[p..p + DigitRun(q, p)])
  {
    match FirstFrom(q, 0, PrefixedAt)
    case Some(_) =>
    case None =>
      assert FirstFrom(q, 0, StandaloneAt) == Some(p);
      StandaloneIsWholeRun(q, p);
  }

  /** "top 3 clientes" asks for three rows: the `top\s*` alternative. */
  lemma GuessNTop3()
    ensures GuessN("top 3 clientes") == 3
  {
    var q := "top 3 clientes";
    NormalizeTop3();
    Top3Prefix();
    assert FirstFrom(q, 0, PrefixedAt) == Some(0);
    Top3Digits();
  }

  lemma Top3Prefix()
    ensures PrefixDigits("top 3 clientes", 0) == Some(4)
  {
    var q := "top 3 clientes";
    assert AtPos(q, 0, "top");
    assert Boundary(q, 0);
    assert SkipSpaces(q, 4) == 4;
    assert SkipSpaces(q, 3) == 4;
  }

  lemma Top3Digits()
    ensures GreedyDigits("top 3 clientes", 4) == 3
  {
    var q := "top 3 clientes";
    Top3Run();
    assert q[4..5] == "3";
    assert DigitsValue("3") == 3;
  }

  lemma Top3Run()
    ensures DigitRun("top 3 clientes", 4) == 1
  {
    assert DigitRun("top 3 clientes", 5) == 0;
  }

  lemma NormalizeTop3()
    ensures Normalize("top 3 clientes") == "top 3 clientes"
  {
    var q := "top 3 clientes";
    forall i | 0 <= i < |q| ensures IsNormal(q[i]) {
      assert 'a' <= q[i] <= 'z' || q[i] == ' ' || q[i] == '3';
    }
    NormalizeOfNormal(q);
  }

  /* ---------------------------------------------------------------- */
  /* the filter token: the word after the last "de"/"do"/"da"          */
  /* ---------------------------------------------------------------- */

  /** `\bde\b|\bdo\b|\bda\b` matches at p. Two such matches never overlap,
      so `split` cuts at every one of them and `pop()` returns the text after
      the rightmost. */
  predicate SplitWordAt(q: string, p: nat)
  {
    WordAt(q, p, "de") || WordAt(q, p, "do") || WordAt(q, p, "da")
  }

  /** `qn.split(/\bde\b|\bdo\b|\bda\b/).pop()` */
  function AfterLastSplit(q: string): (r: string)
    ensures |r| <= |q|
  {
    match LastUpTo(q, |q|, SplitWordAt)
    case Some(p) => q[p + 2..]
    case None => q
  }

  /** The separators of `/\s|\?|\.|,|!|;|:|\n/`. */
  predicate IsTokenSep(c: char)
  {
    IsSpace(c) || c == '?' || c == '.' || c == ',' || c == '!' || c == ';' || c == ':'
  }

  /** `s.split(/\s|\?|\.|,|!|;|:|\n/)` */
  function SplitSeps(s: string): (parts: seq<string>)
    ensures |parts| >= 1
    ensures forall i, j :: 0 <= i < |parts| && 0 <= j < |parts[i]| ==> !IsTokenSep(parts[i][j])
  {
    if s == [] then [""]
    else
      var rest := SplitSeps(s[1..]);
      if IsTokenSep(s[0]) then [""] + rest else [[s[0]] + rest[0]] + rest[1..]
  }

  /** `parts.filter(Boolean)[0]` */
  function FirstNonEmpty(parts: seq<string>): (r: Option<string>)
    ensures r.Some? ==> r.value != "" && r.value in parts
    ensures r.None? ==> forall i :: 0 <= i < |parts| ==> parts[i] == ""
  {
    if parts == [] then None
    else if parts[0] != "" then Some(parts[0])
    else FirstNonEmpty(parts[1..])
  }

  /** The filter token of a normalised question: present only when the
      question holds " de ", " do " or " da ". */
  function FilterToken(qn: string): (t: Option<string>)
  {
    if Contains(qn, " de ") || Contains(qn, " do ") || Contains(qn, " da ") then
      FirstNonEmpty(SplitSeps(Trim(AfterLastSplit(qn))))
    else None
  }

  /** A token is non-empty, holds no separator, and exists only when one of
      the three prepositions appears between spaces. */
  lemma FilterTokenShape(qn: string)
    ensures FilterToken(qn).Some? ==> FilterToken(qn).value != ""
    ensures FilterToken(qn).Some? ==> forall j :: 0 <= j < |FilterToken(qn).value| ==> !IsTokenSep(FilterToken(qn).value[j])
    ensures FilterToken(qn).Some? ==> Contains(qn, " de ") || Contains(qn, " do ") || Contains(qn, " da ")
  {
    if FilterToken(qn).Some? {
      var parts := SplitSeps(Trim(AfterLastSplit(qn)));
      var t := FilterToken(qn).value;
      var i :| 0 <= i < |parts| && parts[i] == t;
    }
  }

  /** With " de " in the question, the split always finds a match, and the
      token comes from the text after the last one. */
  lemma {:induction false} SpacedPrepositionSplits(qn: string, i: nat)
    requires AtPos(qn, i, " de ")
    ensures LastUpTo(qn, |qn|, SplitWordAt).Some?
    ensures i + 1 <= LastUpTo(qn, |qn|, SplitWordAt).value
  {
    assert qn[i] == ' ' && qn[i + 1] == 'd' && qn[i + 2] == 'e' && qn[i + 3] == ' ';
    assert AtPos(qn, i + 1, "de");
    assert WordAt(qn, i + 1, "de");
    assert SplitWordAt(qn, i + 1);
  }
}
