/**
 The key that groups the editions of one release: trailing parenthesised edition markers are
 dropped until none is left, and the rest is normalised.
 */
module Editions {
  import opened Text
  import opened Titles

  const KEYWORDS: seq<string> := [
    "deluxe", "extended", "expanded", "anniversary", "edition", "remaster", "bonus", "special",
    "platinum", "collector", "definitive", "reissue", "complete", "plus"]

  // Case folding as the expression's (?i) does it, on the letters of the keywords.
  function Fold(c: char): char {
    if 'A' <= c <= 'Z' then (c as int + 32) as char else if c as int == 0x17F then 's' else c
  }

  predicate ReadsAt(s: string, j: nat, keyword: string) {
    j + |keyword| <= |s| && forall k :: 0 <= k < |keyword| ==> Fold(s[j + k]) == keyword[k]
  }

  predicate HasKeyword(s: string) {
    exists w, j :: 0 <= w < |KEYWORDS| && 0 <= j <= |s| && ReadsAt(s, j, KEYWORDS[w])
  }

  // editionMarker matches from position i to the end of the title.
  predicate IsMarker(t: string, i: nat) {
    && i < |t| - 1 && t[i] == '(' && t[|t| - 1] == ')'
    && (forall k :: i < k < |t| - 1 ==> t[k] != ')')
    && HasKeyword(t[i + 1..|t| - 1])
  }

  // The leftmost match at or after a position, or the length when there is none.
  function Leftmost(t: string, from: nat): (i: nat)
    requires from <= |t|
    ensures from <= i <= |t| && (i < |t| ==> IsMarker(t, i))
    ensures forall k :: from <= k < i ==> !IsMarker(t, k)
    decreases |t| - from
  {
    if from == |t| || IsMarker(t, from) then from else Leftmost(t, from + 1)
  }

  // ReplaceAllString(t, "") of a title without trailing space.
  function Strip(t: string): string {
    t[..Leftmost(t, 0)]
  }

  function Shorter(t: string): string {
    Trim(Strip(t))
  }

  // The title without its markers; a title that is nothing but a marker is kept.
  function Base(t: string): string
    requires IsTrimmed(t)
    decreases |t|
  {
    var next := Shorter(t);
    ShorterIsShorter(t);
    if next == t || next == "" then t else Base(next)
  }

  lemma ShorterIsShorter(t: string)
    requires IsTrimmed(t)
    ensures IsTrimmed(Shorter(t)) && |Shorter(t)| <= |t|
    ensures |Shorter(t)| == |t| ==> Shorter(t) == t
  {
    TrimTrims(Strip(t));
    TrimShortens(Strip(t));
    if Leftmost(t, 0) == |t| { assert Strip(t) == t; }
  }

  function BaseTitle(title: string): string {
    TrimTrims(title);
    Base(Trim(title))
  }

  function KeyOf(title: string): string {
    Normalized(BaseTitle(title))
  }

  method EditionKey(title: string) returns (key: string)
    ensures key == KeyOf(title)
  {
    var t := Trim(title);
    TrimTrims(title);
    ghost var start := t;
    while true
      invariant IsTrimmed(t) && Base(t) == Base(start)
      decreases |t|
    {
      ShorterIsShorter(t);
      var next := Shorter(t);
      if next == t || next == "" { break; }
      t := next;
    }
    key := NormalizeTitle(t);
  }

  // ---- Properties ----------------------------------------------------------------------

  lemma {:induction false} BaseIsLast(t: string)
    requires IsTrimmed(t)
    ensures IsTrimmed(Base(t)) && (Shorter(Base(t)) == Base(t) || Shorter(Base(t)) == "")
    decreases |t|
  {
    ShorterIsShorter(t);
    if Shorter(t) != t && Shorter(t) != "" { BaseIsLast(Shorter(t)); }
  }

  /** No marker is left to strip, unless nothing would remain. */
  lemma NoMarkerIsLeft(title: string)
    ensures var base := BaseTitle(title); Leftmost(base, 0) == |base| || Trim(Strip(base)) == ""
  {
    TrimTrims(title);
    var base := BaseTitle(title);
    BaseIsLast(Trim(title));
    TrimShortens(Strip(base));
  }

  lemma {:induction false} KeptIsTrimmed(s: string)
    requires forall c <- s :: IsKept(c)
    ensures Trim(s) == s && Strip(s) == s
  {
    if s != [] {
      assert s[0] in s && s[|s| - 1] in s;
    }
    forall i | 0 <= i < |s| ensures !IsMarker(s, i) {
      assert IsKept(s[i]);
    }
  }

  /** A key is its own key: keys stored at one time and computed at another agree. */
  lemma KeyIsItsOwnKey(title: string)
    ensures KeyOf(KeyOf(title)) == KeyOf(title)
  {
    TrimTrims(title);
    var key := KeyOf(title);
    NormalizedIsNormal(Base(Trim(title)));
    KeptIsTrimmed(key);
  }

  // ---- What normalisation keeps ------------------------------------------------------------

  // No ASCII letter or digit, also after lower case.
  predicate IsMute(s: string) {
    forall c <- s :: !IsKept(LowerChar(c))
  }

  lemma {:induction false} MuteIsDropped(s: string)
    ensures IsMute(s) <==> Normalized(s) == []
  {
    if s != [] {
      assert s == s[..1] + s[1..] && Lower(s[..1]) == [LowerChar(s[0])];
      assert Kept([LowerChar(s[0])]) == if IsKept(LowerChar(s[0])) then [LowerChar(s[0])] else [];
      NormalizedAppends(s[..1], s[1..]);
      MuteIsDropped(s[1..]);
      assert s[0] in s && forall c <- s[1..] :: c in s;
    }
  }

  lemma {:induction false} TrimLeftIsMute(s: string)
    ensures Normalized(TrimLeft(s)) == Normalized(s)
  {
    if s != [] && IsSpace(s[0]) {
      TrimLeftIsMute(s[1..]);
      MuteIsDropped(s[..1]);
      NormalizedAppends(s[..1], s[1..]);
      assert s == s[..1] + s[1..];
    }
  }

  lemma {:induction false} TrimRightIsMute(s: string)
    ensures Normalized(TrimRight(s)) == Normalized(s)
  {
    if s != [] && IsSpace(s[|s| - 1]) {
      var front, last := s[..|s| - 1], s[|s| - 1..];
      TrimRightIsMute(front);
      MuteIsDropped(last);
      NormalizedAppends(front, last);
      assert s == front + last;
    }
  }

  lemma TrimIsMute(s: string)
    ensures Normalized(Trim(s)) == Normalized(s)
  {
    TrimLeftIsMute(s);
    TrimRightIsMute(TrimLeft(s));
  }

  // The second letter of every keyword reads as itself, in either case.
  lemma KeywordIsHeard(s: string)
    requires HasKeyword(s)
    ensures !IsMute(s)
  {
    var w, j :| 0 <= w < |KEYWORDS| && 0 <= j <= |s| && ReadsAt(s, j, KEYWORDS[w]);
    assert 'a' <= KEYWORDS[w][1] <= 'z' && KEYWORDS[w][1] != 's';
    assert Fold(s[j + 1]) == KEYWORDS[w][1];
    assert s[j + 1] in s;
  }

  // Dropping a marker drops a letter.
  lemma MarkerIsHeard(t: string, i: nat)
    requires i < |t| && IsMarker(t, i)
    ensures |Normalized(Trim(t[..i]))| < |Normalized(t)|
  {
    var inside := t[i + 1..|t| - 1];
    assert t == t[..i] + (t[i..i + 1] + (inside + t[|t| - 1..]));
    NormalizedAppends(t[..i], t[i..i + 1] + (inside + t[|t| - 1..]));
    NormalizedAppends(t[i..i + 1], inside + t[|t| - 1..]);
    NormalizedAppends(inside, t[|t| - 1..]);
    TrimIsMute(t[..i]);
    KeywordIsHeard(inside);
    MuteIsDropped(inside);
  }

  lemma {:induction false} BaseIsHeard(t: string)
    requires IsTrimmed(t)
    ensures Normalized(Base(t)) == Normalized(t) ==> Base(t) == t
    ensures |Normalized(Base(t))| <= |Normalized(t)|
    decreases |t|
  {
    ShorterIsShorter(t);
    if Shorter(t) != t && Shorter(t) != "" {
      MarkerIsHeard(t, Leftmost(t, 0));
      BaseIsHeard(Shorter(t));
    }
  }

  // ---- Variants of a title -----------------------------------------------------------------

  // An opening parenthesis that nothing closes.
  predicate Opens(t: string, i: nat)
    requires i < |t|
  {
    t[i] == '(' && ')' !in t[i + 1..]
  }

  // The first one at or after a position, or the length when there is none.
  function FirstOpen(t: string, from: nat): (u: nat)
    requires from <= |t|
    ensures from <= u <= |t| && (u < |t| ==> Opens(t, u))
    ensures forall k :: from <= k < u ==> !Opens(t, k)
    decreases |t| - from
  {
    if from == |t| || Opens(t, from) then from else FirstOpen(t, from + 1)
  }

  // Every opening parenthesis is followed by a closing one.
  predicate IsClosed(t: string) {
    FirstOpen(t, 0) == |t|
  }

  function Variant(t: string, marker: string): string {
    t + " (" + marker + ")"
  }

  /**
   A title and its variant with an edition marker share a key exactly when the title closes its
   parentheses, or when what follows its first open one has no letter or digit and what precedes it is
   not empty and ends in no marker: the expression swallows the variant from that parenthesis.
   */
  lemma VariantSharesTheKey(title: string, marker: string)
    requires HasKeyword(marker) && ')' !in marker
    requires IsTrimmed(title) && title != ""
    ensures var u := FirstOpen(title, 0);
      KeyOf(Variant(title, marker)) == KeyOf(title) <==>
        || IsClosed(title)
        || (IsMute(title[u..]) && Trim(title[..u]) != "" && EndsInNoMarker(Trim(title[..u])))
  {
    if IsClosed(title) { ClosedVariant(title, marker); } else { OpenVariant(title, marker); }
  }

  // Or is nothing but a marker.
  predicate EndsInNoMarker(t: string) {
    Shorter(t) == t || Shorter(t) == ""
  }

  lemma OpenVariant(title: string, marker: string)
    requires HasKeyword(marker) && ')' !in marker
    requires IsTrimmed(title) && title != "" && !IsClosed(title)
    ensures var u := FirstOpen(title, 0);
      KeyOf(Variant(title, marker)) == KeyOf(title) <==>
        IsMute(title[u..]) && Trim(title[..u]) != "" && EndsInNoMarker(Trim(title[..u]))
  {
    var u := FirstOpen(title, 0);
    OpenTitle(title);
    SwallowedVariant(title, marker);
    if Trim(title[..u]) == "" { VariantIsLonger(title, marker); } else { SameWithout(title, u); }
  }

  // A prefix without its markers reads as the whole title.
  lemma SameWithout(title: string, u: nat)
    requires u <= |title|
    ensures (TrimTrims(title[..u]); Normalized(Base(Trim(title[..u]))) == Normalized(title)) <==>
      IsMute(title[u..]) && EndsInNoMarker(Trim(title[..u]))
  {
    var p := Trim(title[..u]);
    TrimTrims(title[..u]);
    assert title == title[..u] + title[u..];
    NormalizedAppends(title[..u], title[u..]);
    TrimIsMute(title[..u]);
    MuteIsDropped(title[u..]);
    BaseIsHeard(p);
    BaseIsLast(p);
  }

  // An open title ends in no marker.
  lemma OpenTitle(title: string)
    requires IsTrimmed(title) && !IsClosed(title)
    ensures KeyOf(title) == Normalized(title)
  {
    var u := FirstOpen(title, 0);
    AlreadyTrimmed(title);
    assert title[|title| - 1] != ')' by {
      if u < |title| - 1 { assert title[u + 1..][|title| - u - 2] == title[|title| - 1]; }
    }
    assert Strip(title) == title;
  }

  // The leftmost match begins at the first open parenthesis.
  lemma SwallowedVariant(title: string, marker: string)
    requires HasKeyword(marker) && ')' !in marker
    requires IsTrimmed(title) && !IsClosed(title)
    ensures var t, p := Variant(title, marker), Trim(title[..FirstOpen(title, 0)]);
      KeyOf(t) == if p == "" then Normalized(t) else (TrimTrims(title[..FirstOpen(title, 0)]); Normalized(Base(p)))
  {
    var t, u := Variant(title, marker), FirstOpen(title, 0);
    AlreadyTrimmed(t);
    OpenMatches(title, marker);
    assert Leftmost(t, 0) == u by {
      forall i | 0 <= i < u ensures !IsMarker(t, i) { ClosedBefore(title, marker, i); }
    }
    assert Strip(t) == title[..u];
    TrimShortens(title[..u]);
  }

  lemma OpenMatches(title: string, marker: string)
    requires HasKeyword(marker) && ')' !in marker && !IsClosed(title)
    ensures IsMarker(Variant(title, marker), FirstOpen(title, 0))
  {
    var t, u := Variant(title, marker), FirstOpen(title, 0);
    var inside, before := t[u + 1..|t| - 1], title[u + 1..] + " (";
    assert inside == before + marker;
    forall k | u < k < |t| - 1 ensures t[k] != ')' {
      assert t[k] == inside[k - u - 1];
    }
    KeywordAfter(before, marker);
  }

  lemma KeywordAfter(before: string, s: string)
    requires HasKeyword(s)
    ensures HasKeyword(before + s)
  {
    var w, j :| 0 <= w < |KEYWORDS| && 0 <= j <= |s| && ReadsAt(s, j, KEYWORDS[w]);
    ReadsShifted(before, s, j, KEYWORDS[w]);
  }

  lemma ReadsShifted(before: string, s: string, j: nat, keyword: string)
    requires ReadsAt(s, j, keyword)
    ensures ReadsAt(before + s, |before| + j, keyword)
  {
  }

  lemma ClosedBefore(title: string, marker: string, i: nat)
    requires i < FirstOpen(title, 0)
    ensures !IsMarker(Variant(title, marker), i)
  {
    var t := Variant(title, marker);
    assert !Opens(title, i);
    if title[i] == '(' {
      var k :| 0 <= k < |title[i + 1..]| && title[i + 1..][k] == ')';
      assert t[i + 1 + k] == ')';
    }
  }

  lemma VariantIsLonger(title: string, marker: string)
    requires HasKeyword(marker)
    ensures |Normalized(Variant(title, marker))| > |Normalized(title)|
  {
    KeywordIsHeard(marker);
    MuteIsDropped(marker);
    NormalizedAppends(title + " (" + marker, ")");
    NormalizedAppends(title + " (", marker);
    NormalizedAppends(title, " (");
  }

  lemma ClosedVariant(title: string, marker: string)
    requires HasKeyword(marker) && ')' !in marker
    requires IsTrimmed(title) && title != "" && IsClosed(title)
    ensures KeyOf(Variant(title, marker)) == KeyOf(title)
  {
    var t := Variant(title, marker);
    AlreadyTrimmed(t);
    AlreadyTrimmed(title);
    OnlyTheMarker(title, marker);
    assert Strip(t) == title + " ";
    TrimSpaceAfter(title);
    assert Shorter(t) == title;
  }

  lemma OnlyTheMarker(title: string, marker: string)
    requires HasKeyword(marker) && ')' !in marker && IsClosed(title)
    ensures Leftmost(Variant(title, marker), 0) == |title| + 1
  {
    var t, at := Variant(title, marker), |title| + 1;
    assert t[at + 1..|t| - 1] == marker;
    assert forall k :: at < k < |t| - 1 ==> t[k] == marker[k - at - 1];
    assert IsMarker(t, at);
    forall i | 0 <= i < at ensures !IsMarker(t, i) {
      if i < |title| { ClosedBefore(title, marker, i); }
    }
  }

  /** With an open parenthesis and a letter after it, the variant is grouped elsewhere. */
  lemma OpenParenthesisSplitsTheGroup()
    ensures KeyOf(Variant("A (B", "Deluxe")) != KeyOf("A (B")
  {
    var title := "A (B";
    assert !Opens(title, 0) && !Opens(title, 1) && title[3..] == "B" && Opens(title, 2);
    assert FirstOpen(title, 0) == 2;
    assert 'B' in title[2..] && IsKept(LowerChar('B'));
    assert ReadsAt("Deluxe", 0, KEYWORDS[0]);
    VariantSharesTheKey(title, "Deluxe");
  }

  // ---- The words of a marker -------------------------------------------------------------

  // The character reads as the letter, in either case; the long s reads as an s.
  predicate ReadsAs(c: char, letter: char) {
    c == letter || c as int == letter as int - 32 || (letter == 's' && c as int == 0x17F)
  }

  /** A text names an edition exactly when one of fourteen words stands in it, in either case. */
  lemma EditionWords(s: string)
    ensures HasKeyword(s) <==> exists w, j ::
      && w in {"deluxe", "extended", "expanded", "anniversary", "edition", "remaster", "bonus", "special",
               "platinum", "collector", "definitive", "reissue", "complete", "plus"}
      && 0 <= j <= |s| && StandsAt(s, j, w)
  {
    forall w: nat, j: nat | w < |KEYWORDS| && j <= |s|
      ensures ReadsAt(s, j, KEYWORDS[w]) <==> StandsAt(s, j, KEYWORDS[w])
    {
      WordReads(s, j, w);
    }
    KeywordsAre();
    if HasKeyword(s) {
      var w: nat, j: nat :| w < |KEYWORDS| && j <= |s| && ReadsAt(s, j, KEYWORDS[w]);
      assert StandsAt(s, j, KEYWORDS[w]);
    }
  }

  predicate StandsAt(s: string, j: nat, word: string) {
    j + |word| <= |s| && forall k :: 0 <= k < |word| ==> ReadsAs(s[j + k], word[k])
  }

  lemma KeywordsAre()
    ensures (set w: nat | w < |KEYWORDS| :: KEYWORDS[w]) ==
      {"deluxe", "extended", "expanded", "anniversary", "edition", "remaster", "bonus", "special",
       "platinum", "collector", "definitive", "reissue", "complete", "plus"}
  {
    assert KEYWORDS[0] == "deluxe" && KEYWORDS[1] == "extended" && KEYWORDS[2] == "expanded";
    assert KEYWORDS[3] == "anniversary" && KEYWORDS[4] == "edition" && KEYWORDS[5] == "remaster";
    assert KEYWORDS[6] == "bonus" && KEYWORDS[7] == "special" && KEYWORDS[8] == "platinum";
    assert KEYWORDS[9] == "collector" && KEYWORDS[10] == "definitive" && KEYWORDS[11] == "reissue";
    assert KEYWORDS[12] == "complete" && KEYWORDS[13] == "plus";
  }

  lemma WordReads(s: string, j: nat, w: nat)
    requires w < |KEYWORDS|
    ensures ReadsAt(s, j, KEYWORDS[w]) <==> StandsAt(s, j, KEYWORDS[w])
  {
    var word := KEYWORDS[w];
    assert forall k :: 0 <= k < |word| ==> 'a' <= word[k] <= 'z';
    if j + |word| <= |s| {
      forall k | 0 <= k < |word| ensures Fold(s[j + k]) == word[k] <==> ReadsAs(s[j + k], word[k]) {
        FoldReads(s[j + k], word[k]);
      }
    }
  }

  lemma FoldReads(c: char, letter: char)
    requires 'a' <= letter <= 'z'
    ensures Fold(c) == letter <==> ReadsAs(c, letter)
  {
  }

  /** Other parentheses stay: a qualifier that names no edition is part of the key. */
  lemma OtherQualifiersStay(title: string, words: string)
    requires IsTrimmed(title) && title != "" && IsClosed(title)
    requires !HasKeyword(words) && '(' !in words
    ensures KeyOf(title + " (" + words + ")") == Normalized(title) + Normalized(words)
  {
    var t := title + " (" + words + ")";
    AlreadyTrimmed(t);
    forall i: nat | i < |t| ensures !IsMarker(t, i) {
      if i < |title| { ClosedBefore(title, words, i); } else { OnlyParenthesis(title, words, i); }
    }
    assert Strip(t) == t;
    NormalizedAppends(title + " (" + words, ")");
    NormalizedAppends(title + " (", words);
    NormalizedAppends(title, " (");
    MuteIsDropped(" (");
    MuteIsDropped(")");
  }

  lemma OnlyParenthesis(title: string, words: string, i: nat)
    requires !HasKeyword(words) && '(' !in words && |title| <= i < |title + " (" + words + ")"|
    ensures !IsMarker(title + " (" + words + ")", i)
  {
    var t := title + " (" + words + ")";
    if i == |title| + 1 {
      assert t[i + 1..|t| - 1] == words;
    } else if |title| + 2 <= i < |t| - 1 {
      assert t[i] == words[i - |title| - 2];
    }
  }
}
