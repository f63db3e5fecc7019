/**
 What album matching reads in the text of a release: normalised titles, provider families, and decimal
 years.
 */
module Titles {
  import opened Wrappers
  import opened Text

  type Int64 = x: int | -0x8000_0000_0000_0000 <= x < 0x8000_0000_0000_0000

  // ---- normalizeTitle ------------------------------------------------------------------

  predicate IsKept(c: char) {
    'a' <= c <= 'z' || '0' <= c <= '9'
  }

  function Kept(s: string): string {
    if s == [] then []
    else Kept(s[..|s| - 1]) + if IsKept(s[|s| - 1]) then [s[|s| - 1]] else []
  }

  function Normalized(title: string): string {
    Kept(Lower(title))
  }

  method NormalizeTitle(title: string) returns (r: string)
    ensures r == Normalized(title)
  {
    r := [];
    var lower := Lower(title);
    for i := 0 to |lower|
      invariant r == Kept(lower[..i])
    {
      assert lower[..i + 1][..i] == lower[..i];
      if IsKept(lower[i]) { r := r + [lower[i]]; }
    }
    assert lower[..|lower|] == lower;
  }

  lemma {:induction false} KeptAreKept(s: string)
    ensures forall c <- Kept(s) :: IsKept(c)
  {
    if s != [] { KeptAreKept(s[..|s| - 1]); }
  }

  lemma {:induction false} KeptStay(s: string)
    requires forall c <- s :: IsKept(c)
    ensures Kept(s) == s && Lower(s) == s
  {
    if s != [] {
      KeptStay(s[..|s| - 1]);
      KeptStayLower(s);
    }
  }

  lemma {:induction false} KeptStayLower(s: string)
    requires forall c <- s :: IsKept(c)
    ensures Lower(s) == s
  {
    if s != [] {
      assert s[0] in s;
      KeptStayLower(s[1..]);
    }
  }

  /** A normalised title has only lower-case ASCII letters and digits, and normalising it again changes nothing. */
  lemma NormalizedIsNormal(title: string)
    ensures forall c <- Normalized(title) :: IsKept(c)
    ensures Normalized(Normalized(title)) == Normalized(title)
  {
    KeptAreKept(Lower(title));
    KeptStay(Normalized(title));
  }

  lemma {:induction false} KeptAppends(a: string, b: string)
    ensures Kept(a + b) == Kept(a) + Kept(b)
    decreases |b|
  {
    if b == [] {
      assert a + b == a;
    } else {
      assert (a + b)[..|a + b| - 1] == a + b[..|b| - 1];
      KeptAppends(a, b[..|b| - 1]);
    }
  }

  /** Titles are normalised piece by piece. */
  lemma NormalizedAppends(a: string, b: string)
    ensures Normalized(a + b) == Normalized(a) + Normalized(b)
  {
    LowerAppends(a, b);
    KeptAppends(Lower(a), Lower(b));
  }

  /** Of a single character, lower-case ASCII letters and digits are kept as they are, upper-case letters in
      lower case, the Kelvin sign and the dotted capital I as the letters they become, and nothing else. */
  lemma NormalizedLetter(c: char)
    ensures Normalized([c]) ==
      if 'a' <= c <= 'z' || '0' <= c <= '9' then [c]
      else if 'A' <= c <= 'Z' then [(c as int + 32) as char]
      else if c as int == 0x212A then "k" else if c as int == 0x130 then "i" else ""
  {
    assert Lower([c]) == [LowerChar(c)];
    assert [LowerChar(c)][..0] == [];
    assert Kept([LowerChar(c)]) == if IsKept(LowerChar(c)) then [LowerChar(c)] else [];
  }

  // ---- providerFamily ------------------------------------------------------------------

  // strings.IndexAny(s, ":_"), or the length when there is none.
  function FirstSeparator(s: string): (i: nat)
    ensures i <= |s|
  {
    if s == [] || s[0] == ':' || s[0] == '_' then 0 else 1 + FirstSeparator(s[1..])
  }

  function ProviderFamily(provider: string): string {
    var p := Lower(Trim(provider));
    var i := FirstSeparator(p);
    var head := if 0 < i then p[..i] else p;
    if head == "mbid" || head == "mb" then "musicbrainz" else head
  }

  lemma {:induction false} SeparatorAt(s: string, k: nat)
    requires k < |s| && (s[k] == ':' || s[k] == '_')
    requires forall j :: 0 <= j < k ==> s[j] != ':' && s[j] != '_'
    ensures FirstSeparator(s) == k
  {
    if k > 0 { SeparatorAt(s[1..], k - 1); }
  }

  lemma {:induction false} NoSeparator(s: string)
    requires forall c <- s :: c != ':' && c != '_'
    ensures FirstSeparator(s) == |s|
  {
    if s != [] {
      assert s[0] in s && forall c <- s[1..] :: c in s;
      NoSeparator(s[1..]);
    }
  }

  predicate IsName(s: string) {
    s != [] && forall c <- s :: 'a' <= c <= 'z'
  }

  // What may follow the name of a provider: white space, or a separator and anything.
  predicate Qualifies(after: string) {
    Blank(after) || after[0] == ':' || after[0] == '_'
  }

  // A name as it may be written: in either case, after white space, and qualified.
  predicate Writes(provider: string, name: string, before: string, shown: string, after: string) {
    && provider == before + shown + after && Blank(before) && Qualifies(after)
    && IsName(name) && Lower(shown) == name
  }

  lemma ShownIsNoSpace(shown: string, name: string, k: nat)
    requires IsName(name) && Lower(shown) == name && k < |shown|
    ensures !IsSpace(shown[k]) && shown[k] != ':' && shown[k] != '_'
  {
    LowerAt(shown, k);
    assert name[k] in name;
  }

  // What trimming leaves of it, up to the end of the name.
  lemma WrittenStart(provider: string, name: string, before: string, shown: string, after: string)
    requires Writes(provider, name, before, shown, after)
    ensures var t := Trim(provider);
      && |name| <= |t| && t[..|name|] == shown
      && (|name| == |t| || t[|name|] == ':' || t[|name|] == '_')
  {
    var rest := shown + after;
    ShownIsNoSpace(shown, name, 0);
    assert provider == before + rest;
    TrimLeftDrops(before, rest);
    ShownIsNoSpace(shown, name, |shown| - 1);
    if Blank(after) {
      TrimRightDrops(shown, after);
    } else {
      assert rest[|shown|] == after[0];
      TrimRightKeeps(rest, |shown| + 1);
    }
  }

  /** The family of a provider is its name in lower case, without white space and what qualifies it; mbid
      and mb are musicbrainz. */
  lemma FamilyIsTheName(provider: string, name: string, before: string, shown: string, after: string)
    requires Writes(provider, name, before, shown, after)
    ensures ProviderFamily(provider) == if name == "mbid" || name == "mb" then "musicbrainz" else name
  {
    var t, p, n := Trim(provider), Lower(Trim(provider)), |name|;
    WrittenStart(provider, name, before, shown, after);
    forall k | 0 <= k < n ensures p[k] == name[k] {
      LowerAt(t, k);
      LowerAt(shown, k);
    }
    assert p[..n] == name;
    forall j | 0 <= j < n ensures p[j] != ':' && p[j] != '_' { assert name[j] in name; }
    if n < |t| {
      LowerAt(t, n);
      SeparatorAt(p, n);
    } else {
      NoSeparator(p);
    }
  }

  /** A provider and its qualified forms are one family. */
  lemma QualifiedNamesShareAFamily(name: string, separator: char, rest: string)
    requires IsName(name) && (separator == ':' || separator == '_')
    ensures ProviderFamily(name + [separator] + rest) == ProviderFamily(name)
  {
    LowerOfName(name);
    assert name + [separator] + rest == "" + name + ([separator] + rest) && name == "" + name + "";
    FamilyIsTheName(name + [separator] + rest, name, "", name, [separator] + rest);
    FamilyIsTheName(name, name, "", name, "");
  }

  // Plain names of one provider.
  predicate OneProvider(a: string, b: string) {
    a == b || (a in {"mbid", "mb", "musicbrainz"} && b in {"mbid", "mb", "musicbrainz"})
  }

  /** Two plain names are one family exactly when they are equal, or both name MusicBrainz. */
  lemma FamiliesOfNames(a: string, b: string)
    requires IsName(a) && IsName(b)
    ensures ProviderFamily(a) == ProviderFamily(b) <==> OneProvider(a, b)
  {
    LowerOfName(a);
    LowerOfName(b);
    assert a == "" + a + "" && b == "" + b + "";
    FamilyIsTheName(a, a, "", a, "");
    FamilyIsTheName(b, b, "", b, "");
  }

  lemma {:induction false} LowerOfName(s: string)
    requires forall c <- s :: 'a' <= c <= 'z'
    ensures Lower(s) == s
  {
    if s != [] {
      assert s[0] in s && forall c <- s[1..] :: c in s;
      LowerOfName(s[1..]);
    }
  }

  // ---- Years ---------------------------------------------------------------------------

  // strconv.Itoa, for positive numbers.
  function Itoa(n: nat): string {
    if n < 10 then [Digit(n)] else Itoa(n / 10) + [Digit(n % 10)]
  }

  function Digit(n: nat): char
    requires n < 10
  {
    ('0' as int + n) as char
  }

  predicate IsDigit(c: char) {
    '0' <= c <= '9'
  }

  function Number(s: string): nat
    requires forall c <- s :: IsDigit(c)
  {
    if s == [] then 0
    else
      assert IsDigit(s[|s| - 1]);
      10 * Number(s[..|s| - 1]) + (s[|s| - 1] as int - '0' as int)
  }

  // strconv.Atoi: an optional sign, digits, and a result that fits 64 bits.
  function Atoi(s: string): Option<int> {
    var signed := s != [] && (s[0] == '-' || s[0] == '+');
    var digits := if signed then s[1..] else s;
    if digits == [] || exists c <- digits :: !IsDigit(c) then None
    else
      var n: int := if signed && s[0] == '-' then -(Number(digits) as int) else Number(digits) as int;
      if n < -0x8000_0000_0000_0000 || n >= 0x8000_0000_0000_0000 then None else Some(n)
  }

  // 64-bit subtraction.
  function Minus(a: int, b: int): int {
    (a - b + 0x8000_0000_0000_0000) % 0x1_0000_0000_0000_0000 - 0x8000_0000_0000_0000
  }

  predicate YearsCompatible(entryYear: Int64, localYear: string) {
    if entryYear == 0 || localYear == "" then true
    else
      match Atoi(localYear)
      case None => true
      case Some(local) => -1 <= Minus(entryYear, local) <= 1
  }

  lemma {:induction false} ItoaNumber(n: nat)
    ensures forall c <- Itoa(n) :: IsDigit(c)
    ensures Itoa(n) != [] && Number(Itoa(n)) == n
  {
    if n >= 10 {
      ItoaNumber(n / 10);
      assert Itoa(n)[..|Itoa(n)| - 1] == Itoa(n / 10);
    }
  }

  /** A year printed and parsed again is itself. */
  lemma AtoiItoa(year: Int64)
    requires year > 0
    ensures Atoi(Itoa(year)) == Some(year)
  {
    ItoaNumber(year);
    assert Itoa(year)[0] in Itoa(year);
  }

  /** The exact-year match is a special case of the compatible one. */
  lemma SameYearIsCompatible(year: Int64)
    requires year > 0
    ensures YearsCompatible(year, Itoa(year))
  {
    AtoiItoa(year);
  }

  /** Years of four digits, as they are written. */
  lemma FourDigits(a: nat, b: nat, c: nat, d: nat)
    requires 0 < a < 10 && b < 10 && c < 10 && d < 10
    ensures Itoa(a * 1000 + b * 100 + c * 10 + d) ==
      [('0' as int + a) as char, ('0' as int + b) as char, ('0' as int + c) as char, ('0' as int + d) as char]
  {
    var n := a * 1000 + b * 100 + c * 10 + d;
    assert n / 10 == a * 100 + b * 10 + c && n % 10 == d;
    assert n / 10 / 10 == a * 10 + b && n / 10 % 10 == c;
    assert n / 10 / 10 / 10 == a && n / 10 / 10 % 10 == b;
    NextDigit(n, d);
    NextDigit(n / 10, c);
    NextDigit(n / 10 / 10, b);
    assert Itoa(a) == [Digit(a)];
  }

  lemma NextDigit(n: nat, d: nat)
    requires n >= 10 && n % 10 == d
    ensures Itoa(n) == Itoa(n / 10) + [('0' as int + d) as char]
  {
  }

  /** Printed years are compatible exactly when they are at most one year apart. */
  lemma YearsCompatibleIff(y: Int64, z: Int64)
    requires y > 0 && z > 0
    ensures YearsCompatible(y, Itoa(z)) <==> -1 <= y - z <= 1
  {
    AtoiItoa(z);
    ItoaNumber(z);
  }

  /** An unknown year, and one that is not written in digits, is compatible with every year. */
  lemma UnknownYearIsCompatible(y: Int64, written: string)
    requires y == 0 || written == "" || (exists c <- written :: !('0' <= c <= '9') && c != '-' && c != '+')
    ensures YearsCompatible(y, written)
  {
    if y != 0 && written != "" {
      var c :| c in written && !('0' <= c <= '9') && c != '-' && c != '+';
      var digits := if written[0] == '-' || written[0] == '+' then written[1..] else written;
      assert c in digits && !IsDigit(c);
      assert Atoi(written) == None;
    }
  }
}
