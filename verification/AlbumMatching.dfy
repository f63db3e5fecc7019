/**
 Linking the entries of a provider's discography to the albums of a library, each album at most
 once: a first pass by external ids, a second by title and year.
 */
module AlbumMatching {
  import opened Wrappers
  import opened Text
  import opened Titles

  type Id = int

  // `externalIds` is absent when the stored JSON does not parse.
  datatype Album = Album(
    id: Id, musicbrainzId: string, externalIds: Option<map<string, string>>, title: string, year: string)

  datatype Entry = Entry(externalIds: map<string, string>, title: string, year: Int64)

  // ---- What fits -----------------------------------------------------------------------

  // The entry has the id, in lower case, under a provider of the family.
  ghost predicate HasId(e: Entry, family: string, value: string) {
    exists p <- e.externalIds ::
      && Trim(e.externalIds[p]) != ""
      && ProviderFamily(p) == family && Lower(Trim(e.externalIds[p])) == value
  }

  ghost predicate HasAnyId(e: Entry, value: string) {
    exists family :: HasId(e, family, value)
  }

  ghost predicate SharesId(e: Entry, ids: map<string, string>) {
    exists p <- ids :: ids[p] != "" && HasId(e, ProviderFamily(p), Lower(Trim(ids[p])))
  }

  ghost predicate IdMatch(e: Entry, a: Album) {
    || (a.musicbrainzId != "" && HasAnyId(e, Lower(a.musicbrainzId)))
    || (a.externalIds.Some? && SharesId(e, a.externalIds.value))
  }

  predicate SameTitle(e: Entry, a: Album) {
    Normalized(a.title) == Normalized(e.title)
  }

  predicate YearMatch(e: Entry, a: Album) {
    e.year > 0 && SameTitle(e, a) && a.year == Itoa(e.year)
  }

  predicate TitleMatch(e: Entry, a: Album) {
    SameTitle(e, a) && YearsCompatible(e.year, a.year)
  }

  datatype Kind = ByIds | ByYear | ByTitle

  ghost predicate Fits(e: Entry, a: Album, kind: Kind) {
    match kind
    case ByIds => IdMatch(e, a)
    case ByYear => YearMatch(e, a)
    case ByTitle => TitleMatch(e, a)
  }

  // ---- The matching, as a function ---------------------------------------------------------

  // The first album that fits and is not claimed.
  ghost function Best(locals: seq<Album>, e: Entry, kind: Kind, claimed: set<Id>): Option<Id> {
    if locals == [] then None
    else if locals[0].id !in claimed && Fits(e, locals[0], kind) then Some(locals[0].id)
    else Best(locals[1..], e, kind, claimed)
  }

  // The album of each entry, and the albums that are taken.
  datatype Table = Table(ids: seq<Option<Id>>, claimed: set<Id>)

  function Claim(t: Table, i: nat, choice: Option<Id>): Table
    requires i < |t.ids|
  {
    if choice.Some? then Table(t.ids[i := choice], t.claimed + {choice.value}) else t
  }

  // The table after the id pass over the first n entries.
  ghost function IdPass(entries: seq<Entry>, locals: seq<Album>, n: nat): (t: Table)
    requires n <= |entries|
    ensures |t.ids| == |entries|
  {
    if n == 0 then Table(seq(|entries|, _ => None), {})
    else
      var t := IdPass(entries, locals, n - 1);
      Claim(t, n - 1, Best(locals, entries[n - 1], ByIds, t.claimed))
  }

  ghost function TitleChoice(locals: seq<Album>, e: Entry, claimed: set<Id>): Option<Id> {
    var exact := Best(locals, e, ByYear, claimed);
    if exact.Some? then exact else Best(locals, e, ByTitle, claimed)
  }

  // The table after both passes, the second over the first n entries.
  ghost function TitlePass(entries: seq<Entry>, locals: seq<Album>, n: nat): (t: Table)
    requires n <= |entries|
    ensures |t.ids| == |entries|
  {
    if n == 0 then IdPass(entries, locals, |entries|)
    else
      var t := TitlePass(entries, locals, n - 1);
      if t.ids[n - 1].Some? then t else Claim(t, n - 1, TitleChoice(locals, entries[n - 1], t.claimed))
  }

  // ---- The matching, as the source runs it ---------------------------------------------------

  method EntryIds(e: Entry) returns (byFamily: map<string, set<string>>, anyFamily: set<string>)
    ensures forall family, value :: InFamily(byFamily, family, value) <==> HasId(e, family, value)
    ensures forall value :: value in anyFamily <==> HasAnyId(e, value)
    ensures byFamily == map[] ==> forall family, value :: !HasId(e, family, value)
  {
    byFamily, anyFamily := map[], {};
    var rest := e.externalIds.Keys;
    ghost var seen: set<string> := {};
    while rest != {}
      invariant seen + rest == e.externalIds.Keys
      invariant forall family, value :: InFamily(byFamily, family, value) <==> HasIdIn(e, seen, family, value)
      invariant forall value :: value in anyFamily <==> exists family :: HasIdIn(e, seen, family, value)
      decreases |rest|
    {
      var provider :| provider in rest;
      var value := Trim(e.externalIds[provider]);
      ghost var was, wasAny := byFamily, anyFamily;
      if value != "" {
        var family := ProviderFamily(provider);
        var ids := if family in byFamily then byFamily[family] else {};
        byFamily := byFamily[family := ids + {Lower(value)}];
        anyFamily := anyFamily + {Lower(value)};
      }
      IdsGrow(e, seen, provider, was, byFamily, wasAny, anyFamily);
      seen, rest := seen + {provider}, rest - {provider};
    }
    assert seen == e.externalIds.Keys;
    forall family, value ensures HasIdIn(e, seen, family, value) <==> HasId(e, family, value) {}
  }

  predicate InFamily(byFamily: map<string, set<string>>, family: string, value: string) {
    family in byFamily && value in byFamily[family]
  }

  ghost predicate HasIdIn(e: Entry, providers: set<string>, family: string, value: string) {
    exists p <- e.externalIds ::
      && p in providers && Trim(e.externalIds[p]) != ""
      && ProviderFamily(p) == family && Lower(Trim(e.externalIds[p])) == value
  }

  lemma IdsGrow(e: Entry, seen: set<string>, provider: string,
                was: map<string, set<string>>, now: map<string, set<string>>, wasAny: set<string>, nowAny: set<string>)
    requires provider in e.externalIds
    requires forall family, value :: InFamily(was, family, value) <==> HasIdIn(e, seen, family, value)
    requires forall value :: value in wasAny <==> exists family :: HasIdIn(e, seen, family, value)
    requires var value, family := Trim(e.externalIds[provider]), ProviderFamily(provider);
      if value == "" then now == was && nowAny == wasAny
      else
        && now == was[family := (if family in was then was[family] else {}) + {Lower(value)}]
        && nowAny == wasAny + {Lower(value)}
    ensures forall family, value :: InFamily(now, family, value) <==> HasIdIn(e, seen + {provider}, family, value)
    ensures forall value :: value in nowAny <==> exists family :: HasIdIn(e, seen + {provider}, family, value)
  {
    var mine, family := Trim(e.externalIds[provider]), ProviderFamily(provider);
    forall f, value
      ensures HasIdIn(e, seen + {provider}, f, value)
        <==> HasIdIn(e, seen, f, value) || (mine != "" && f == family && value == Lower(mine))
    {
      if HasIdIn(e, seen, f, value) {
        var p :| p in e.externalIds && p in seen && Trim(e.externalIds[p]) != ""
          && ProviderFamily(p) == f && Lower(Trim(e.externalIds[p])) == value;
        assert p in seen + {provider};
      }
    }
    forall value
      ensures value in nowAny <==> exists f :: HasIdIn(e, seen + {provider}, f, value)
    {
      if value in wasAny {
        var f :| HasIdIn(e, seen, f, value);
        assert HasIdIn(e, seen + {provider}, f, value);
      } else if mine != "" && value == Lower(mine) {
        assert HasIdIn(e, seen + {provider}, family, value);
      }
    }
  }

  method MatchesIds(e: Entry, a: Album, byFamily: map<string, set<string>>, anyFamily: set<string>)
    returns (matched: bool)
    requires forall family, value :: InFamily(byFamily, family, value) <==> HasId(e, family, value)
    requires forall value :: value in anyFamily <==> HasAnyId(e, value)
    ensures matched <==> IdMatch(e, a)
  {
    if a.musicbrainzId != "" && Lower(a.musicbrainzId) in anyFamily { return true; }
    if a.externalIds.None? { return false; }
    var ids := a.externalIds.value;
    var rest := ids.Keys;
    while rest != {}
      invariant rest <= ids.Keys
      invariant forall p <- ids :: p !in rest && ids[p] != "" ==> !HasId(e, ProviderFamily(p), Lower(Trim(ids[p])))
      decreases |rest|
    {
      var provider :| provider in rest;
      rest := rest - {provider};
      if ids[provider] == "" { continue; }
      var family := ProviderFamily(provider);
      if family in byFamily && Lower(Trim(ids[provider])) in byFamily[family] {
        assert InFamily(byFamily, family, Lower(Trim(ids[provider])));
        return true;
      }
      assert !InFamily(byFamily, family, Lower(Trim(ids[provider])));
    }
    matched := false;
  }

  // An album that does not fit, or is taken, is passed over.
  lemma {:induction false} BestSkips(locals: seq<Album>, k: nat, e: Entry, kind: Kind, claimed: set<Id>)
    requires k <= |locals|
    requires forall j :: 0 <= j < k ==> locals[j].id in claimed || !Fits(e, locals[j], kind)
    ensures Best(locals, e, kind, claimed) == Best(locals[k..], e, kind, claimed)
  {
    if k == 0 {
      assert locals[0..] == locals;
    } else {
      assert locals[1..][k - 1..] == locals[k..];
      BestSkips(locals[1..], k - 1, e, kind, claimed);
    }
  }

  // The inner loop of the first pass.
  method FirstById(locals: seq<Album>, e: Entry, claimed: set<Id>) returns (choice: Option<Id>)
    ensures choice == Best(locals, e, ByIds, claimed)
  {
    var byFamily, anyFamily := EntryIds(e);
    if byFamily == map[] {
      assert forall a <- locals :: !IdMatch(e, a);
      BestSkips(locals, |locals|, e, ByIds, claimed);
      return None;
    }
    for k := 0 to |locals|
      invariant forall j :: 0 <= j < k ==> locals[j].id in claimed || !Fits(e, locals[j], ByIds)
    {
      if locals[k].id in claimed { continue; }
      var matched := MatchesIds(e, locals[k], byFamily, anyFamily);
      if matched {
        BestSkips(locals, k, e, ByIds, claimed);
        return Some(locals[k].id);
      }
    }
    BestSkips(locals, |locals|, e, ByIds, claimed);
    choice := None;
  }

  // The two inner loops of the second pass.
  method FirstByTitle(locals: seq<Album>, e: Entry, claimed: set<Id>) returns (choice: Option<Id>)
    ensures choice == TitleChoice(locals, e, claimed)
  {
    var wantTitle := NormalizeTitle(e.title);
    if e.year > 0 {
      var wantYear := Itoa(e.year);
      for k := 0 to |locals|
        invariant forall j :: 0 <= j < k ==> locals[j].id in claimed || !Fits(e, locals[j], ByYear)
      {
        if locals[k].id !in claimed && Normalized(locals[k].title) == wantTitle && locals[k].year == wantYear {
          BestSkips(locals, k, e, ByYear, claimed);
          return Some(locals[k].id);
        }
      }
    }
    BestSkips(locals, |locals|, e, ByYear, claimed);
    for k := 0 to |locals|
      invariant forall j :: 0 <= j < k ==> locals[j].id in claimed || !Fits(e, locals[j], ByTitle)
    {
      if locals[k].id !in claimed && Normalized(locals[k].title) == wantTitle
         && YearsCompatible(e.year, locals[k].year) {
        BestSkips(locals, k, e, ByTitle, claimed);
        return Some(locals[k].id);
      }
    }
    BestSkips(locals, |locals|, e, ByTitle, claimed);
    choice := None;
  }

  /** Both passes, over a table of album ids and a set of claimed ids that they fill in place. */
  method MatchLocalAlbums(entries: seq<Entry>, locals: seq<Album>) returns (albumIds: seq<Option<Id>>)
    ensures albumIds == TitlePass(entries, locals, |entries|).ids
  {
    albumIds := seq(|entries|, _ => None);
    var claimed := {};
    for i := 0 to |entries|
      invariant Table(albumIds, claimed) == IdPass(entries, locals, i)
    {
      var choice := FirstById(locals, entries[i], claimed);
      if choice.Some? {
        albumIds, claimed := albumIds[i := choice], claimed + {choice.value};
      }
    }
    for i := 0 to |entries|
      invariant Table(albumIds, claimed) == TitlePass(entries, locals, i)
    {
      if albumIds[i].Some? { continue; }
      var choice := FirstByTitle(locals, entries[i], claimed);
      if choice.Some? {
        albumIds, claimed := albumIds[i := choice], claimed + {choice.value};
      }
    }
  }
}
