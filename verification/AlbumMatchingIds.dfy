/**
 Which ids link an album, stated on the names of providers and the ids themselves.
 */
module AlbumMatchingIds {
  import opened Wrappers
  import opened Text
  import opened Titles
  import opened AlbumMatching
  import opened AlbumMatchingTheorems

  // Ids are compared without white space around them and in lower case.
  predicate SameId(a: string, b: string) {
    Trim(a) != "" && Lower(Trim(a)) == Lower(Trim(b))
  }

  // The providers of an entry and of an album, by their plain names.
  ghost predicate PlainNames(e: Entry, a: Album) {
    && (forall p <- e.externalIds :: IsName(p))
    && (a.externalIds.Some? ==> forall q <- a.externalIds.value :: IsName(q))
  }

  // The MusicBrainz column of the album holds an id of the entry, under whatever provider.
  ghost predicate InColumn(e: Entry, a: Album) {
    a.musicbrainzId != "" && exists p <- e.externalIds ::
      Trim(e.externalIds[p]) != "" && Lower(Trim(e.externalIds[p])) == Lower(a.musicbrainzId)
  }

  // Both have the id under one provider.
  ghost predicate UnderOneProvider(e: Entry, a: Album) {
    a.externalIds.Some? && exists p, q ::
      && p in e.externalIds && q in a.externalIds.value && OneProvider(p, q)
      && SameId(e.externalIds[p], a.externalIds.value[q])
  }

  /** An album fits an entry by ids exactly when its MusicBrainz column holds an id of the entry under any
      provider, or it has an id of the entry under the same provider, where mbid, mb and musicbrainz are
      one. */
  lemma IdMatchIff(e: Entry, a: Album)
    requires PlainNames(e, a)
    ensures IdMatch(e, a) <==> InColumn(e, a) || UnderOneProvider(e, a)
  {
    ColumnIff(e, a);
    if a.externalIds.Some? { ProvidersIff(e, a); }
  }

  lemma ColumnIff(e: Entry, a: Album)
    ensures InColumn(e, a) <==> a.musicbrainzId != "" && HasAnyId(e, Lower(a.musicbrainzId))
  {
    if InColumn(e, a) {
      var p :| p in e.externalIds && Trim(e.externalIds[p]) != ""
        && Lower(Trim(e.externalIds[p])) == Lower(a.musicbrainzId);
      assert HasId(e, ProviderFamily(p), Lower(a.musicbrainzId));
    }
  }

  lemma ProvidersIff(e: Entry, a: Album)
    requires PlainNames(e, a) && a.externalIds.Some?
    ensures UnderOneProvider(e, a) <==> SharesId(e, a.externalIds.value)
  {
    var ids := a.externalIds.value;
    if UnderOneProvider(e, a) {
      var p, q :| p in e.externalIds && q in ids && OneProvider(p, q) && SameId(e.externalIds[p], ids[q]);
      FamiliesOfNames(p, q);
      BlankIsNoId(ids[q]);
      assert HasId(e, ProviderFamily(q), Lower(Trim(ids[q])));
    }
    if SharesId(e, ids) {
      var q :| q in ids && ids[q] != "" && HasId(e, ProviderFamily(q), Lower(Trim(ids[q])));
      var p :| p in e.externalIds && Trim(e.externalIds[p]) != ""
        && ProviderFamily(p) == ProviderFamily(q) && Lower(Trim(e.externalIds[p])) == Lower(Trim(ids[q]));
      FamiliesOfNames(p, q);
      assert SameId(e.externalIds[p], ids[q]);
    }
  }

  lemma BlankIsNoId(id: string)
    ensures id == "" ==> Trim(id) == "" && Lower(Trim(id)) == ""
  {
  }

  // No other album of the list has its row id.
  predicate OnlyRow(locals: seq<Album>, a: Album) {
    forall b <- locals :: b.id == a.id ==> b == a
  }

  /** An album whose ids stand under other providers only, and whose title is another one, is not linked. */
  lemma OtherProvidersDoNotLink(entries: seq<Entry>, locals: seq<Album>, i: nat, a: Album)
    requires i < |entries| && a in locals && OnlyRow(locals, a) && PlainNames(entries[i], a)
    requires Normalized(a.title) != Normalized(entries[i].title) && !InColumn(entries[i], a)
    requires a.externalIds.Some? ==>
      forall p <- entries[i].externalIds, q <- a.externalIds.value :: OneProvider(p, q) ==>
        !SameId(entries[i].externalIds[p], a.externalIds.value[q])
    ensures Matching(entries, locals)[i] != Some(a.id)
  {
    IdMatchIff(entries[i], a);
    if Matching(entries, locals)[i] == Some(a.id) { EveryLinkIsJustified(entries, locals, i); }
  }

  /** An album that has an id of an entry under the same provider is not left over while the entry is. */
  lemma SameProviderLinks(entries: seq<Entry>, locals: seq<Album>, i: nat, a: Album)
    requires i < |entries| && a in locals && PlainNames(entries[i], a)
    requires InColumn(entries[i], a) || UnderOneProvider(entries[i], a)
    ensures Some(a.id) in Matching(entries, locals) || Matching(entries, locals)[i].Some?
  {
    IdMatchIff(entries[i], a);
    if Matching(entries, locals)[i].None? { NoFittingPairIsLeft(entries, locals, i, a); }
  }

  /** One entry and one album are linked exactly when they share an id so, or title and year fit. */
  lemma OnePairIff(e: Entry, a: Album)
    requires PlainNames(e, a)
    ensures Matching([e], [a]) ==
      if InColumn(e, a) || UnderOneProvider(e, a) || TitleMatch(e, a) then [Some(a.id)] else [None]
  {
    IdMatchIff(e, a);
    var m := Matching([e], [a]);
    if m[0].Some? {
      EveryLinkIsJustified([e], [a], 0);
    } else if IdMatch(e, a) || TitleMatch(e, a) {
      NoFittingPairIsLeft([e], [a], 0, a);
      assert false;
    }
  }

  // ---- Titles and years ------------------------------------------------------------------

  /** Without shared ids, an album is linked only if its title has the same letters and digits, and, where
      both years are known and printed, they are at most one year apart. */
  lemma DistantYearsDoNotLink(entries: seq<Entry>, locals: seq<Album>, i: nat, a: Album, year: Int64)
    requires i < |entries| && a in locals && OnlyRow(locals, a) && !IdMatch(entries[i], a)
    requires entries[i].year > 0 && year > 0 && a.year == Itoa(year)
    requires entries[i].year - year > 1 || year - entries[i].year > 1
    ensures Matching(entries, locals)[i] != Some(a.id)
  {
    YearsCompatibleIff(entries[i].year, year);
    if Matching(entries, locals)[i] == Some(a.id) { EveryLinkIsJustified(entries, locals, i); }
  }

  /** An album of the same title at most one year apart, or of unknown year, is not left over while an entry
      that fits it is. */
  lemma NearYearsLink(entries: seq<Entry>, locals: seq<Album>, i: nat, a: Album, year: Int64)
    requires i < |entries| && a in locals && Normalized(a.title) == Normalized(entries[i].title)
    requires a.year == "" || entries[i].year == 0 ||
      (entries[i].year > 0 && year > 0 && a.year == Itoa(year) && -1 <= entries[i].year - year <= 1)
    ensures Matching(entries, locals)[i].Some? || Some(a.id) in Matching(entries, locals)
  {
    if entries[i].year == 0 || a.year == "" {
      UnknownYearIsCompatible(entries[i].year, a.year);
    } else {
      YearsCompatibleIff(entries[i].year, year);
    }
    if Matching(entries, locals)[i].None? { NoFittingPairIsLeft(entries, locals, i, a); }
  }
}
