/**
 What the two greedy passes guarantee about the matching they leave.
 */
module AlbumMatchingTheorems {
  import opened Wrappers
  import opened Titles
  import opened AlbumMatching

  ghost function IdTable(entries: seq<Entry>, locals: seq<Album>): Table {
    IdPass(entries, locals, |entries|)
  }

  ghost function Matching(entries: seq<Entry>, locals: seq<Album>): (ids: seq<Option<Id>>)
    ensures |ids| == |entries|
  {
    TitlePass(entries, locals, |entries|).ids
  }

  // The ids of the albums that fit an entry.
  ghost function Options(locals: seq<Album>, e: Entry, kind: Kind): set<Id> {
    set a | a in locals && Fits(e, a, kind) :: a.id
  }

  ghost function AllOptions(locals: seq<Album>, entries: seq<Entry>, kind: Kind): (r: seq<set<Id>>)
    ensures |r| == |entries| && forall i :: 0 <= i < |entries| ==> r[i] == Options(locals, entries[i], kind)
  {
    seq(|entries|, i requires 0 <= i < |entries| => Options(locals, entries[i], kind))
  }

  lemma {:induction false} BestFits(locals: seq<Album>, e: Entry, kind: Kind, claimed: set<Id>)
    ensures Chosen(Best(locals, e, kind, claimed), Options(locals, e, kind), claimed)
  {
    if locals != [] && !(locals[0].id !in claimed && Fits(e, locals[0], kind)) {
      BestFits(locals[1..], e, kind, claimed);
      assert forall a <- locals :: a == locals[0] || a in locals[1..];
    }
  }

  /** Of the albums that fit and are free, the first in the list is taken. */
  lemma FirstInListIsTaken(locals: seq<Album>, k: nat, e: Entry, kind: Kind, claimed: set<Id>)
    requires k < |locals| && locals[k].id !in claimed && Fits(e, locals[k], kind)
    requires forall j :: 0 <= j < k ==> locals[j].id in claimed || !Fits(e, locals[j], kind)
    ensures Best(locals, e, kind, claimed) == Some(locals[k].id)
  {
    BestSkips(locals, k, e, kind, claimed);
    assert locals[k..][0] == locals[k];
  }

  // One of the options that is not claimed, or nothing when all are.
  ghost predicate Chosen(choice: Option<Id>, options: set<Id>, claimed: set<Id>) {
    if choice.Some? then choice.value in options && choice.value !in claimed else options <= claimed
  }

  // Every claimed album belongs to exactly one entry.
  ghost predicate OneEach(t: Table) {
    && (forall i, j :: 0 <= i < j < |t.ids| && t.ids[i].Some? ==> t.ids[i] != t.ids[j])
    && (forall i :: 0 <= i < |t.ids| && t.ids[i].Some? ==> t.ids[i].value in t.claimed)
    && (forall id <- t.claimed :: Some(id) in t.ids)
  }

  lemma ClaimKeeps(t: Table, i: nat, choice: Option<Id>)
    requires i < |t.ids| && t.ids[i].None? && OneEach(t) && (choice.Some? ==> choice.value !in t.claimed)
    ensures OneEach(Claim(t, i, choice))
  {
    var t' := Claim(t, i, choice);
    forall id <- t'.claimed ensures Some(id) in t'.ids {
      if id in t.claimed {
        var k :| 0 <= k < |t.ids| && t.ids[k] == Some(id);
        assert t'.ids[k] == Some(id);
      } else {
        assert t'.ids[i] == Some(id);
      }
    }
  }

  // ---- The id pass -----------------------------------------------------------------------

  // The first n entries have been served, each from its options.
  ghost predicate Served(t: Table, options: seq<set<Id>>, n: nat)
    requires n <= |t.ids| == |options|
  {
    && OneEach(t)
    && (forall i :: 0 <= i < n ==> Chosen(t.ids[i], options[i], if t.ids[i].Some? then {} else t.claimed))
    && (forall i :: n <= i < |t.ids| ==> t.ids[i].None?)
  }

  lemma ServeNext(t: Table, options: seq<set<Id>>, n: nat, choice: Option<Id>)
    requires n < |t.ids| == |options| && Served(t, options, n) && Chosen(choice, options[n], t.claimed)
    ensures Served(Claim(t, n, choice), options, n + 1)
  {
    ClaimKeeps(t, n, choice);
  }

  lemma IdChoice(entries: seq<Entry>, locals: seq<Album>, n: nat) returns (choice: Option<Id>)
    requires n < |entries|
    ensures IdPass(entries, locals, n + 1) == Claim(IdPass(entries, locals, n), n, choice)
    ensures Chosen(choice, Options(locals, entries[n], ByIds), IdPass(entries, locals, n).claimed)
  {
    choice := Best(locals, entries[n], ByIds, IdPass(entries, locals, n).claimed);
    BestFits(locals, entries[n], ByIds, IdPass(entries, locals, n).claimed);
  }

  lemma NobodyServed(t: Table, options: seq<set<Id>>)
    requires |t.ids| == |options| && t == Table(seq(|options|, _ => None), {})
    ensures Served(t, options, 0)
  {
  }

  lemma IdPassServesNext(entries: seq<Entry>, locals: seq<Album>, options: seq<set<Id>>, n: nat)
    requires n < |entries| == |options| && options[n] == Options(locals, entries[n], ByIds)
    requires Served(IdPass(entries, locals, n), options, n)
    ensures Served(IdPass(entries, locals, n + 1), options, n + 1)
  {
    var t := IdPass(entries, locals, n);
    var choice := IdChoice(entries, locals, n);
    ServeNext(t, options, n, choice);
  }

  lemma {:induction false} IdPassServes(entries: seq<Entry>, locals: seq<Album>, options: seq<set<Id>>, n: nat)
    requires n <= |entries| && options == AllOptions(locals, entries, ByIds)
    ensures Served(IdPass(entries, locals, n), options, n)
  {
    if n == 0 {
      NobodyServed(IdPass(entries, locals, 0), options);
      return;
    }
    var k: nat := n - 1;
    IdPassServes(entries, locals, options, k);
    IdPassServesNext(entries, locals, options, k);
  }

  // ---- The title pass ----------------------------------------------------------------------

  // The first n entries have been served; what the id pass gave is kept, and its albums are not given again.
  ghost predicate ServedAgain(first: Table, t: Table, options: seq<set<Id>>, n: nat)
    requires n <= |t.ids| == |first.ids| == |options|
  {
    && OneEach(t) && first.claimed <= t.claimed
    && (forall i :: 0 <= i < |t.ids| && first.ids[i].Some? ==> t.ids[i] == first.ids[i])
    && (forall i :: 0 <= i < n && first.ids[i].None? ==>
          Chosen(t.ids[i], options[i], if t.ids[i].Some? then first.claimed else t.claimed))
    && (forall i :: n <= i < |t.ids| ==> t.ids[i] == first.ids[i])
  }

  lemma ServeAgainNext(first: Table, t: Table, options: seq<set<Id>>, n: nat, choice: Option<Id>)
    requires n < |t.ids| == |first.ids| == |options| && ServedAgain(first, t, options, n)
    requires first.ids[n].None? && Chosen(choice, options[n], t.claimed)
    ensures ServedAgain(first, Claim(t, n, choice), options, n + 1)
  {
    ClaimKeeps(t, n, choice);
  }

  lemma YearOptions(locals: seq<Album>, e: Entry)
    ensures Options(locals, e, ByYear) <= Options(locals, e, ByTitle)
  {
    if e.year > 0 { SameYearIsCompatible(e.year); }
  }

  lemma ByTitleChoice(entries: seq<Entry>, locals: seq<Album>, n: nat) returns (choice: Option<Id>)
    requires n < |entries|
    ensures var t, next := TitlePass(entries, locals, n), TitlePass(entries, locals, n + 1);
      if t.ids[n].Some? then next == t
      else next == Claim(t, n, choice) && Chosen(choice, AllOptions(locals, entries, ByTitle)[n], t.claimed)
  {
    var claimed := TitlePass(entries, locals, n).claimed;
    choice := TitleChoice(locals, entries[n], claimed);
    BestFits(locals, entries[n], ByYear, claimed);
    BestFits(locals, entries[n], ByTitle, claimed);
    YearOptions(locals, entries[n]);
  }

  lemma {:induction false} TitlePassServes(entries: seq<Entry>, locals: seq<Album>, n: nat)
    requires n <= |entries|
    ensures ServedAgain(
      IdTable(entries, locals), TitlePass(entries, locals, n), AllOptions(locals, entries, ByTitle), n)
  {
    if n == 0 {
      IdPassServes(entries, locals, AllOptions(locals, entries, ByIds), |entries|);
    } else {
      TitlePassServes(entries, locals, n - 1);
      var choice := ByTitleChoice(entries, locals, n - 1);
      if TitlePass(entries, locals, n - 1).ids[n - 1].None? {
        ServeAgainNext(IdTable(entries, locals), TitlePass(entries, locals, n - 1),
                       AllOptions(locals, entries, ByTitle), n - 1, choice);
      }
    }
  }

  // ---- Theorems ----------------------------------------------------------------------------

  /** Each album is linked to at most one entry. */
  lemma EachAlbumOnce(entries: seq<Entry>, locals: seq<Album>, i: nat, j: nat)
    requires i < j < |entries|
    ensures Matching(entries, locals)[i].Some? ==> Matching(entries, locals)[i] != Matching(entries, locals)[j]
  {
    TitlePassServes(entries, locals, |entries|);
  }

  /** Every link is justified by a shared id or by the same title and a compatible year. */
  lemma EveryLinkIsJustified(entries: seq<Entry>, locals: seq<Album>, i: nat)
    requires i < |entries| && Matching(entries, locals)[i].Some?
    ensures exists a <- locals ::
      a.id == Matching(entries, locals)[i].value && (IdMatch(entries[i], a) || TitleMatch(entries[i], a))
  {
    TitlePassServes(entries, locals, |entries|);
    IdPassServes(entries, locals, AllOptions(locals, entries, ByIds), |entries|);
    var id := Matching(entries, locals)[i].value;
    var kind := if IdTable(entries, locals).ids[i].Some? then ByIds else ByTitle;
    assert id in AllOptions(locals, entries, kind)[i];
    var a :| a in locals && a.id == id && Fits(entries[i], a, kind);
  }

  /** The matching is maximal: an album that fits an entry left without one is linked to another. */
  lemma NoFittingPairIsLeft(entries: seq<Entry>, locals: seq<Album>, i: nat, a: Album)
    requires i < |entries| && Matching(entries, locals)[i].None? && a in locals
    requires IdMatch(entries[i], a) || TitleMatch(entries[i], a)
    ensures Some(a.id) in Matching(entries, locals)
  {
    TitlePassServes(entries, locals, |entries|);
    IdPassServes(entries, locals, AllOptions(locals, entries, ByIds), |entries|);
    var kind := if IdMatch(entries[i], a) then ByIds else ByTitle;
    assert Fits(entries[i], a, kind);
    assert a.id in AllOptions(locals, entries, kind)[i];
    assert a.id in TitlePass(entries, locals, |entries|).claimed;
  }

  /** A looser title match never takes an album from an entry that shares an id with it. */
  lemma TitlesNeverStealFromIds(entries: seq<Entry>, locals: seq<Album>, i: nat, k: nat, a: Album)
    requires i < |entries| && k < |entries| && a in locals
    requires Matching(entries, locals)[i] == Some(a.id) && IdTable(entries, locals).ids[i].None?
    requires IdTable(entries, locals).ids[k].None?
    ensures !IdMatch(entries[k], a)
  {
    TitlePassServes(entries, locals, |entries|);
    IdPassServes(entries, locals, AllOptions(locals, entries, ByIds), |entries|);
    assert a.id !in IdTable(entries, locals).claimed;
    assert AllOptions(locals, entries, ByIds)[k] <= IdTable(entries, locals).claimed;
    NotOption(locals, entries[k], a, ByIds);
  }

  lemma NotOption(locals: seq<Album>, e: Entry, a: Album, kind: Kind)
    requires a in locals && a.id !in Options(locals, e, kind)
    ensures !Fits(e, a, kind)
  {
  }

  // An entry that the title pass has reached keeps what it has.
  lemma {:induction false} LinkedBefore(entries: seq<Entry>, locals: seq<Album>, n: nat, m: nat, i: nat)
    requires n <= m <= |entries| && i < |entries|
    requires i < n || TitlePass(entries, locals, n).ids[i].Some?
    ensures TitlePass(entries, locals, m).ids[i] == TitlePass(entries, locals, n).ids[i]
    decreases m - n
  {
    if n < m {
      LinkedBefore(entries, locals, n, m - 1, i);
    }
  }

  // The entry got its album before entry i was served by title.
  ghost predicate ServedBefore(entries: seq<Entry>, locals: seq<Album>, j: nat, i: nat)
    requires j < |entries|
  {
    j < i || IdTable(entries, locals).ids[j].Some?
  }

  /**
   The exact year is preferred: when an entry that shares no id ends without an album of its own
   title and exact year, every such album was linked to another entry before.
   */
  lemma ExactYearFirst(entries: seq<Entry>, locals: seq<Album>, i: nat, a: Album) returns (j: nat)
    requires i < |entries| && a in locals && YearMatch(entries[i], a) && IdTable(entries, locals).ids[i].None?
    requires Matching(entries, locals)[i].None? ||
      Matching(entries, locals)[i].value !in Options(locals, entries[i], ByYear)
    ensures j < |entries| && Matching(entries, locals)[j] == Some(a.id) && ServedBefore(entries, locals, j, i)
  {
    var before := TitlePass(entries, locals, i);
    TitlePassServes(entries, locals, i);
    BestFits(locals, entries[i], ByYear, before.claimed);
    LinkedBefore(entries, locals, i + 1, |entries|, i);
    assert before.ids[i].None?;
    assert Fits(entries[i], a, ByYear) && a.id in Options(locals, entries[i], ByYear);
    assert Best(locals, entries[i], ByYear, before.claimed).None?;
    assert a.id in before.claimed;
    j :| j < |entries| && before.ids[j] == Some(a.id);
    LinkedBefore(entries, locals, i, |entries|, j);
  }
}
