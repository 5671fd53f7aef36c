/** The archive page: the stored list of sessions (most recent first), deletion by id
    after a confirmation, the name search and the labels of a session card. */
module Historique {
  import opened Sequences
  import opened Text
  import opened Records

  /** The threshold the gallery falls back to when a session has none. */
  const DefaultThreshold: real := 20.0

  /** `archives.filter(a => a.id !== id)`. */
  function WithoutId(archives: seq<Session>, id: int): (kept: seq<Session>)
    ensures |kept| <= |archives|
    ensures forall a :: a in kept <==> a in archives && a.id != id
  {
    Filter(archives, (a: Session) => a.id != id)
  }

  /** A confirmed delete keeps exactly the archives with another id: each as often as
      before, in the same relative order, and nothing else. */
  lemma DeleteKeepsOthers(archives: seq<Session>, id: int)
    ensures IsSubsequence(WithoutId(archives, id), archives)
    ensures forall a :: a in WithoutId(archives, id) <==> a in archives && a.id != id
    ensures forall a :: multiset(WithoutId(archives, id))[a] == if a.id != id then multiset(archives)[a] else 0
  {
    FilterIsSubsequence(archives, (a: Session) => a.id != id);
    FilterMultiset(archives, (a: Session) => a.id != id);
  }

  /** Deleting an id that no archive carries is a no-op. */
  lemma DeleteAbsent(archives: seq<Session>, id: int)
    requires forall a :: a in archives ==> a.id != id
    ensures WithoutId(archives, id) == archives
  {
    FilterAllPass(archives, (a: Session) => a.id != id);
  }

  /** Deleting the same id twice is deleting it once. */
  lemma DeleteTwice(archives: seq<Session>, id: int)
    ensures WithoutId(WithoutId(archives, id), id) == WithoutId(archives, id)
  {
    FilterIdempotent(archives, (a: Session) => a.id != id);
  }

  /** `session.name.toLowerCase().includes(searchTerm.toLowerCase())`: the lower-cased
      term occurs at some position of the lower-cased name. */
  predicate MatchesSearch(session: Session, searchTerm: string): (matches: bool)
    ensures matches <==> exists i :: OccursAt(Lower(session.name), Lower(searchTerm), i)
  {
    ContainsAt(Lower(session.name), Lower(searchTerm));
    Contains(Lower(session.name), Lower(searchTerm))
  }

  /** `filteredArchives`: the stored archives whose name matches the term. */
  function FilteredArchives(archives: seq<Session>, searchTerm: string): (shown: seq<Session>)
    ensures |shown| <= |archives|
    ensures forall s :: s in shown <==> s in archives && MatchesSearch(s, searchTerm)
  {
    Filter(archives, (s: Session) => MatchesSearch(s, searchTerm))
  }

  /** The search keeps exactly the matching sessions, each as often as stored and in
      stored order. */
  lemma SearchKeepsMatches(archives: seq<Session>, searchTerm: string)
    ensures IsSubsequence(FilteredArchives(archives, searchTerm), archives)
    ensures forall s :: s in FilteredArchives(archives, searchTerm) <==> s in archives && MatchesSearch(s, searchTerm)
    ensures forall s :: multiset(FilteredArchives(archives, searchTerm))[s]
                     == if MatchesSearch(s, searchTerm) then multiset(archives)[s] else 0
  {
    FilterIsSubsequence(archives, (s: Session) => MatchesSearch(s, searchTerm));
    FilterMultiset(archives, (s: Session) => MatchesSearch(s, searchTerm));
  }

  /** An empty search shows every archive, in stored order. */
  lemma SearchEmptyTerm(archives: seq<Session>)
    ensures FilteredArchives(archives, "") == archives
  {
    forall s | s in archives
      ensures MatchesSearch(s, "")
    {
      assert Lower("") == "";
      assert "" <= Lower(s.name);
    }
    FilterAllPass(archives, (s: Session) => MatchesSearch(s, ""));
  }

  /** The search ignores the case of the term: searching a term and its lower-cased
      form give the same result. */
  lemma SearchIgnoresTermCase(archives: seq<Session>, searchTerm: string)
    ensures FilteredArchives(archives, searchTerm) == FilteredArchives(archives, Lower(searchTerm))
  {
    LowerIdempotent(searchTerm);
    FilterAgree(archives, (s: Session) => MatchesSearch(s, searchTerm),
      (s: Session) => MatchesSearch(s, Lower(searchTerm)));
  }

  /** `selectedSession.finalThreshold || 20`: a missing or zero threshold falls back
      to 20. */
  function EffectiveThreshold(finalThreshold: Option<real>): (t: real)
    ensures t != 0.0
    ensures finalThreshold.Some? && finalThreshold.value != 0.0 ==> t == finalThreshold.value
    ensures finalThreshold.None? || finalThreshold.value == 0.0 ==> t == DefaultThreshold
  {
    match finalThreshold
    case Some(t) => if t != 0.0 then t else DefaultThreshold
    case None => DefaultThreshold
  }

  /** The gallery colours a point red exactly when its level exceeds the session's
      effective threshold: the session's own, or 20 when it has none (a level of
      exactly 20 is not over it). */
  predicate IsOverThreshold(point: Observation, session: Session): (over: bool)
    ensures session.finalThreshold.None? ==> (over <==> point.level > DefaultThreshold)
    ensures session.finalThreshold.Some? && session.finalThreshold.value != 0.0 ==>
      (over <==> point.level > session.finalThreshold.value)
  {
    point.level > EffectiveThreshold(session.finalThreshold)
  }

  /** The time-range label of a session card: first time, arrow, last time. */
  function TimeRange(data: seq<Observation>): (text: string)
    ensures data == [] ==> text == "N/A"
    ensures data != [] ==> data[0].time <= text
    ensures data != [] ==> (|text| >= |data[|data| - 1].time|
                            && text[|text| - |data[|data| - 1].time|..] == data[|data| - 1].time)
  {
    if |data| > 0 then data[0].time + " → " + data[|data| - 1].time else "N/A"
  }

  /** A card shows "N/A" exactly when its session has no point: no pair of times can
      spell it. */
  lemma TimeRangeNA(data: seq<Observation>)
    ensures TimeRange(data) == "N/A" <==> data == []
  {
  }

  /** `session.start.split(' ')[0]`: the date part of the start timestamp. */
  function StartDate(session: Session): (date: string)
    ensures date <= session.start && ' ' !in date
    ensures |date| < |session.start| ==> session.start[|date|] == ' '
  {
    FirstField(session.start, ' ')
  }

  /** The archive list the page holds; the page and the `oued_archives` storage key
      always carry the same list, so one field stands for both. */
  class ArchiveStore {
    var archives: seq<Session>

    /** Mount: restore the stored list, or start empty when nothing is stored. */
    constructor (saved: Option<seq<Session>>)
      ensures archives == if saved.Some? then saved.value else []
    {
      archives := if saved.Some? then saved.value else [];
    }

    /** `deleteArchive`: only a confirmed delete changes the list. */
    method DeleteArchive(id: int, confirmed: bool)
      modifies this
      ensures archives == if confirmed then WithoutId(old(archives), id) else old(archives)
    {
      if confirmed {
        archives := WithoutId(archives, id);
      }
    }
  }
}
