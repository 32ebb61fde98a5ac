/** The history table (frontend/components/HistoryLog.tsx): the records
    matching the search box, newest date first, with a red badge for the
    rows that wasted more than five units. */
module HistoryLog {
  import opened Records
  import opened Folds
  import opened Sorting
  import opened Strings
  import opened Calendar

  /** The search test: the item name contains the term, ignoring case, or
      the date contains it as typed. */
  predicate Matches(term: string, r: DailyRecord)
  {
    Contains(ToLower(r.itemName), ToLower(term)) || Contains(r.date, term)
  }

  function MatchesTerm(term: string): DailyRecord -> bool
  {
    r => Matches(term, r)
  }

  /** The comparator `new Date(b.date) - new Date(a.date)` as an order: a
      may come first when its date is not earlier than b's. On ISO dates
      string order is time order (NewerFirstIsTimeOrder). */
  predicate NewerFirst(a: DailyRecord, b: DailyRecord)
  {
    !LexLess(a.date, b.date)
  }

  /** `history.filter(matches).sort(newerFirst)` */
  function Filtered(history: seq<DailyRecord>, term: string): seq<DailyRecord>
  {
    SortBy(Where(history, MatchesTerm(term)), NewerFirst)
  }

  lemma NewerFirstOrder()
    ensures TotalPreorder(NewerFirst)
  {
    forall a: DailyRecord, b: DailyRecord
      ensures NewerFirst(a, b) || NewerFirst(b, a)
    {
      if LexLess(a.date, b.date) {
        LexLessAsymmetric(a.date, b.date);
      }
    }
    forall a: DailyRecord, b: DailyRecord, c: DailyRecord | NewerFirst(a, b) && NewerFirst(b, c)
      ensures NewerFirst(a, c)
    {
      LexLessTotal(a.date, b.date);
      if LexLess(a.date, c.date) && LexLess(b.date, a.date) {
        LexLessTransitive(b.date, a.date, c.date);
      }
    }
  }

  /** For ISO dates the order is that of the dates' timestamps. */
  lemma NewerFirstIsTimeOrder(a: DailyRecord, b: DailyRecord)
    requires ParseIsoDate(a.date).Some? && ParseIsoDate(b.date).Some?
    ensures NewerFirst(a, b) <==> DayNumber(ParseIsoDate(b.date).value) <= DayNumber(ParseIsoDate(a.date).value)
  {
    IsoOrderIsChronological(a.date, b.date);
  }

  /** A record is listed iff it is in the history and matches the term, and
      it is listed as often as it occurs there. */
  lemma FilteredContents(history: seq<DailyRecord>, term: string)
    ensures multiset(Filtered(history, term)) == multiset(Where(history, MatchesTerm(term)))
    ensures |Filtered(history, term)| <= |history|
    ensures forall r :: r in Filtered(history, term) <==> r in history && Matches(term, r)
  {
    NewerFirstOrder();
    var kept := Where(history, MatchesTerm(term));
    SortBySpec(kept, NewerFirst);
    SortByLength(kept, NewerFirst);
    WhereMembers(history, MatchesTerm(term));
    forall r
      ensures r in Filtered(history, term) <==> r in kept
    {
      assert r in multiset(Filtered(history, term)) <==> r in multiset(kept);
    }
  }

  /** An empty search lists every record. */
  lemma EmptyTermListsAll(history: seq<DailyRecord>)
    ensures multiset(Filtered(history, "")) == multiset(history)
    ensures |Filtered(history, "")| == |history|
  {
    forall r: DailyRecord
      ensures MatchesTerm("")(r)
    {
      assert ToLower("") == "";
      ContainsEmpty(ToLower(r.itemName));
    }
    WhereAll(history, MatchesTerm(""));
    FilteredContents(history, "");
    assert |multiset(Filtered(history, ""))| == |multiset(history)|;
  }

  /** The list runs from the newest date to the oldest. */
  lemma FilteredNewestFirst(history: seq<DailyRecord>, term: string)
    ensures var f := Filtered(history, term);
      forall i, j :: 0 <= i < j < |f| ==> !LexLess(f[i].date, f[j].date)
  {
    NewerFirstOrder();
    var kept := Where(history, MatchesTerm(term));
    SortBySpec(kept, NewerFirst);
    SortedPairs(SortBy(kept, NewerFirst), NewerFirst);
  }

  /** Records of the same date are listed in their history order. */
  lemma FilteredSameDateInOrder(history: seq<DailyRecord>, term: string, i: int, j: int)
    requires 0 <= i < j < |Filtered(history, term)|
    requires Filtered(history, term)[i].date == Filtered(history, term)[j].date
    ensures Precedes(history, Filtered(history, term)[i], Filtered(history, term)[j])
  {
    NewerFirstOrder();
    var kept := Where(history, MatchesTerm(term));
    var f := Filtered(history, term);
    LexLessIrreflexive(f[i].date);
    SortedTiesKeepOrder(kept, NewerFirst, i, j);
    WhereReflectsOrder(history, MatchesTerm(term), f[i], f[j]);
  }

  /** ISO-dated lists are in non-increasing time order. */
  lemma FilteredByTime(history: seq<DailyRecord>, term: string, i: int, j: int)
    requires forall k :: 0 <= k < |history| ==> ParseIsoDate(history[k].date).Some?
    requires 0 <= i < j < |Filtered(history, term)|
    ensures var f := Filtered(history, term);
      ParseIsoDate(f[i].date).Some? && ParseIsoDate(f[j].date).Some?
      && DayNumber(ParseIsoDate(f[j].date).value) <= DayNumber(ParseIsoDate(f[i].date).value)
  {
    var f := Filtered(history, term);
    FilteredContents(history, term);
    FilteredNewestFirst(history, term);
    assert f[i] in f && f[j] in f;
    NewerFirstIsTimeOrder(f[i], f[j]);
  }

  /** The waste badge is red exactly for more than five wasted units. */
  predicate Highlighted(r: DailyRecord)
  {
    r.waste > 5
  }

  /** The listed rows show as many red badges as the matching records
      have. */
  lemma HighlightedCount(history: seq<DailyRecord>, term: string)
    ensures Count(Filtered(history, term), Highlighted) == Count(Where(history, MatchesTerm(term)), Highlighted)
  {
    FilteredContents(history, term);
    var f, kept := Filtered(history, term), Where(history, MatchesTerm(term));
    CountPermutation(f, kept, Highlighted);
  }
}
