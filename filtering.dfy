/** `filteredTranscripts`: the list the page renders, narrowed by the search
    box (case-insensitive substring of the course name) and the semester
    selector ("all" or one exact semester label). */
module Filtering {
  import opened Seqs
  import opened Text
  import opened Transcripts

  const AllSemesters: string := "all"

  predicate MatchesSearch(t: Transcript, searchTerm: string)
  {
    Contains(Lower(t.courseName), Lower(searchTerm))
  }

  predicate MatchesSemester(t: Transcript, filterSemester: string)
  {
    filterSemester == AllSemesters || t.semester == filterSemester
  }

  function Keeps(searchTerm: string, filterSemester: string): Transcript -> bool
  {
    t => MatchesSearch(t, searchTerm) && MatchesSemester(t, filterSemester)
  }

  /** The visible list: an order-preserving selection of `transcripts` whose
      every item matches both the search term and the semester filter, and
      which drops no matching item: each record occurs in it as often as in
      `transcripts` when it matches, and not at all otherwise. */
  function FilteredTranscripts(ts: seq<Transcript>, searchTerm: string, filterSemester: string)
    : (r: seq<Transcript>)
    ensures SubsequenceOf(r, ts)
    ensures forall i :: 0 <= i < |r| ==>
              MatchesSearch(r[i], searchTerm) && MatchesSemester(r[i], filterSemester)
    ensures forall i :: 0 <= i < |ts| ==>
              (MatchesSearch(ts[i], searchTerm) && MatchesSemester(ts[i], filterSemester) ==> ts[i] in r)
    ensures forall x :: multiset(r)[x] == if Keeps(searchTerm, filterSemester)(x) then multiset(ts)[x] else 0
  {
    FilterIsSubsequence(ts, Keeps(searchTerm, filterSemester));
    forall x
      ensures multiset(Filter(ts, Keeps(searchTerm, filterSemester)))[x]
              == if Keeps(searchTerm, filterSemester)(x) then multiset(ts)[x] else 0
    {
      FilterCounts(ts, Keeps(searchTerm, filterSemester), x);
    }
    Filter(ts, Keeps(searchTerm, filterSemester))
  }

  /** A kept item's lower-cased name contains the lower-cased term at some
      position. */
  lemma KeptNameContainsTerm(ts: seq<Transcript>, searchTerm: string, filterSemester: string, i: nat)
    requires i < |FilteredTranscripts(ts, searchTerm, filterSemester)|
    ensures var t := FilteredTranscripts(ts, searchTerm, filterSemester)[i];
            exists k :: OccursAt(Lower(t.courseName), Lower(searchTerm), k)
  {
    var t := FilteredTranscripts(ts, searchTerm, filterSemester)[i];
    ContainsIff(Lower(t.courseName), Lower(searchTerm));
  }

  /** An empty search with "all" semesters shows the whole list. */
  lemma EmptySearchShowsAll(ts: seq<Transcript>)
    ensures FilteredTranscripts(ts, "", AllSemesters) == ts
  {
    forall i | 0 <= i < |ts| ensures Keeps("", AllSemesters)(ts[i]) {
      assert Lower("") == "";
      assert "" <= Lower(ts[i].courseName);
    }
    FilterKeepsAll(ts, Keeps("", AllSemesters));
  }

  /** Every reloaded record is labelled "Semester n", so a semester filter
      whose value does not start with "Semester " (the selector offers
      "Fall 2024", "Spring 2024" and "Fall 2023") hides the whole reloaded
      list. */
  lemma PresetSemesterHidesReloaded(
    ids: seq<string>, records: map<string, LedgerRecord>, searchTerm: string, filterSemester: string)
    requires filterSemester != AllSemesters && !("Semester " <= filterSemester)
    ensures FilteredTranscripts(Built(ids, records), searchTerm, filterSemester) == []
  {
  }
}
