/** The case-studies page: two drop-downs (outcome category and organisation size)
    narrow the list of studies. */
module CaseStudies {
  import opened Sequences

  /** The fields of a study record that the filter reads, plus its identity. */
  datatype Study = Study(id: nat, organization: string, size: string, category: string)

  /** The value of both drop-downs that imposes no constraint. */
  const All: string := "all"

  /** The three studies, in page order. */
  const Studies: seq<Study> := [
    Study(1, "Regional Medical Center", "large", "emergency"),
    Study(2, "Metro Health System", "enterprise", "compliance"),
    Study(3, "Westside Community Hospital", "medium", "clinical")
  ]

  /** The values the two drop-downs offer. */
  const FilterOptions: seq<string> := [All, "emergency", "compliance", "clinical", "efficiency"]
  const SizeOptions: seq<string> := [All, "small", "medium", "large", "enterprise"]

  /** A study is listed when both drop-downs pass it: with both on "all" every study
      is, and a category or size other than the study's own hides it. */
  predicate KeepStudy(s: Study, filter: string, size: string): (keep: bool)
    ensures filter == All && size == All ==> keep
    ensures filter != All && s.category != filter ==> !keep
    ensures size != All && s.size != size ==> !keep
  {
    (filter == All || s.category == filter) && (size == All || s.size == size)
  }

  /** `KeepStudy` as the callback handed to `filter`. */
  function KeepStudyFn(filter: string, size: string): Study -> bool
  {
    s => KeepStudy(s, filter, size)
  }

  /** `filteredCaseStudies`. */
  function FilteredStudies(studies: seq<Study>, filter: string, size: string): (r: seq<Study>)
    ensures |r| <= |studies|
    ensures forall i :: 0 <= i < |r| ==> KeepStudy(r[i], filter, size)
  {
    Filter(studies, KeepStudyFn(filter, size))
  }

  /** The filtered list keeps the original order, and a study is listed exactly when
      it is in the input, its category passes the first drop-down and its size the second. */
  lemma FilteredStudiesExact(studies: seq<Study>, filter: string, size: string, s: Study)
    ensures IsSubsequence(FilteredStudies(studies, filter, size), studies)
    ensures s in FilteredStudies(studies, filter, size)
            <==> s in studies && (filter == All || s.category == filter) && (size == All || s.size == size)
  {
    FilterIsSubsequence(studies, KeepStudyFn(filter, size));
    FilterMembership(studies, KeepStudyFn(filter, size), s);
  }

  /** With both drop-downs on "all" the page lists all three studies. */
  lemma AllListsEverything()
    ensures FilteredStudies(Studies, All, All) == Studies
    ensures |FilteredStudies(Studies, All, All)| == 3
  {
    FilterKeepsAll(Studies, KeepStudyFn(All, All));
  }

  /** "efficiency" and "small" are offered but no study carries them, so either
      choice empties the list whatever the other drop-down says. */
  lemma UnusedOptionsListNothing(other: string)
    ensures "efficiency" in FilterOptions && "small" in SizeOptions
    ensures FilteredStudies(Studies, "efficiency", other) == []
    ensures FilteredStudies(Studies, other, "small") == []
  {
    FilterKeepsNone(Studies, KeepStudyFn("efficiency", other));
    FilterKeepsNone(Studies, KeepStudyFn(other, "small"));
  }

  /** Narrowing either drop-down from "all" to a specific value never lists more
      studies, and every study still listed was listed before. */
  lemma NarrowingNeverAdds(studies: seq<Study>, filter: string, size: string)
    ensures IsSubsequence(FilteredStudies(studies, filter, size), FilteredStudies(studies, All, size))
    ensures IsSubsequence(FilteredStudies(studies, filter, size), FilteredStudies(studies, filter, All))
    ensures |FilteredStudies(studies, filter, size)| <= |FilteredStudies(studies, All, size)|
    ensures |FilteredStudies(studies, filter, size)| <= |FilteredStudies(studies, filter, All)|
  {
    FilterStricter(studies, KeepStudyFn(filter, size), KeepStudyFn(All, size));
    FilterStricter(studies, KeepStudyFn(filter, size), KeepStudyFn(filter, All));
  }

  /** "N case studies": the length of the filtered list, at most three. */
  function StudiesShown(filter: string, size: string): (n: nat)
    ensures n <= |Studies|
    ensures filter == All && size == All ==> n == 3
    ensures filter == "efficiency" || size == "small" ==> n == 0
  {
    AllListsEverything();
    UnusedOptionsListNothing(size);
    UnusedOptionsListNothing(filter);
    |FilteredStudies(Studies, filter, size)|
  }
}
