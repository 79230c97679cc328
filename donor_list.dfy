/**
 * The blood bank's donor list: a fixed list of donors, a case-insensitive
 * search over name and email, an optional exact blood-group filter, and the
 * donor whose details are shown.
 */
module DonorList {
  import opened Wrappers
  import opened Text
  import opened Lists

  datatype Donor = Donor(
    id: int, name: string, email: string, mobileNumber: string, age: int,
    bloodGroup: string, lastDonation: string, totalDonations: int)

  const MockDonors: seq<Donor> := [
    Donor(1, "John Smith", "john.smith@example.com", "(555) 123-4567", 28, "O+", "2023-04-10", 5),
    Donor(2, "Emily Johnson", "emily.johnson@example.com", "(555) 987-6543", 35, "A-", "2023-03-22", 8),
    Donor(3, "Michael Williams", "michael.williams@example.com", "(555) 456-7890", 42, "B+", "2023-04-05", 12),
    Donor(4, "Sarah Brown", "sarah.brown@example.com", "(555) 234-5678", 31, "AB+", "2023-02-18", 3),
    Donor(5, "David Miller", "david.miller@example.com", "(555) 876-5432", 45, "O-", "2023-03-30", 15),
    Donor(6, "Jennifer Davis", "jennifer.davis@example.com", "(555) 345-6789", 29, "A+", "2023-04-15", 6)
  ]

  predicate MatchesSearch(d: Donor, term: string) {
    ContainsIgnoringCase(d.name, term) || ContainsIgnoringCase(d.email, term)
  }

  predicate MatchesBloodGroup(d: Donor, group: string) {
    group == "" || d.bloodGroup == group
  }

  function Keeps(term: string, group: string): Donor -> bool {
    (d: Donor) => MatchesSearch(d, term) && MatchesBloodGroup(d, group)
  }

  /** `filteredDonors` */
  function FilteredDonors(donors: seq<Donor>, term: string, group: string): (shown: seq<Donor>)
    ensures |shown| <= |donors|
    ensures forall k :: 0 <= k < |shown| ==>
      shown[k] in donors && MatchesSearch(shown[k], term) && (group == "" || shown[k].bloodGroup == group)
    ensures forall i :: 0 <= i < |donors| ==>
      MatchesSearch(donors[i], term) && (group == "" || donors[i].bloodGroup == group) ==> donors[i] in shown
  {
    Filter(donors, Keeps(term, group))
  }

  /**
   * The list keeps exactly the donors whose lower-cased name or email contains
   * the lower-cased term and whose group is the selected one (or none is
   * selected), in the original order.
   */
  lemma FilteredDonorsSelects(donors: seq<Donor>, term: string, group: string)
    ensures exists idx :: SelectsAt(donors, Keeps(term, group), FilteredDonors(donors, term, group), idx)
  {
    var idx := FilterSelects(donors, Keeps(term, group));
    assert SelectsAt(donors, Keeps(term, group), FilteredDonors(donors, term, group), idx);
  }

  /** No term and no group: every donor is listed. */
  lemma NoFilterKeepsAll(donors: seq<Donor>)
    ensures FilteredDonors(donors, "", "") == donors
  {
    forall i | 0 <= i < |donors|
      ensures Keeps("", "")(donors[i])
    {
      IncludesEmpty(ToLower(donors[i].name));
    }
    FilterKeepsAll(donors, Keeps("", ""));
  }

  /** The search ignores case: a term and its lower-cased form list the same donors. */
  lemma SearchIgnoresCase(donors: seq<Donor>, term: string, group: string)
    ensures FilteredDonors(donors, ToLower(term), group) == FilteredDonors(donors, term, group)
  {
    forall i | 0 <= i < |donors|
      ensures Keeps(ToLower(term), group)(donors[i]) == Keeps(term, group)(donors[i])
    {
      ContainsIgnoringCaseOfLowered(donors[i].name, term);
      ContainsIgnoringCaseOfLowered(donors[i].email, term);
    }
    FilterAgreeing(donors, Keeps(ToLower(term), group), Keeps(term, group));
  }

  /** The group filter is equality, not containment: "A" selects neither an "A+" nor an "A-" donor. */
  lemma GroupMatchIsExact(term: string)
    ensures Includes("A+", "A") && !Keeps(term, "A")(MockDonors[5])
    ensures FilteredDonors(MockDonors, term, "A") == []
  {
    assert "A+"[..1] == "A";
    forall i | 0 <= i < |MockDonors|
      ensures !Keeps(term, "A")(MockDonors[i])
    {
    }
    NothingKept(MockDonors, Keeps(term, "A"));
  }

  lemma {:induction false} NothingKept(donors: seq<Donor>, p: Donor -> bool)
    requires forall i :: 0 <= i < |donors| ==> !p(donors[i])
    ensures Filter(donors, p) == []
  {
    if donors != [] {
      NothingKept(donors[1..], p);
    }
  }

  /**
   * The mock donors have distinct ids, so once one of them is selected it is
   * the only listed donor the page highlights.
   */
  lemma OneDonorHighlighted(page: DonorListState, k: nat, i: nat)
    requires k < |MockDonors| && i < |MockDonors|
    requires page.selectedDonor == Some(MockDonors[k])
    ensures page.IsHighlighted(MockDonors[i]) <==> i == k
  {
  }

  class DonorListState {
    /** The page's list, `mockDonors`. */
    const donors: seq<Donor>
    var searchTerm: string
    var selectedBloodGroup: string
    var selectedDonor: Option<Donor>

    constructor ()
      ensures donors == MockDonors && searchTerm == "" && selectedBloodGroup == "" && selectedDonor == None
    {
      donors := MockDonors;
      searchTerm := "";
      selectedBloodGroup := "";
      selectedDonor := None;
    }

    /** The donors on screen. */
    function Shown(): seq<Donor>
      reads this
    {
      FilteredDonors(donors, searchTerm, selectedBloodGroup)
    }

    /** A list entry is highlighted when its id is the selected donor's. */
    predicate IsHighlighted(d: Donor): (highlighted: bool)
      reads this
      ensures highlighted ==> selectedDonor.Some?
      ensures selectedDonor == Some(d) ==> highlighted
    {
      selectedDonor.Some? && selectedDonor.value.id == d.id
    }

    method SetSearchTerm(term: string)
      modifies this
      ensures searchTerm == term && Shown() == FilteredDonors(donors, term, selectedBloodGroup)
      ensures selectedBloodGroup == old(selectedBloodGroup) && selectedDonor == old(selectedDonor)
    {
      searchTerm := term;
    }

    method SelectBloodGroup(group: string)
      modifies this
      ensures selectedBloodGroup == group && Shown() == FilteredDonors(donors, searchTerm, group)
      ensures searchTerm == old(searchTerm) && selectedDonor == old(selectedDonor)
    {
      selectedBloodGroup := group;
    }

    /** `handleDonorClick`: that donor is selected; the filters are untouched. */
    method HandleDonorClick(d: Donor)
      modifies this
      ensures selectedDonor == Some(d) && IsHighlighted(d)
      ensures searchTerm == old(searchTerm) && selectedBloodGroup == old(selectedBloodGroup)
    {
      selectedDonor := Some(d);
    }
  }
}
