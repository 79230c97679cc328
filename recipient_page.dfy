/**
 * The recipient's blood-bank finder: a fixed list of banks, a case-insensitive
 * search over name and address, and the map state (selected bank, centre, zoom).
 */
module RecipientPage {
  import opened Wrappers
  import opened Text
  import opened Lists

  /** A map position in degrees times 10^4; the page's coordinates have four decimals, so this is exact for them. */
  datatype Position = Position(latE4: int, lonE4: int)

  datatype BloodBank = BloodBank(
    id: int, name: string, address: string, phone: string, hours: string,
    position: Position, bloodTypes: seq<(string, int)>)

  const DefaultCenter: Position := Position(407128, -740060)
  const DefaultZoom: int := 13
  const SelectedZoom: int := 15

  const MockBloodBanks: seq<BloodBank> := [
    BloodBank(1, "City Blood Center", "123 Main St, Cityville", "(555) 123-4567", "8:00 AM - 6:00 PM",
      Position(407128, -740060),
      [("A+", 15), ("A-", 8), ("B+", 12), ("B-", 5), ("AB+", 3), ("AB-", 2), ("O+", 20), ("O-", 10)]),
    BloodBank(2, "Metro Blood Bank", "456 Park Ave, Metrotown", "(555) 987-6543", "9:00 AM - 7:00 PM",
      Position(407282, -739942),
      [("A+", 8), ("A-", 4), ("B+", 9), ("B-", 3), ("AB+", 2), ("AB-", 1), ("O+", 15), ("O-", 7)]),
    BloodBank(3, "Community Blood Services", "789 Broadway, Downtown", "(555) 456-7890", "8:30 AM - 5:30 PM",
      Position(407112, -740134),
      [("A+", 12), ("A-", 6), ("B+", 10), ("B-", 4), ("AB+", 5), ("AB-", 2), ("O+", 18), ("O-", 9)])
  ]

  function MatchesBank(term: string): BloodBank -> bool {
    (b: BloodBank) => ContainsIgnoringCase(b.name, term) || ContainsIgnoringCase(b.address, term)
  }

  /** `filteredBloodBanks` */
  function FilteredBloodBanks(banks: seq<BloodBank>, term: string): (shown: seq<BloodBank>)
    ensures |shown| <= |banks|
    ensures forall k :: 0 <= k < |shown| ==>
      shown[k] in banks && (ContainsIgnoringCase(shown[k].name, term) || ContainsIgnoringCase(shown[k].address, term))
    ensures forall i :: 0 <= i < |banks| ==>
      (ContainsIgnoringCase(banks[i].name, term) || ContainsIgnoringCase(banks[i].address, term)) ==> banks[i] in shown
  {
    Filter(banks, MatchesBank(term))
  }

  /** The list keeps exactly the banks whose lower-cased name or address contains the lower-cased term, in order. */
  lemma FilteredBloodBanksSelects(banks: seq<BloodBank>, term: string)
    ensures exists idx :: SelectsAt(banks, MatchesBank(term), FilteredBloodBanks(banks, term), idx)
  {
    var idx := FilterSelects(banks, MatchesBank(term));
    assert SelectsAt(banks, MatchesBank(term), FilteredBloodBanks(banks, term), idx);
  }

  /** An empty term lists every bank, in order. */
  lemma EmptySearchKeepsAll(banks: seq<BloodBank>)
    ensures FilteredBloodBanks(banks, "") == banks
  {
    forall i | 0 <= i < |banks|
      ensures MatchesBank("")(banks[i])
    {
      IncludesEmpty(ToLower(banks[i].name));
    }
    FilterKeepsAll(banks, MatchesBank(""));
  }

  /** The search ignores case. */
  lemma SearchIgnoresCase(banks: seq<BloodBank>, term: string)
    ensures FilteredBloodBanks(banks, ToLower(term)) == FilteredBloodBanks(banks, term)
  {
    forall i | 0 <= i < |banks|
      ensures MatchesBank(ToLower(term))(banks[i]) == MatchesBank(term)(banks[i])
    {
      ContainsIgnoringCaseOfLowered(banks[i].name, term);
      ContainsIgnoringCaseOfLowered(banks[i].address, term);
    }
    FilterAgreeing(banks, MatchesBank(ToLower(term)), MatchesBank(term));
  }

  class RecipientPageState {
    /** The page's list, `mockBloodBanks`. */
    const bloodBanks: seq<BloodBank>
    var searchTerm: string
    var selectedBloodBank: Option<BloodBank>
    var mapCenter: Position
    var zoom: int

    constructor ()
      ensures bloodBanks == MockBloodBanks && searchTerm == "" && selectedBloodBank == None
      ensures mapCenter == DefaultCenter && zoom == DefaultZoom
    {
      bloodBanks := MockBloodBanks;
      searchTerm := "";
      selectedBloodBank := None;
      mapCenter := DefaultCenter;
      zoom := DefaultZoom;
    }

    /** The banks listed and marked on the map. */
    function Shown(): seq<BloodBank>
      reads this
    {
      FilteredBloodBanks(bloodBanks, searchTerm)
    }

    method SetSearchTerm(term: string)
      modifies this
      ensures searchTerm == term
      ensures Shown() == FilteredBloodBanks(bloodBanks, term)
      ensures selectedBloodBank == old(selectedBloodBank) && mapCenter == old(mapCenter) && zoom == old(zoom)
    {
      searchTerm := term;
    }

    /**
     * `handleBloodBankClick` (a list entry): select the bank, set the
     * `mapCenter` state to its position and the `zoom` state to 15.
     */
    method HandleBloodBankClick(b: BloodBank)
      modifies this
      ensures selectedBloodBank == Some(b) && mapCenter == b.position && zoom == SelectedZoom
      ensures searchTerm == old(searchTerm)
    {
      selectedBloodBank := Some(b);
      mapCenter := b.position;
      zoom := SelectedZoom;
    }

    /** A click on a bank's marker selects it and leaves the map where it is. */
    method HandleMarkerClick(b: BloodBank)
      modifies this
      ensures selectedBloodBank == Some(b)
      ensures searchTerm == old(searchTerm) && mapCenter == old(mapCenter) && zoom == old(zoom)
    {
      selectedBloodBank := Some(b);
    }

    /** `MapClickHandler`: a click on the map clears the selection and nothing else. */
    method HandleMapClick()
      modifies this
      ensures selectedBloodBank == None
      ensures searchTerm == old(searchTerm) && mapCenter == old(mapCenter) && zoom == old(zoom)
    {
      selectedBloodBank := None;
    }
  }
}
