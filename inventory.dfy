/**
 * The blood-bank inventory page: a table of blood types with their unit counts
 * and a status label, two operations that change one row (add N units, remove
 * one unit), a search box, and summary figures computed from the table.
 */
module Inventory {
  import opened Wrappers
  import opened Text
  import opened Lists

  datatype Status = Adequate | Low | Critical

  /** One row of the table. */
  datatype BloodStock = BloodStock(bloodType: string, units: int, status: Status)

  /** The table the page starts with. The B- row already breaks the status rule: 5 units, labelled Low. */
  const InitialBloodInventory: seq<BloodStock> := [
    BloodStock("A+", 15, Adequate),
    BloodStock("A-", 8, Low),
    BloodStock("B+", 12, Adequate),
    BloodStock("B-", 5, Low),
    BloodStock("AB+", 3, Critical),
    BloodStock("AB-", 2, Critical),
    BloodStock("O+", 20, Adequate),
    BloodStock("O-", 10, Adequate)
  ]

  // ---------------------------------------------------------------------------
  // The status rule
  // ---------------------------------------------------------------------------

  /** The label an operation gives a row it has just changed. */
  function StatusFor(units: int): (s: Status)
    ensures s == Adequate <==> units > 10
    ensures s == Low <==> 5 < units <= 10
    ensures s == Critical <==> units <= 5
  {
    if units > 10 then Adequate else if units > 5 then Low else Critical
  }

  /** How alarming a label is: Adequate 0, Low 1, Critical 2. */
  function Severity(s: Status): nat {
    match s
    case Adequate => 0
    case Low => 1
    case Critical => 2
  }

  /** More units never give a more alarming label. */
  lemma StatusMonotone(a: int, b: int)
    requires a <= b
    ensures Severity(StatusFor(b)) <= Severity(StatusFor(a))
  {
  }

  predicate StatusAgrees(row: BloodStock) {
    row.status == StatusFor(row.units)
  }

  /** The seed table does not satisfy the rule everywhere: the B- row is labelled Low with 5 units. */
  lemma InitialInventoryBreaksRule()
    ensures InitialBloodInventory[3].bloodType == "B-" && !StatusAgrees(InitialBloodInventory[3])
  {
  }

  // ---------------------------------------------------------------------------
  // Row updates (the `prev.map(...)` callbacks)
  // ---------------------------------------------------------------------------

  function Restocked(row: BloodStock, n: int): BloodStock {
    row.(units := row.units + n, status := StatusFor(row.units + n))
  }

  function Drawn(row: BloodStock): BloodStock {
    row.(units := row.units - 1, status := StatusFor(row.units - 1))
  }

  /** Every row of type `t` gains `n` units and is relabelled; every other row is kept as it was. */
  function AddUnitsTo(inv: seq<BloodStock>, t: string, n: int): (r: seq<BloodStock>)
    ensures |r| == |inv|
    ensures forall i :: 0 <= i < |inv| ==>
      r[i] == if inv[i].bloodType == t then Restocked(inv[i], n) else inv[i]
  {
    if inv == [] then []
    else [if inv[0].bloodType == t then Restocked(inv[0], n) else inv[0]] + AddUnitsTo(inv[1..], t, n)
  }

  /** Every row of type `t` that has units loses one and is relabelled; every other row is kept. */
  function RemoveUnitFrom(inv: seq<BloodStock>, t: string): (r: seq<BloodStock>)
    ensures |r| == |inv|
    ensures forall i :: 0 <= i < |inv| ==>
      r[i] == if inv[i].bloodType == t && inv[i].units > 0 then Drawn(inv[i]) else inv[i]
  {
    if inv == [] then []
    else [if inv[0].bloodType == t && inv[0].units > 0 then Drawn(inv[0]) else inv[0]]
         + RemoveUnitFrom(inv[1..], t)
  }

  // ---------------------------------------------------------------------------
  // Table invariants
  // ---------------------------------------------------------------------------

  predicate NonNegative(inv: seq<BloodStock>) {
    forall i :: 0 <= i < |inv| ==> inv[i].units >= 0
  }

  predicate UniqueTypes(inv: seq<BloodStock>) {
    forall i, j :: 0 <= i < j < |inv| ==> inv[i].bloodType != inv[j].bloodType
  }

  predicate AllStatusesAgree(inv: seq<BloodStock>) {
    forall i :: 0 <= i < |inv| ==> StatusAgrees(inv[i])
  }

  lemma InitialInventoryWellFormed()
    ensures NonNegative(InitialBloodInventory) && UniqueTypes(InitialBloodInventory)
    ensures |InitialBloodInventory| == 8
  {
  }

  /**
   * A valid add keeps the table's shape: same length, same types in the same
   * order, units still non-negative, and the status rule holds for every row it
   * touched (and for the whole table if it held before).
   */
  lemma AddPreservesTable(inv: seq<BloodStock>, t: string, n: int)
    requires NonNegative(inv) && n > 0
    ensures NonNegative(AddUnitsTo(inv, t, n))
    ensures forall i :: 0 <= i < |inv| ==> AddUnitsTo(inv, t, n)[i].bloodType == inv[i].bloodType
    ensures UniqueTypes(inv) ==> UniqueTypes(AddUnitsTo(inv, t, n))
    ensures forall i :: 0 <= i < |inv| && inv[i].bloodType == t ==> StatusAgrees(AddUnitsTo(inv, t, n)[i])
    ensures AllStatusesAgree(inv) ==> AllStatusesAgree(AddUnitsTo(inv, t, n))
  {
  }

  /** The same for removing a unit: units never go below zero. */
  lemma RemovePreservesTable(inv: seq<BloodStock>, t: string)
    requires NonNegative(inv)
    ensures NonNegative(RemoveUnitFrom(inv, t))
    ensures forall i :: 0 <= i < |inv| ==> RemoveUnitFrom(inv, t)[i].bloodType == inv[i].bloodType
    ensures UniqueTypes(inv) ==> UniqueTypes(RemoveUnitFrom(inv, t))
    ensures forall i :: 0 <= i < |inv| && inv[i].bloodType == t && inv[i].units > 0
              ==> StatusAgrees(RemoveUnitFrom(inv, t)[i])
    ensures AllStatusesAgree(inv) ==> AllStatusesAgree(RemoveUnitFrom(inv, t))
  {
  }

  /** A row with no units is left alone by a remove: the whole table is unchanged. */
  lemma RemoveFromEmptyRowChangesNothing(inv: seq<BloodStock>, t: string, i: int)
    requires UniqueTypes(inv) && 0 <= i < |inv| && inv[i].bloodType == t && inv[i].units <= 0
    ensures RemoveUnitFrom(inv, t) == inv
  {
  }

  // ---------------------------------------------------------------------------
  // Summary figures
  // ---------------------------------------------------------------------------

  /** `bloodInventory.reduce((sum, item) => sum + item.units, 0)` */
  function TotalUnits(inv: seq<BloodStock>): (total: int)
    ensures NonNegative(inv) ==> total >= 0
  {
    if inv == [] then 0 else inv[0].units + TotalUnits(inv[1..])
  }

  /** Number of rows of type `t`. */
  function Occurrences(inv: seq<BloodStock>, t: string): nat {
    if inv == [] then 0 else (if inv[0].bloodType == t then 1 else 0) + Occurrences(inv[1..], t)
  }

  /** Number of rows of type `t` that have at least one unit. */
  function StockedOccurrences(inv: seq<BloodStock>, t: string): nat {
    if inv == [] then 0
    else (if inv[0].bloodType == t && inv[0].units > 0 then 1 else 0) + StockedOccurrences(inv[1..], t)
  }

  /** Adding `n` units to type `t` raises the total by `n` for every row of that type. */
  lemma {:induction false} TotalAfterAdd(inv: seq<BloodStock>, t: string, n: int)
    ensures TotalUnits(AddUnitsTo(inv, t, n)) == TotalUnits(inv) + n * Occurrences(inv, t)
  {
    if inv != [] {
      var here: nat := if inv[0].bloodType == t then 1 else 0;
      TotalAfterAdd(inv[1..], t, n);
      TotalAddStep(inv, t, n);
      Distribute(n, here, Occurrences(inv[1..], t));
    }
  }

  /** Removing a unit of type `t` lowers the total by one for every stocked row of that type. */
  lemma {:induction false} TotalAfterRemove(inv: seq<BloodStock>, t: string)
    ensures TotalUnits(RemoveUnitFrom(inv, t)) == TotalUnits(inv) - StockedOccurrences(inv, t)
  {
    if inv != [] {
      TotalAfterRemove(inv[1..], t);
      assert RemoveUnitFrom(inv, t)[1..] == RemoveUnitFrom(inv[1..], t);
    }
  }

  /** One step of the induction: the first row's new units plus the total of the updated rest. */
  lemma TotalAddStep(inv: seq<BloodStock>, t: string, n: int)
    requires inv != []
    ensures TotalUnits(AddUnitsTo(inv, t, n))
            == inv[0].units + (if inv[0].bloodType == t then n else 0) + TotalUnits(AddUnitsTo(inv[1..], t, n))
  {
    assert AddUnitsTo(inv, t, n)[1..] == AddUnitsTo(inv[1..], t, n);
  }

  lemma Distribute(n: int, a: int, b: int)
    ensures n * (a + b) == n * a + n * b
  {
  }

  /** With unique types, the row at `i` is the only one of its type, and the only stocked one if it has units. */
  lemma {:induction false} OnlyRowOfItsType(inv: seq<BloodStock>, i: int)
    requires UniqueTypes(inv) && 0 <= i < |inv|
    ensures Occurrences(inv, inv[i].bloodType) == 1
    ensures StockedOccurrences(inv, inv[i].bloodType) == (if inv[i].units > 0 then 1 else 0)
  {
    var t := inv[i].bloodType;
    if i == 0 {
      AbsentType(inv[1..], t);
    } else {
      assert inv[1..][i - 1] == inv[i];
      OnlyRowOfItsType(inv[1..], i - 1);
    }
  }

  lemma {:induction false} AbsentType(inv: seq<BloodStock>, t: string)
    requires forall j :: 0 <= j < |inv| ==> inv[j].bloodType != t
    ensures Occurrences(inv, t) == 0 && StockedOccurrences(inv, t) == 0
  {
    if inv != [] {
      AbsentType(inv[1..], t);
    }
  }

  /** On a table with unique types, adding `n` units to a listed type raises the total by exactly `n`. */
  lemma AddRaisesTotal(inv: seq<BloodStock>, n: int, i: int)
    requires UniqueTypes(inv) && 0 <= i < |inv|
    ensures TotalUnits(AddUnitsTo(inv, inv[i].bloodType, n)) == TotalUnits(inv) + n
  {
    TotalAfterAdd(inv, inv[i].bloodType, n);
    OnlyRowOfItsType(inv, i);
  }

  /** On a table with unique types, removing from a stocked row lowers the total by exactly one. */
  lemma RemoveLowersTotal(inv: seq<BloodStock>, i: int)
    requires UniqueTypes(inv) && 0 <= i < |inv| && inv[i].units > 0
    ensures TotalUnits(RemoveUnitFrom(inv, inv[i].bloodType)) == TotalUnits(inv) - 1
  {
    TotalAfterRemove(inv, inv[i].bloodType);
    OnlyRowOfItsType(inv, i);
  }

  function HasStatus(s: Status): BloodStock -> bool {
    (row: BloodStock) => row.status == s
  }

  /**
   * `bloodInventory.filter(item => item.status === s).length`. It is positive
   * exactly when some row carries `s`, which is when the page's
   * `some(item => item.status === 'Critical')` alert shows for Critical.
   */
  function StatusCount(inv: seq<BloodStock>, s: Status): (count: nat)
    ensures count <= |inv|
    ensures count > 0 <==> exists i :: 0 <= i < |inv| && inv[i].status == s
  {
    var kept := Filter(inv, HasStatus(s));
    assert |kept| > 0 ==> kept[0] in inv && HasStatus(s)(kept[0]);
    |kept|
  }

  /** Every row carries one of the three labels, so the three summary counts add up to the table's length. */
  lemma {:induction false} StatusCountsPartition(inv: seq<BloodStock>)
    ensures StatusCount(inv, Adequate) + StatusCount(inv, Low) + StatusCount(inv, Critical) == |inv|
  {
    if inv != [] {
      StatusCountsPartition(inv[1..]);
    }
  }

  // ---------------------------------------------------------------------------
  // Search
  // ---------------------------------------------------------------------------

  function MatchesType(term: string): BloodStock -> bool {
    (row: BloodStock) => ContainsIgnoringCase(row.bloodType, term)
  }

  /** `bloodInventory.filter(item => item.type.toLowerCase().includes(searchTerm.toLowerCase()))` */
  function FilteredInventory(inv: seq<BloodStock>, term: string): (shown: seq<BloodStock>)
    ensures |shown| <= |inv|
    ensures forall k :: 0 <= k < |shown| ==> shown[k] in inv && ContainsIgnoringCase(shown[k].bloodType, term)
    ensures forall i :: 0 <= i < |inv| && ContainsIgnoringCase(inv[i].bloodType, term) ==> inv[i] in shown
  {
    Filter(inv, MatchesType(term))
  }

  /** The search keeps exactly the rows whose lower-cased type contains the lower-cased term, in table order. */
  lemma SearchSelectsMatchingRows(inv: seq<BloodStock>, term: string)
    ensures exists idx :: SelectsAt(inv, MatchesType(term), FilteredInventory(inv, term), idx)
  {
    var idx := FilterSelects(inv, MatchesType(term));
    assert SelectsAt(inv, MatchesType(term), FilteredInventory(inv, term), idx);
  }

  /** An empty search term shows the whole table. */
  lemma EmptySearchKeepsAll(inv: seq<BloodStock>)
    ensures FilteredInventory(inv, "") == inv
  {
    forall i | 0 <= i < |inv|
      ensures MatchesType("")(inv[i])
    {
      IncludesEmpty(ToLower(inv[i].bloodType));
    }
    FilterKeepsAll(inv, MatchesType(""));
  }

  // ---------------------------------------------------------------------------
  // The units input
  // ---------------------------------------------------------------------------

  /** The units field: an empty field is 0, otherwise `parseInt` of the text, with NaN read as 0. */
  function UnitsFromInput(text: string): (n: int)
    ensures text == "" ==> n == 0
    ensures ParseInt(text).None? ==> n == 0
    ensures ParseInt(text).Some? ==> n == ParseInt(text).value
  {
    if text == "" then 0 else ParseInt(text).GetOr(0)
  }

  /** Typing the numeral of `k` sets the field to `k`. */
  lemma UnitsFromNumeral(k: nat)
    ensures UnitsFromInput(DecimalString(k)) == k
  {
    ParseIntDecimal(k, "");
    assert DecimalString(k) + "" == DecimalString(k);
  }

  // ---------------------------------------------------------------------------
  // The page
  // ---------------------------------------------------------------------------

  class InventoryPage {
    var bloodInventory: seq<BloodStock>
    var searchTerm: string
    var showAddModal: bool
    var selectedBloodType: string
    var unitsToAdd: int

    /** Units are never negative and each blood type has one row. */
    ghost predicate Valid()
      reads this
    {
      NonNegative(bloodInventory) && UniqueTypes(bloodInventory)
    }

    constructor ()
      ensures Valid()
      ensures bloodInventory == InitialBloodInventory && searchTerm == ""
      ensures !showAddModal && selectedBloodType == "" && unitsToAdd == 1
    {
      bloodInventory := InitialBloodInventory;
      searchTerm := "";
      showAddModal := false;
      selectedBloodType := "";
      unitsToAdd := 1;
      InitialInventoryWellFormed();
    }

    /** `handleAddUnits`: with a type selected and a positive count, add the units and reset the dialog. */
    method HandleAddUnits()
      requires Valid()
      modifies this
      ensures Valid()
      ensures searchTerm == old(searchTerm)
      ensures old(selectedBloodType) == "" || old(unitsToAdd) <= 0 ==>
        bloodInventory == old(bloodInventory) && showAddModal == old(showAddModal)
        && selectedBloodType == old(selectedBloodType) && unitsToAdd == old(unitsToAdd)
      ensures old(selectedBloodType) != "" && old(unitsToAdd) > 0 ==>
        bloodInventory == AddUnitsTo(old(bloodInventory), old(selectedBloodType), old(unitsToAdd))
        && !showAddModal && selectedBloodType == "" && unitsToAdd == 1
    {
      if selectedBloodType == "" || unitsToAdd <= 0 {
        return;
      }
      AddPreservesTable(bloodInventory, selectedBloodType, unitsToAdd);
      bloodInventory := AddUnitsTo(bloodInventory, selectedBloodType, unitsToAdd);
      showAddModal := false;
      selectedBloodType := "";
      unitsToAdd := 1;
    }

    /** `handleRemoveUnit(type)`: one unit less on the rows of that type that have any; nothing else changes. */
    method HandleRemoveUnit(t: string)
      requires Valid()
      modifies this
      ensures Valid()
      ensures bloodInventory == RemoveUnitFrom(old(bloodInventory), t)
      ensures searchTerm == old(searchTerm) && showAddModal == old(showAddModal)
      ensures selectedBloodType == old(selectedBloodType) && unitsToAdd == old(unitsToAdd)
    {
      RemovePreservesTable(bloodInventory, t);
      bloodInventory := RemoveUnitFrom(bloodInventory, t);
    }

    /** The rows the table shows. */
    function Shown(): seq<BloodStock>
      reads this
    {
      FilteredInventory(bloodInventory, searchTerm)
    }

    /** The search box. */
    method SetSearchTerm(term: string)
      modifies this
      ensures searchTerm == term && Shown() == FilteredInventory(bloodInventory, term)
      ensures bloodInventory == old(bloodInventory) && showAddModal == old(showAddModal)
      ensures selectedBloodType == old(selectedBloodType) && unitsToAdd == old(unitsToAdd)
    {
      searchTerm := term;
    }

    /** The "Add Blood Units" button: opens the dialog with whatever type is selected. */
    method OpenAddModal()
      modifies this
      ensures showAddModal
      ensures bloodInventory == old(bloodInventory) && searchTerm == old(searchTerm)
      ensures selectedBloodType == old(selectedBloodType) && unitsToAdd == old(unitsToAdd)
    {
      showAddModal := true;
    }

    /** The plus button of a row: selects that row's type and opens the dialog. */
    method AddToRow(t: string)
      modifies this
      ensures showAddModal && selectedBloodType == t
      ensures bloodInventory == old(bloodInventory) && searchTerm == old(searchTerm)
      ensures unitsToAdd == old(unitsToAdd)
    {
      selectedBloodType := t;
      showAddModal := true;
    }

    /** The blood-type select of the dialog ("" is its "Select Blood Type" option). */
    method SelectBloodType(t: string)
      modifies this
      ensures selectedBloodType == t
      ensures bloodInventory == old(bloodInventory) && searchTerm == old(searchTerm)
      ensures showAddModal == old(showAddModal) && unitsToAdd == old(unitsToAdd)
    {
      selectedBloodType := t;
    }

    /** The units field of the dialog. */
    method EnterUnits(text: string)
      modifies this
      ensures unitsToAdd == UnitsFromInput(text)
      ensures bloodInventory == old(bloodInventory) && searchTerm == old(searchTerm)
      ensures showAddModal == old(showAddModal) && selectedBloodType == old(selectedBloodType)
    {
      unitsToAdd := UnitsFromInput(text);
    }

    /** The Cancel button: closes the dialog and keeps the selection and count. */
    method CancelAddModal()
      modifies this
      ensures !showAddModal
      ensures bloodInventory == old(bloodInventory) && searchTerm == old(searchTerm)
      ensures selectedBloodType == old(selectedBloodType) && unitsToAdd == old(unitsToAdd)
    {
      showAddModal := false;
    }
  }
}
