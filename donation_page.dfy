/**
 * The donor's donation page: a fixed list of donation opportunities, a
 * case-insensitive search over bank name and address, and the scheduling
 * dialog (selected opportunity, visibility, confirmation text).
 */
module DonationPage {
  import opened Wrappers
  import opened Text
  import opened Lists

  datatype Opportunity = Opportunity(
    id: int, bloodBank: string, address: string, date: string, time: string, distance: string,
    urgentNeed: seq<string>, requirements: seq<string>)

  const Requirements: seq<string> := ["Age 18-65", "Weight over 110 lbs", "Good health", "No recent tattoos"]

  const MockDonationOpportunities: seq<Opportunity> := [
    Opportunity(1, "City Blood Center", "123 Main St, Cityville", "2023-05-15", "9:00 AM - 5:00 PM",
      "2.3 miles", ["O+", "B-"], Requirements),
    Opportunity(2, "Metro Blood Bank", "456 Park Ave, Metrotown", "2023-05-18", "10:00 AM - 6:00 PM",
      "4.1 miles", ["A+", "AB-"], Requirements),
    Opportunity(3, "Community Blood Services", "789 Broadway, Downtown", "2023-05-20", "8:00 AM - 3:00 PM",
      "1.7 miles", ["O-", "AB+"], Requirements),
    Opportunity(4, "Regional Medical Center", "101 Hospital Dr, Westside", "2023-05-22", "11:00 AM - 7:00 PM",
      "5.5 miles", ["B+", "A-"], Requirements),
    Opportunity(5, "University Hospital", "202 College Rd, Collegetown", "2023-05-25", "9:30 AM - 4:30 PM",
      "3.8 miles", ["O+", "AB+"], Requirements)
  ]

  function MatchesOpportunity(term: string): Opportunity -> bool {
    (o: Opportunity) => ContainsIgnoringCase(o.bloodBank, term) || ContainsIgnoringCase(o.address, term)
  }

  /** `filteredOpportunities` */
  function FilteredOpportunities(ops: seq<Opportunity>, term: string): (shown: seq<Opportunity>)
    ensures |shown| <= |ops|
    ensures forall k :: 0 <= k < |shown| ==>
      shown[k] in ops && (ContainsIgnoringCase(shown[k].bloodBank, term) || ContainsIgnoringCase(shown[k].address, term))
    ensures forall i :: 0 <= i < |ops| ==>
      (ContainsIgnoringCase(ops[i].bloodBank, term) || ContainsIgnoringCase(ops[i].address, term)) ==> ops[i] in shown
  {
    Filter(ops, MatchesOpportunity(term))
  }

  /** The list keeps exactly the opportunities whose lower-cased bank or address contains the lower-cased term, in order. */
  lemma FilteredOpportunitiesSelects(ops: seq<Opportunity>, term: string)
    ensures exists idx :: SelectsAt(ops, MatchesOpportunity(term), FilteredOpportunities(ops, term), idx)
  {
    var idx := FilterSelects(ops, MatchesOpportunity(term));
    assert SelectsAt(ops, MatchesOpportunity(term), FilteredOpportunities(ops, term), idx);
  }

  /** An empty term lists every opportunity, in order. */
  lemma EmptySearchKeepsAll(ops: seq<Opportunity>)
    ensures FilteredOpportunities(ops, "") == ops
  {
    forall i | 0 <= i < |ops|
      ensures MatchesOpportunity("")(ops[i])
    {
      IncludesEmpty(ToLower(ops[i].bloodBank));
    }
    FilterKeepsAll(ops, MatchesOpportunity(""));
  }

  /** The search ignores case. */
  lemma SearchIgnoresCase(ops: seq<Opportunity>, term: string)
    ensures FilteredOpportunities(ops, ToLower(term)) == FilteredOpportunities(ops, term)
  {
    forall i | 0 <= i < |ops|
      ensures MatchesOpportunity(ToLower(term))(ops[i]) == MatchesOpportunity(term)(ops[i])
    {
      ContainsIgnoringCaseOfLowered(ops[i].bloodBank, term);
      ContainsIgnoringCaseOfLowered(ops[i].address, term);
    }
    FilterAgreeing(ops, MatchesOpportunity(ToLower(term)), MatchesOpportunity(term));
  }

  // ---------------------------------------------------------------------------
  // time.split(' - ')[0]
  // ---------------------------------------------------------------------------

  const TimeSeparator: string := " - "

  /**
   * `s.split(sep)[0]`: the part of `s` before the first occurrence of `sep`,
   * or all of `s` when `sep` does not occur.
   */
  function BeforeFirst(s: string, sep: string): (r: string)
    requires |sep| > 0
    ensures r <= s
    ensures |r| < |s| ==> OccursAt(s, sep, |r|)
    ensures forall i :: 0 <= i < |r| ==> !OccursAt(s, sep, i)
    decreases |s|
  {
    if |s| < |sep| then s
    else if s[..|sep|] == sep then ""
    else
      var rest := BeforeFirst(s[1..], sep);
      assert !OccursAt(s, sep, 0) by {
        assert s[0..|sep|] == s[..|sep|];
      }
      assert forall i :: 1 <= i <= |rest| ==> !OccursAt(s, sep, i) by {
        forall i | 1 <= i <= |rest| {
          OccursAtShift(s, sep, i - 1);
        }
      }
      assert |rest| < |s| - 1 ==> OccursAt(s, sep, |rest| + 1) by {
        if |rest| < |s| - 1 {
          OccursAtShift(s, sep, |rest|);
        }
      }
      [s[0]] + rest
  }

  /** When `sep` does not occur at all the whole string comes back. */
  lemma BeforeFirstWithoutSeparator(s: string, sep: string)
    requires |sep| > 0 && !Includes(s, sep)
    ensures BeforeFirst(s, sep) == s
  {
    IncludesIffOccurs(s, sep);
  }

  /** The text before the first occurrence is the text before `n` when `n` is the first occurrence. */
  lemma BeforeFirstOccurrence(s: string, sep: string, n: nat)
    requires |sep| > 0 && OccursAt(s, sep, n)
    requires forall i :: 0 <= i < n ==> !OccursAt(s, sep, i)
    ensures BeforeFirst(s, sep) == s[..n]
  {
  }

  /** The start of an opening-hours string, as the confirmation shows it. */
  function StartTime(time: string): (start: string)
    ensures start <= time
    ensures |start| < |time| ==> OccursAt(time, TimeSeparator, |start|)
    ensures forall i :: 0 <= i < |start| ==> !OccursAt(time, TimeSeparator, i)
  {
    BeforeFirst(time, TimeSeparator)
  }

  /** "start - end" with no dash in the start gives the start back, whatever the end holds. */
  lemma StartTimeOf(start: string, end: string)
    requires '-' !in start
    ensures StartTime(start + TimeSeparator + end) == start
  {
    var s := start + TimeSeparator + end;
    assert s[|start|..|start| + 3] == TimeSeparator;
    forall i | 0 <= i < |start|
      ensures !OccursAt(s, TimeSeparator, i)
    {
      if i + 1 < |start| {
        assert s[i + 1] == start[i + 1];
      } else {
        assert s[i + 1] == ' ';
      }
    }
    BeforeFirstOccurrence(s, TimeSeparator, |start|);
    assert s[..|start|] == start;
  }

  /** For example, the hours "9:00 AM - 5:00 PM" start at "9:00 AM". */
  lemma StartTimeExample()
    ensures StartTime("9:00 AM - 5:00 PM") == "9:00 AM"
  {
    assert "9:00 AM - 5:00 PM" == "9:00 AM" + TimeSeparator + "5:00 PM";
    StartTimeOf("9:00 AM", "5:00 PM");
  }

  /** The text of the confirmation alert. */
  function ConfirmationMessage(o: Opportunity): (message: string)
    ensures "Appointment scheduled at " + o.bloodBank <= message
    ensures |StartTime(o.time)| <= |message|
    ensures message[|message| - |StartTime(o.time)|..] == StartTime(o.time)
  {
    "Appointment scheduled at " + o.bloodBank + " on " + o.date + " at " + StartTime(o.time)
  }

  class DonationPageState {
    /** The page's list, `mockDonationOpportunities`. */
    const opportunities: seq<Opportunity>
    var searchTerm: string
    var selectedOpportunity: Option<Opportunity>
    var showModal: bool

    constructor ()
      ensures opportunities == MockDonationOpportunities
      ensures searchTerm == "" && selectedOpportunity == None && !showModal
    {
      opportunities := MockDonationOpportunities;
      searchTerm := "";
      selectedOpportunity := None;
      showModal := false;
    }

    /** The dialog is on screen only when it is open and an opportunity is selected. */
    predicate ModalVisible(): (visible: bool)
      reads this
      ensures visible ==> selectedOpportunity.Some?
      ensures !showModal ==> !visible
      ensures showModal && selectedOpportunity.Some? ==> visible
    {
      showModal && selectedOpportunity.Some?
    }

    function Shown(): seq<Opportunity>
      reads this
    {
      FilteredOpportunities(opportunities, searchTerm)
    }

    method SetSearchTerm(term: string)
      modifies this
      ensures searchTerm == term && Shown() == FilteredOpportunities(opportunities, term)
      ensures selectedOpportunity == old(selectedOpportunity) && showModal == old(showModal)
    {
      searchTerm := term;
    }

    /** `handleSchedule`: select the opportunity and open the dialog. */
    method HandleSchedule(o: Opportunity)
      modifies this
      ensures selectedOpportunity == Some(o) && showModal && ModalVisible()
      ensures searchTerm == old(searchTerm)
    {
      selectedOpportunity := Some(o);
      showModal := true;
    }

    /** `closeModal`: hide the dialog; the selection stays. */
    method CloseModal()
      modifies this
      ensures !showModal && !ModalVisible()
      ensures selectedOpportunity == old(selectedOpportunity) && searchTerm == old(searchTerm)
    {
      showModal := false;
    }

    /** `confirmAppointment`: the alert text for the selected opportunity, then the dialog closes. */
    method ConfirmAppointment() returns (message: string)
      requires selectedOpportunity.Some?
      modifies this
      ensures selectedOpportunity == old(selectedOpportunity)
      ensures message == ConfirmationMessage(selectedOpportunity.value)
      ensures !showModal && !ModalVisible() && searchTerm == old(searchTerm)
    {
      var o := selectedOpportunity.value;
      message := ConfirmationMessage(o);
      showModal := false;
    }
  }
}
