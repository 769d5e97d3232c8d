/**
 * Application-wide enumerations and lookup tables (src/utils/constants.js).
 *
 * The source keeps lead statuses and call outcomes as strings and looks their
 * badges up by string key.  The closed enumerations below give each string
 * value a name; the badge tables stay keyed by string, as in the source, and
 * the lemmas show that every enumerated value has exactly one entry.
 */
module Constants {

  /** LEAD_STATUS */
  datatype LeadStatus = New | Contacted | Qualified | Converted | Lost
  {
    /** The string the fixture stores and the filter compares against. */
    function Value(): string
    {
      match this
      case New => "new"
      case Contacted => "contacted"
      case Qualified => "qualified"
      case Converted => "converted"
      case Lost => "lost"
    }
  }

  /** The values of LEAD_STATUS, in declaration order. */
  const LeadStatuses: seq<LeadStatus> := [New, Contacted, Qualified, Converted, Lost]

  /** One entry of a colour table: background class, text class and display label (`label` in the source). */
  datatype Badge = Badge(bg: string, text: string, caption: string)

  /** LEAD_STATUS_COLORS */
  const LeadStatusColors: map<string, Badge> := map[
    "new" := Badge("bg-yellow-100", "text-yellow-800", "New"),
    "contacted" := Badge("bg-blue-100", "text-blue-800", "Contacted"),
    "qualified" := Badge("bg-green-100", "text-green-800", "Qualified"),
    "converted" := Badge("bg-purple-100", "text-purple-800", "Converted"),
    "lost" := Badge("bg-red-100", "text-red-800", "Lost")
  ]

  /** CALL_OUTCOME */
  datatype CallOutcome = Interested | NotInterested | Callback | NoAnswer
  {
    function Value(): string
    {
      match this
      case Interested => "interested"
      case NotInterested => "not-interested"
      case Callback => "callback"
      case NoAnswer => "no-answer"
    }
  }

  /** The values of CALL_OUTCOME, in declaration order. */
  const CallOutcomes: seq<CallOutcome> := [Interested, NotInterested, Callback, NoAnswer]

  /** CALL_OUTCOME_COLORS */
  const CallOutcomeColors: map<string, Badge> := map[
    "interested" := Badge("bg-green-100", "text-green-800", "Interested"),
    "not-interested" := Badge("bg-red-100", "text-red-800", "Not Interested"),
    "callback" := Badge("bg-orange-100", "text-orange-800", "Callback"),
    "no-answer" := Badge("bg-gray-100", "text-gray-800", "No Answer")
  ]

  /** TABS */
  const TabLeads: string := "leads"
  const TabCalls: string := "calls"

  /**
   * The badge a lead row shows for its status.  The table lookup
   * `LEAD_STATUS_COLORS[lead.status]` is defined for every status value,
   * and the label is the status's fixed display label.
   */
  function StatusBadge(s: LeadStatus): (b: Badge)
    ensures s.Value() in LeadStatusColors && LeadStatusColors[s.Value()] == b
    ensures b.caption == match s
                       case New => "New"
                       case Contacted => "Contacted"
                       case Qualified => "Qualified"
                       case Converted => "Converted"
                       case Lost => "Lost"
  {
    LeadStatusColors[s.Value()]
  }

  /** The badge a call row shows for its outcome; defined for every outcome. */
  function OutcomeBadge(o: CallOutcome): (b: Badge)
    ensures o.Value() in CallOutcomeColors && CallOutcomeColors[o.Value()] == b
    ensures b.caption == match o
                       case Interested => "Interested"
                       case NotInterested => "Not Interested"
                       case Callback => "Callback"
                       case NoAnswer => "No Answer"
  {
    CallOutcomeColors[o.Value()]
  }

  /** LEAD_STATUS has exactly five values, listed once each, with pairwise-distinct strings. */
  lemma LeadStatusesDistinct()
    ensures |LeadStatuses| == 5
    ensures forall s: LeadStatus :: s in LeadStatuses
    ensures forall i, j :: 0 <= i < j < |LeadStatuses| ==> LeadStatuses[i].Value() != LeadStatuses[j].Value()
    ensures forall a: LeadStatus, b: LeadStatus :: a.Value() == b.Value() ==> a == b
  {
    forall s: LeadStatus ensures s in LeadStatuses {
      match s
      case New => assert LeadStatuses[0] == s;
      case Contacted => assert LeadStatuses[1] == s;
      case Qualified => assert LeadStatuses[2] == s;
      case Converted => assert LeadStatuses[3] == s;
      case Lost => assert LeadStatuses[4] == s;
    }
  }

  /** CALL_OUTCOME has exactly four values with pairwise-distinct strings. */
  lemma CallOutcomesDistinct()
    ensures |CallOutcomes| == 4
    ensures forall o: CallOutcome :: o in CallOutcomes
    ensures forall a: CallOutcome, b: CallOutcome :: a.Value() == b.Value() ==> a == b
  {
    forall o: CallOutcome ensures o in CallOutcomes {
      match o
      case Interested => assert CallOutcomes[0] == o;
      case NotInterested => assert CallOutcomes[1] == o;
      case Callback => assert CallOutcomes[2] == o;
      case NoAnswer => assert CallOutcomes[3] == o;
    }
  }

  /** The keys of LEAD_STATUS_COLORS are exactly the LEAD_STATUS values. */
  lemma LeadStatusColorsKeys()
    ensures forall v: string :: v in LeadStatusColors <==> exists s: LeadStatus :: s.Value() == v
  {
    forall v: string | v in LeadStatusColors
      ensures exists s: LeadStatus :: s.Value() == v
    {
      if v == "new" { assert New.Value() == v; }
      else if v == "contacted" { assert Contacted.Value() == v; }
      else if v == "qualified" { assert Qualified.Value() == v; }
      else if v == "converted" { assert Converted.Value() == v; }
      else { assert Lost.Value() == v; }
    }
  }

  /** The keys of CALL_OUTCOME_COLORS are exactly the CALL_OUTCOME values. */
  lemma CallOutcomeColorsKeys()
    ensures forall v: string :: v in CallOutcomeColors <==> exists o: CallOutcome :: o.Value() == v
  {
    forall v: string | v in CallOutcomeColors
      ensures exists o: CallOutcome :: o.Value() == v
    {
      if v == "interested" { assert Interested.Value() == v; }
      else if v == "not-interested" { assert NotInterested.Value() == v; }
      else if v == "callback" { assert Callback.Value() == v; }
      else { assert NoAnswer.Value() == v; }
    }
  }

  /** The two tab ids are distinct. */
  lemma TabIdsDistinct()
    ensures TabLeads != TabCalls
  {
  }
}
