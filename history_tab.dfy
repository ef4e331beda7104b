/**
 * The dashboard's history tab: how long ago an event happened, in the
 * largest unit it exceeds; how an audit event is shown; and the rename form
 * of an analysis. Dates and the clock come in as a millisecond difference.
 */
module HistoryTab {
  import opened Common
  import opened Text

  datatype TimeUnit = Years | Months | Days | Hours | Minutes | Seconds

  /** The length of a unit in seconds, as the source divides by it. */
  function Size(u: TimeUnit): nat {
    match u
    case Years => 31536000
    case Months => 2592000
    case Days => 86400
    case Hours => 3600
    case Minutes => 60
    case Seconds => 1
  }

  function Name(u: TimeUnit): string {
    match u
    case Years => "years"
    case Months => "months"
    case Days => "days"
    case Hours => "hours"
    case Minutes => "minutes"
    case Seconds => "seconds"
  }

  /** The unit `formatTimeAgo` settles on: the first whose `seconds / size > 1` holds, seconds otherwise. */
  function UnitOf(seconds: int): TimeUnit {
    if seconds > Size(Years) then Years
    else if seconds > Size(Months) then Months
    else if seconds > Size(Days) then Days
    else if seconds > Size(Hours) then Hours
    else if seconds > Size(Minutes) then Minutes
    else Seconds
  }

  /**
   * `formatTimeAgo`: `elapsedMs` is `now.getTime() - date.getTime()`, `None` when the date does not
   * parse (every comparison with `NaN` fails). `Math.floor` of a quotient by a positive size is
   * Dafny's `/`.
   */
  function FormatTimeAgo(elapsedMs: Option<int>): string {
    match elapsedMs
    case None => "NaN seconds ago"
    case Some(ms) =>
      var seconds := ms / 1000;
      var u := UnitOf(seconds);
      IntToString(seconds / Size(u)) + " " + Name(u) + " ago"
  }

  /** Larger units come first. */
  predicate Larger(v: TimeUnit, u: TimeUnit) { Size(v) > Size(u) }

  /**
   * The unit chosen is one the elapsed time strictly exceeds (seconds aside), and the elapsed time
   * exceeds no larger unit; so the boundaries themselves fall to the smaller unit.
   */
  lemma UnitOfSpec(seconds: int, v: TimeUnit)
    ensures UnitOf(seconds) != Seconds ==> seconds > Size(UnitOf(seconds))
    ensures Larger(v, UnitOf(seconds)) ==> seconds <= Size(v)
  {
  }

  /** The largest count each unit can show before the next unit takes over. */
  function Limit(u: TimeUnit): nat {
    match u
    case Years => 0
    case Months => 12
    case Days => 30
    case Hours => 24
    case Minutes => 60
    case Seconds => 60
  }

  /** Every unit but seconds shows a count of at least one, and none shows more than its limit. */
  lemma CountBounds(seconds: int)
    ensures var u := UnitOf(seconds);
      && (u != Seconds ==> seconds / Size(u) >= 1)
      && (u != Years ==> seconds / Size(u) <= Limit(u))
  {
    var u := UnitOf(seconds);
    if u == Months {
      assert seconds <= 31536000;
      assert seconds / 2592000 <= 31536000 / 2592000;
    } else if u == Days {
      assert seconds / 86400 <= 2592000 / 86400;
    } else if u == Hours {
      assert seconds / 3600 <= 86400 / 3600;
    } else if u == Minutes {
      assert seconds / 60 <= 3600 / 60;
    }
  }

  lemma SixtyText()
    ensures IntToString(60) == "60"
  {
    assert 60 / 10 == 6 && 60 % 10 == 0;
    assert NatToString(6) == [DigitChar(6)] == "6";
    assert DigitChar(0) == '0';
  }

  /** A minute on the dot is still counted in seconds. */
  lemma MinuteBoundary()
    ensures FormatTimeAgo(Some(60000)) == "60 seconds ago"
  {
    assert UnitOf(60) == Seconds && 60 / Size(Seconds) == 60;
    SixtyText();
  }

  /** One second past the minute is a minute. */
  lemma JustOverAMinute()
    ensures FormatTimeAgo(Some(61000)) == "1 minutes ago"
  {
    assert UnitOf(61) == Minutes && 61 / Size(Minutes) == 1;
    assert NatToString(1) == "1";
  }

  /** An hour on the dot is sixty minutes. */
  lemma HourBoundary()
    ensures FormatTimeAgo(Some(3600000)) == "60 minutes ago"
  {
    assert UnitOf(3600) == Minutes && 3600 / Size(Minutes) == 60;
    SixtyText();
  }

  /** A date in the future gives a negative count of seconds. */
  lemma FutureIsNegative()
    ensures FormatTimeAgo(Some(-5000)) == "-5 seconds ago"
  {
    assert -5000 / 1000 == -5;
    assert UnitOf(-5) == Seconds && -5 / Size(Seconds) == -5;
    assert IntToString(-5) == "-" + NatToString(5) == "-5";
  }

  datatype Icon = UserIcon | UploadIcon | TrashIcon | EditIcon | FileTextIcon

  /** The style an event is shown with. */
  datatype Tone = InfoTone | SuccessTone | WarningTone

  datatype ActivityDetails = ActivityDetails(icon: Icon, text: string, tone: Tone)

  /** An audit event: its action type and the string form of its detail fields. */
  datatype AuditEvent = AuditEvent(actionType: string, details: map<string, string>)

  /** A template literal shows a missing field as `undefined`. */
  function Detail(e: AuditEvent, key: string): string {
    if key in e.details then e.details[key] else "undefined"
  }

  const KnownActions: set<string> := {"LOGIN_SUCCESS", "CREATE_ANALYSIS", "DELETE_ANALYSIS", "UPDATE_ANALYSIS"}

  /** `getActivityDetails` */
  function GetActivityDetails(e: AuditEvent): ActivityDetails {
    match e.actionType
    case "LOGIN_SUCCESS" => ActivityDetails(UserIcon, "Successfully logged in from IP: " + Detail(e, "client_ip"), InfoTone)
    case "CREATE_ANALYSIS" => ActivityDetails(UploadIcon, "Created new analysis: \"" + Detail(e, "name") + "\"", SuccessTone)
    case "DELETE_ANALYSIS" => ActivityDetails(TrashIcon, "Deleted analysis ID: " + Detail(e, "analysis_id"), WarningTone)
    case "UPDATE_ANALYSIS" => ActivityDetails(EditIcon, "Updated analysis: \"" + Detail(e, "new_name") + "\"", InfoTone)
    case _ => ActivityDetails(FileTextIcon, "Performed action: " + e.actionType, InfoTone)
  }

  /**
   * Only a deletion is a warning and only a creation a success; every action outside the four known
   * ones gets the generic icon, the info tone and a text naming the action.
   */
  lemma ActivityDetailsSpec(e: AuditEvent)
    ensures GetActivityDetails(e).tone == WarningTone <==> e.actionType == "DELETE_ANALYSIS"
    ensures GetActivityDetails(e).tone == SuccessTone <==> e.actionType == "CREATE_ANALYSIS"
    ensures GetActivityDetails(e).icon == FileTextIcon <==> e.actionType !in KnownActions
    ensures e.actionType !in KnownActions ==>
      GetActivityDetails(e) == ActivityDetails(FileTextIcon, "Performed action: " + e.actionType, InfoTone)
  {
  }

  datatype Analysis = Analysis(id: string, name: string)

  /** The rename request `updateMutation.mutate` is given. */
  datatype Rename = Rename(id: string, name: string)

  /** The rename form: which analysis is being edited and the name typed so far. */
  class RenameForm {
    var isEditing: Option<string>
    var newName: string

    constructor()
      ensures isEditing.None? && newName == ""
    {
      isEditing, newName := None, "";
    }

    /** `handleEdit`: start editing an analysis with its current name. */
    method Edit(a: Analysis)
      modifies this
      ensures isEditing == Some(a.id) && newName == a.name
    {
      isEditing, newName := Some(a.id), a.name;
    }

    /** `handleSave`: a rename is sent only for a name with something besides white space, and it is sent trimmed. */
    method Save(id: string) returns (request: Option<Rename>)
      ensures request.Some? <==> !AllSpace(newName)
      ensures request.Some? ==> request.value == Rename(id, Trim(newName))
      ensures request.Some? ==> request.value.name != [] && !IsSpace(request.value.name[0])
    {
      TrimEmpty(newName);
      var trimmed := Trim(newName);
      if trimmed != [] {
        request := Some(Rename(id, trimmed));
      } else {
        request := None;
      }
    }

    /** The update's success handler closes the form. */
    method Saved()
      modifies this
      ensures isEditing.None? && newName == ""
    {
      isEditing, newName := None, "";
    }
  }
}
