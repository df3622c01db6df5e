/**
 * The public careers page: open positions with their requirement lists, and
 * an application popup for the chosen one.
 */
module CareerPage {
  import opened Wrappers
  import opened Json
  import opened Text
  import opened ResourceLists
  import opened PublicForms

  const JobsPath := "/moox_events/api/career/jobs"
  const ApplyPath := "/moox_events/api/career/apply"
  const FillAll := "Please fill in all the fields"
  const ApplyFailed := "There was an error submitting your application."
  const Applied := "Application submitted successfully!"

  /**
   * A position as shown: the fetched record, and its `requirements` string
   * split on commas with every piece trimmed.
   */
  datatype Position = Position(fields: Obj, requirements: seq<string>)

  /**
   * The `map` over the fetched positions; `None` where a `requirements`
   * value is not a string, so `split` throws and the list is not set.
   */
  function FormatPositions(raw: seq<Obj>): (r: Option<seq<Position>>)
    ensures r.Some? <==> forall i :: 0 <= i < |raw| ==> Get(raw[i], "requirements").Str?
    ensures r.Some? ==> |r.value| == |raw|
    ensures r.Some? ==> forall i :: 0 <= i < |raw| ==>
      r.value[i].fields == raw[i] &&
      r.value[i].requirements == TrimAll(Split(Get(raw[i], "requirements").s, ','))
  {
    if forall i :: 0 <= i < |raw| ==> Get(raw[i], "requirements").Str? then
      Some(seq(|raw|, i requires 0 <= i < |raw| =>
        Position(raw[i], TrimAll(Split(Get(raw[i], "requirements").s, ',')))))
    else None
  }

  /** Each requirement shown is trimmed and holds no comma. */
  lemma RequirementsClean(raw: seq<Obj>)
    requires FormatPositions(raw).Some?
    ensures forall i, j :: 0 <= i < |raw| && 0 <= j < |FormatPositions(raw).value[i].requirements| ==>
      var q := FormatPositions(raw).value[i].requirements[j];
      Trim(q) == q && ',' !in q
  {
    forall i, j | 0 <= i < |raw| && 0 <= j < |FormatPositions(raw).value[i].requirements|
      ensures Trim(FormatPositions(raw).value[i].requirements[j]) == FormatPositions(raw).value[i].requirements[j]
      ensures ',' !in FormatPositions(raw).value[i].requirements[j]
    {
      var pieces := Split(Get(raw[i], "requirements").s, ',');
      TrimIdempotent(pieces[j]);
      TrimNoNewChars(pieces[j], ',');
    }
  }

  /** The records the lookup by `_id` searches. */
  function Records(positions: seq<Position>): (r: seq<Obj>)
    ensures |r| == |positions| && forall i :: 0 <= i < |r| ==> r[i] == positions[i].fields
  {
    if positions == [] then [] else [positions[0].fields] + Records(positions[1..])
  }

  /** The application form in the popup. */
  datatype Application = Application(name: string, email: string, mobileno: string, countryCode: string)

  const EmptyApplication := Application("", "", "", DefaultCountryCode)

  /**
   * The body posted: the popup fields, the chosen position's id and the
   * composed phone in place of the bare number.
   */
  function ApplicationBody(a: Application, position: Position): (b: Obj)
    ensures b.Keys == {"name", "email", "mobileno", "countryCode", "position_id"}
    ensures b["name"] == Str(a.name) && b["email"] == Str(a.email) && b["countryCode"] == Str(a.countryCode)
    ensures b["position_id"] == Get(position.fields, "_id")
    ensures b["mobileno"] == Str(ComposePhone(a.countryCode, a.mobileno))
  {
    map["name" := Str(a.name), "email" := Str(a.email), "mobileno" := Str(ComposePhone(a.countryCode, a.mobileno)),
        "countryCode" := Str(a.countryCode), "position_id" := Get(position.fields, "_id")]
  }

  class Career {
    var positions: seq<Position>
    var selectedPosition: Option<Position>
    var successMessage: string
    var popupData: Application

    predicate Valid()
      reads this
    {
      IsCountryCode(popupData.countryCode) && MobileShape(popupData.mobileno)
    }

    constructor ()
      ensures positions == [] && selectedPosition.None? && successMessage == "" && popupData == EmptyApplication
      ensures Valid()
    {
      positions, selectedPosition, successMessage, popupData := [], None, "", EmptyApplication;
    }

    /**
     * `fetchPositions`: `events` is the payload's list, `None` when it is
     * not an array. A non-array, a failure, or a position whose requirements
     * cannot be split leaves the list as it was.
     */
    method FetchPositions(reply: Reply<Option<seq<Obj>>>) returns (sent: Request)
      modifies this
      ensures sent == Post(JobsPath, map[])
      ensures reply.Ok? && reply.data.Some? && FormatPositions(reply.data.value).Some? ==>
        positions == FormatPositions(reply.data.value).value
      ensures !(reply.Ok? && reply.data.Some? && FormatPositions(reply.data.value).Some?) ==>
        positions == old(positions)
      ensures selectedPosition == old(selectedPosition) && successMessage == old(successMessage)
      ensures popupData == old(popupData)
    {
      sent := Post(JobsPath, map[]);
      if reply.Ok? && reply.data.Some? {
        var formatted := FormatPositions(reply.data.value);
        if formatted.Some? {
          positions := formatted.value;
        }
      }
    }

    /** `handleApplyNow`: the first position with that id, or none. */
    method HandleApplyNow(id: Value)
      modifies this
      ensures match FindWhere(Records(positions), "_id", id)
        case Some(k) => selectedPosition == Some(positions[k]) && Get(positions[k].fields, "_id") == id
        case None => selectedPosition.None?
      ensures positions == old(positions) && successMessage == old(successMessage) && popupData == old(popupData)
    {
      match FindWhere(Records(positions), "_id", id) {
        case Some(k) => selectedPosition := Some(positions[k]);
        case None => selectedPosition := None;
      }
    }

    method HandleNameChange(value: string)
      modifies this
      ensures popupData == old(popupData).(name := value)
      ensures positions == old(positions) && selectedPosition == old(selectedPosition)
      ensures successMessage == old(successMessage) && (old(Valid()) ==> Valid())
    {
      popupData := popupData.(name := value);
    }

    method HandleEmailChange(value: string)
      modifies this
      ensures popupData == old(popupData).(email := value)
      ensures positions == old(positions) && selectedPosition == old(selectedPosition)
      ensures successMessage == old(successMessage) && (old(Valid()) ==> Valid())
    {
      popupData := popupData.(email := value);
    }

    /** The mobile input: digits only, and an edit leaving more than ten is dropped. */
    method HandleMobileChange(typed: string)
      modifies this
      ensures popupData == old(popupData).(mobileno := SanitizeMobile(old(popupData.mobileno), typed))
      ensures positions == old(positions) && selectedPosition == old(selectedPosition)
      ensures successMessage == old(successMessage) && (old(Valid()) ==> Valid())
    {
      popupData := popupData.(mobileno := SanitizeMobile(popupData.mobileno, typed));
    }

    /** `handleCCChange`. */
    method HandleCCChange(typed: string)
      modifies this
      ensures popupData == old(popupData).(countryCode := AcceptCountryCode(old(popupData.countryCode), typed))
      ensures positions == old(positions) && selectedPosition == old(selectedPosition)
      ensures successMessage == old(successMessage) && (old(Valid()) ==> Valid())
    {
      popupData := popupData.(countryCode := AcceptCountryCode(popupData.countryCode, typed));
    }

    /**
     * `handleSubmitApplication`. An empty name, email or number alerts and
     * sends nothing; so does a missing position, where reading its id
     * throws. A parsed answer shows its message (or the default), closes the
     * popup and resets the form; a failure alerts.
     */
    method HandleSubmitApplication(reply: Reply<Obj>) returns (sent: Option<Request>, alert: Option<string>)
      modifies this
      ensures old(popupData.name == "" || popupData.email == "" || popupData.mobileno == "") ==>
        sent.None? && alert == Some(FillAll)
      ensures sent.Some? <==>
        old(popupData.name != "" && popupData.email != "" && popupData.mobileno != "" && selectedPosition.Some?)
      ensures sent.None? ==>
        popupData == old(popupData) && selectedPosition == old(selectedPosition) && successMessage == old(successMessage)
      ensures sent.Some? ==> sent.value == Post(ApplyPath, ApplicationBody(old(popupData), old(selectedPosition).value))
      ensures sent.Some? && reply.Ok? ==>
        successMessage == ToText(Or(Get(reply.data, "message"), Str(Applied))) &&
        selectedPosition.None? && popupData == EmptyApplication && alert.None?
      ensures sent.Some? && reply.Failed? ==>
        alert == Some(ApplyFailed) && popupData == old(popupData) &&
        selectedPosition == old(selectedPosition) && successMessage == old(successMessage)
      ensures positions == old(positions) && (old(Valid()) ==> Valid())
    {
      alert := None;
      if popupData.name == "" || popupData.email == "" || popupData.mobileno == "" {
        return None, Some(FillAll);
      }
      if selectedPosition.None? {
        return None, None;
      }
      sent := Some(Post(ApplyPath, ApplicationBody(popupData, selectedPosition.value)));
      match reply {
        case Ok(result) =>
          successMessage := ToText(Or(Get(result, "message"), Str(Applied)));
          selectedPosition, popupData := None, EmptyApplication;
        case Failed(_) =>
          alert := Some(ApplyFailed);
      }
    }
  }
}
