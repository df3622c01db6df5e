/**
 * The public inquiry page, opened from a service card with that service
 * preselected as the purpose.
 */
module InquiryPage {
  import opened Wrappers
  import opened Json
  import opened Text
  import opened ResourceLists
  import opened PublicForms

  const PurposesPath := "/moox_events/api/service/get-active-services"
  const SubmitPath := "/moox_events/api/enquiry/add-enquiry"
  const Submitted := "Your inquiry has been successfully submitted!"

  datatype InquiryForm = InquiryForm(
    name: string, email: string, mobile: string, countryCode: string,
    purposeId: string, purposeName: Value, message: string)

  const EmptyInquiryForm := InquiryForm("", "", "", DefaultCountryCode, "", Str(""), "")

  /** The free-text inputs that `handleChange` copies as typed. */
  datatype TextField = NameField | EmailField | MessageField

  /** The fields `validateForm` checks; each is keyed by its input's name. */
  datatype Checked = Name | Email | Mobile | PurposeId | Message

  const AllChecked: set<Checked> := {Name, Email, Mobile, PurposeId, Message}

  /** The key the error is stored under. */
  function Key(c: Checked): string {
    match c
    case Name => "name"
    case Email => "email"
    case Mobile => "mobile"
    case PurposeId => "purpose_id"
    case Message => "message"
  }

  /** The message `validateForm` records for each field. */
  function ErrorMessage(c: Checked): string {
    match c
    case Name => "Full Name is required."
    case Email => "A valid email is required."
    case Mobile => "A valid 10-digit mobile number is required."
    case PurposeId => "Please select the purpose of your inquiry."
    case Message => "Message cannot be empty."
  }

  /** The check `validateForm` applies to each field, as written. */
  predicate Fails(f: InquiryForm, c: Checked) {
    match c
    case Name => IsBlank(f.name)
    case Email => EmailRejected(f.email)
    case Mobile => MobileRejected(f.mobile)
    case PurposeId => IsBlank(f.purposeId)
    case Message => IsBlank(f.message)
  }

  /** `validateForm`: one message per failing field and nothing for the fields that pass. */
  function InquiryErrors(f: InquiryForm): (errs: map<Checked, string>)
    ensures forall c :: c in errs <==> Fails(f, c)
    ensures forall c :: c in errs ==> errs[c] == ErrorMessage(c)
  {
    map c | c in AllChecked && Fails(f, c) :: ErrorMessage(c)
  }

  /** What each reported field means; the blank tests for email and mobile add nothing to their patterns. */
  lemma InquiryErrorsFields(f: InquiryForm)
    ensures Name in InquiryErrors(f) <==> IsBlank(f.name)
    ensures Email in InquiryErrors(f) <==> !MatchesEmailPattern(f.email)
    ensures Mobile in InquiryErrors(f) <==> !IsTenDigits(f.mobile)
    ensures PurposeId in InquiryErrors(f) <==> IsBlank(f.purposeId)
    ensures Message in InquiryErrors(f) <==> IsBlank(f.message)
  {
    EmailRejectedByPattern(f.email);
    MobileRejectedByLength(f.mobile);
  }

  /** The form is sent exactly when every field passes. */
  lemma InquiryErrorsEmpty(f: InquiryForm)
    ensures InquiryErrors(f) == map[] <==>
      !IsBlank(f.name) && MatchesEmailPattern(f.email) && IsTenDigits(f.mobile) &&
      !IsBlank(f.purposeId) && !IsBlank(f.message)
  {
    InquiryErrorsFields(f);
    var errs := InquiryErrors(f);
    if errs != map[] {
      var c :| c in errs;
      assert c in AllChecked;
    }
  }

  /** The body posted: the composed phone in place of code and number. */
  function InquiryBody(f: InquiryForm): (b: Obj)
    ensures b.Keys == {"name", "mobileno", "email", "purpose_id", "purpose_name", "message"}
    ensures b["name"] == Str(f.name) && b["email"] == Str(f.email) && b["message"] == Str(f.message)
    ensures b["purpose_id"] == Str(f.purposeId) && b["purpose_name"] == f.purposeName
    ensures b["mobileno"] == Str(ComposePhone(f.countryCode, f.mobile))
  {
    map["name" := Str(f.name), "mobileno" := Str(ComposePhone(f.countryCode, f.mobile)),
        "email" := Str(f.email), "purpose_id" := Str(f.purposeId),
        "purpose_name" := f.purposeName, "message" := Str(f.message)]
  }

  /** A form that passed validation sends a phone the server can split back into code and number. */
  lemma SubmittedPhoneSplits(f: InquiryForm)
    requires InquiryErrors(f) == map[] && IsCountryCode(f.countryCode)
    ensures Split(InquiryBody(f)["mobileno"].s, ' ') == [f.countryCode, f.mobile]
  {
    InquiryErrorsFields(f);
    PhoneRoundTrip(f.countryCode, f.mobile);
  }

  /** Each fetched service as a purpose option. */
  function PurposeOf(service: Obj): (p: Obj)
    ensures p.Keys == {"purpose_id", "purpose_name"}
    ensures p["purpose_id"] == Get(service, "_id") && p["purpose_name"] == Get(service, "name")
  {
    map["purpose_id" := Get(service, "_id"), "purpose_name" := Get(service, "name")]
  }

  function PurposesOf(services: seq<Obj>): (r: seq<Obj>)
    ensures |r| == |services|
    ensures forall i :: 0 <= i < |r| ==> r[i] == PurposeOf(services[i])
  {
    if services == [] then [] else [PurposeOf(services[0])] + PurposesOf(services[1..])
  }

  class Inquiry {
    var formData: InquiryForm
    var errors: map<Checked, string>
    var purposes: seq<Obj>
    var successMessage: string

    /** The code field holds a country code and the mobile field at most ten digits. */
    predicate Valid()
      reads this
    {
      IsCountryCode(formData.countryCode) && MobileShape(formData.mobile)
    }

    /**
     * The purpose starts as the chosen service's id and title, each `""`
     * when absent.
     */
    constructor (serviceId: string, serviceTitle: string)
      ensures formData == EmptyInquiryForm.(purposeId := serviceId, purposeName := Str(serviceTitle))
      ensures errors == map[] && purposes == [] && successMessage == ""
      ensures Valid()
    {
      formData := EmptyInquiryForm.(purposeId := serviceId, purposeName := Str(serviceTitle));
      errors, purposes, successMessage := map[], [], "";
    }

    /** `fetchPurposes`: a failure only logs. */
    method FetchPurposes(reply: Reply<seq<Obj>>) returns (sent: Request)
      modifies this
      ensures sent == GetRequest(PurposesPath)
      ensures reply.Ok? ==> purposes == PurposesOf(reply.data)
      ensures reply.Failed? ==> purposes == old(purposes)
      ensures formData == old(formData) && errors == old(errors) && successMessage == old(successMessage)
    {
      sent := GetRequest(PurposesPath);
      if reply.Ok? {
        purposes := PurposesOf(reply.data);
      }
    }

    method HandleTextChange(field: TextField, value: string)
      modifies this
      ensures field == NameField ==> formData == old(formData).(name := value)
      ensures field == EmailField ==> formData == old(formData).(email := value)
      ensures field == MessageField ==> formData == old(formData).(message := value)
      ensures errors == old(errors) && purposes == old(purposes) && successMessage == old(successMessage)
      ensures old(Valid()) ==> Valid()
    {
      match field
      case NameField => formData := formData.(name := value);
      case EmailField => formData := formData.(email := value);
      case MessageField => formData := formData.(message := value);
    }

    /** `handleChange` for the mobile input. */
    method HandleMobileChange(typed: string)
      modifies this
      ensures formData == old(formData).(mobile := SanitizeMobile(old(formData.mobile), typed))
      ensures errors == old(errors) && purposes == old(purposes) && successMessage == old(successMessage)
      ensures old(Valid()) ==> Valid()
    {
      formData := formData.(mobile := SanitizeMobile(formData.mobile, typed));
    }

    /** `handleCCChange`. */
    method HandleCCChange(typed: string)
      modifies this
      ensures formData == old(formData).(countryCode := AcceptCountryCode(old(formData.countryCode), typed))
      ensures errors == old(errors) && purposes == old(purposes) && successMessage == old(successMessage)
      ensures old(Valid()) ==> Valid()
    {
      formData := formData.(countryCode := AcceptCountryCode(formData.countryCode, typed));
    }

    /**
     * The purpose select: the chosen id, and the name of the first purpose
     * with that id, or `""` when none has it.
     */
    method HandlePurposeChange(value: string)
      modifies this
      ensures formData == old(formData).(purposeId := value,
        purposeName := FieldOfFound(purposes, "purpose_id", Str(value), "purpose_name", Str("")))
      ensures (forall j :: 0 <= j < |purposes| ==> !Matches(purposes[j], "purpose_id", Str(value))) ==>
        formData.purposeName == Str("")
      ensures errors == old(errors) && purposes == old(purposes) && successMessage == old(successMessage)
      ensures old(Valid()) ==> Valid()
    {
      formData := formData.(purposeId := value,
        purposeName := FieldOfFound(purposes, "purpose_id", Str(value), "purpose_name", Str("")));
    }

    /**
     * `handleSubmit`: an invalid form only replaces the error map. A valid
     * one clears it and posts; a 201 answer shows the success message,
     * empties the form with the code back at "+91" and goes to the services
     * page. Any other answer changes nothing more.
     */
    method HandleSubmit(status: Reply<nat>) returns (sent: Option<Request>, effect: Effect)
      modifies this
      ensures sent.None? <==> InquiryErrors(old(formData)) != map[]
      ensures sent.None? ==> (errors == InquiryErrors(old(formData)) && formData == old(formData) &&
        successMessage == old(successMessage) && effect == Stay)
      ensures sent.Some? ==> sent.value == Post(SubmitPath, InquiryBody(old(formData))) && errors == map[]
      ensures sent.Some? && status == Ok(201) ==>
        successMessage == Submitted && formData == EmptyInquiryForm && effect == GoTo("/services")
      ensures sent.Some? && status != Ok(201) ==>
        successMessage == old(successMessage) && formData == old(formData) && effect == Stay
      ensures purposes == old(purposes)
      ensures old(Valid()) ==> Valid()
    {
      var found := InquiryErrors(formData);
      effect := Stay;
      if found != map[] {
        errors := found;
        return None, effect;
      }
      errors := map[];
      sent := Some(Post(SubmitPath, InquiryBody(formData)));
      if status == Ok(201) {
        successMessage := Submitted;
        formData := EmptyInquiryForm;
        effect := GoTo("/services");
      }
    }
  }
}
