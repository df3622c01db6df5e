/**
 * The enquiry screen: enquiries split into latest and resolved columns
 * (see `QueryBoard`), a "Mark as Resolved" button on the latest ones, and a
 * form through which an administrator records an enquiry, whose purpose is
 * picked from the active services. Messages are shown with `alert`,
 * returned here as `alert`.
 */
module AdminEnquiry {
  import opened Wrappers
  import opened Json
  import opened Storage
  import opened ResourceLists
  import opened QueryBoard

  const EmptyQuery: Obj := map["name" := Str(""), "mobileno" := Str(""), "email" := Str(""),
    "purpose_id" := Str(""), "purpose_name" := Str(""), "message" := Str("")]

  const ServicesPath := "/moox_events/api/service/get-active-services"
  const FetchPath := "/moox_events/api/enquiry/get-enquiry"
  const ResolvePath := "/moox_events/api/enquiry/change-enquiry-status"
  const AddPath := "/moox_events/api/enquiry/add-enquiry"

  /** The fields `handleSubmitQuery` picks out of the form, plus the user id. */
  function SubmitBody(form: Obj, userId: Value): (b: Obj)
    ensures b.Keys == {"name", "mobileno", "email", "purpose_id", "purpose_name", "message", "user_id"}
    ensures b["user_id"] == userId
    ensures forall k :: k in b && k != "user_id" ==> b[k] == Get(form, k)
  {
    map["name" := Get(form, "name"), "mobileno" := Get(form, "mobileno"), "email" := Get(form, "email"),
        "purpose_id" := Get(form, "purpose_id"), "purpose_name" := Get(form, "purpose_name"),
        "message" := Get(form, "message"), "user_id" := userId]
  }

  class Enquiry {
    var queries: seq<Obj>
    var services: seq<Obj>
    var loading: bool
    var newQuery: Obj

    constructor ()
      ensures queries == [] && services == [] && loading && newQuery == EmptyQuery
    {
      queries, services, loading, newQuery := [], [], true, EmptyQuery;
    }

    /** The two columns the screen shows, for the current enquiries. */
    function ShownColumns(stamp: Obj -> int): (b: Board)
      reads this
      ensures NewestFirst(b.latest, stamp) && NewestFirst(b.resolved, stamp)
      ensures forall q :: q in b.latest ==> Truthy(Get(q, "active"))
      ensures forall q :: q in b.resolved ==> !Truthy(Get(q, "active"))
      ensures multiset(b.latest) + multiset(b.resolved) == multiset(queries)
    {
      Columns(queries, stamp)
    }

    /** `fetchServices`: a failure is only logged. */
    method FetchServices(reply: Reply<seq<Obj>>) returns (sent: Request)
      modifies this
      ensures sent == GetRequest(ServicesPath)
      ensures services == (if reply.Ok? then reply.data else old(services))
      ensures queries == old(queries) && loading == old(loading) && newQuery == old(newQuery)
    {
      sent := GetRequest(ServicesPath);
      if reply.Ok? {
        services := reply.data;
      }
    }

    /** `fetchQueries`: loading is switched on for the call and off after it, whatever the outcome. */
    method FetchQueries(storage: LocalStorage, reply: Reply<seq<Obj>>) returns (sent: Request)
      modifies this
      ensures sent == Post(FetchPath, map["user_id" := OfStored(storage.GetItem("userid"))])
      ensures !loading
      ensures queries == (if reply.Ok? then reply.data else old(queries))
      ensures services == old(services) && newQuery == old(newQuery)
    {
      loading := true;
      sent := Post(FetchPath, map["user_id" := OfStored(storage.GetItem("userid"))]);
      if reply.Ok? {
        queries := reply.data;
      }
      loading := false;
    }

    /** `resolveQuery(query_id)`: alerts the outcome; on success the list is fetched again. */
    method ResolveQuery(storage: LocalStorage, queryId: Value, reply: Reply<Value>)
      returns (sent: Request, alert: string, refetch: bool)
      ensures sent == Post(ResolvePath, map["event_id" := queryId, "user_id" := OfStored(storage.GetItem("userid"))])
      ensures refetch <==> reply.Ok?
      ensures alert == (if reply.Ok? then "Query resolved successfully!" else "Failed to resolve query.")
    {
      sent := Post(ResolvePath, map["event_id" := queryId, "user_id" := OfStored(storage.GetItem("userid"))]);
      refetch := reply.Ok?;
      alert := if reply.Ok? then "Query resolved successfully!" else "Failed to resolve query.";
    }

    /** `handleInputChange`: the input named `name` writes its value into the form. */
    method HandleInputChange(name: string, value: string)
      modifies this
      ensures newQuery == old(newQuery)[name := Str(value)]
      ensures queries == old(queries) && services == old(services) && loading == old(loading)
    {
      newQuery := newQuery[name := Str(value)];
    }

    /**
     * `handlePurposeChange`: the chosen service id is stored with the name of
     * the first service carrying it, or `""` when none does.
     */
    method HandlePurposeChange(value: string)
      modifies this
      ensures newQuery == old(newQuery)["purpose_id" := Str(value)]
        ["purpose_name" := FieldOfFound(services, "_id", Str(value), "name", Str(""))]
      ensures (forall j :: 0 <= j < |services| ==> !Matches(services[j], "_id", Str(value))) ==>
        newQuery["purpose_name"] == Str("")
      ensures queries == old(queries) && services == old(services) && loading == old(loading)
    {
      newQuery := newQuery["purpose_id" := Str(value)]
        ["purpose_name" := FieldOfFound(services, "_id", Str(value), "name", Str(""))];
    }

    /** `handleSubmitQuery`: on success the form empties and the list is fetched again. */
    method HandleSubmitQuery(storage: LocalStorage, reply: Reply<Value>)
      returns (sent: Request, alert: string, refetch: bool)
      modifies this
      ensures sent == Post(AddPath, SubmitBody(old(newQuery), OfStored(storage.GetItem("userid"))))
      ensures refetch <==> reply.Ok?
      ensures alert == (if reply.Ok? then "Query submitted successfully" else "Failed to submit query.")
      ensures newQuery == (if reply.Ok? then EmptyQuery else old(newQuery))
      ensures queries == old(queries) && services == old(services) && loading == old(loading)
    {
      sent := Post(AddPath, SubmitBody(newQuery, OfStored(storage.GetItem("userid"))));
      refetch := reply.Ok?;
      if reply.Ok? {
        alert := "Query submitted successfully";
        newQuery := EmptyQuery;
      } else {
        alert := "Failed to submit query.";
      }
    }
  }
}
