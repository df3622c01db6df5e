/**
 * The contact-us queries screen: the queries sent through the public
 * contact form, split into latest and resolved columns (see `QueryBoard`),
 * with a "Mark as Resolved" button on the latest ones.
 */
module AdminContactUs {
  import opened Wrappers
  import opened Json
  import opened Storage
  import opened QueryBoard

  const FetchPath := "/moox_events/api/contactus/get-queries"
  const ResolvePath := "/moox_events/api/contactus/change-query-status"

  class ContactUs {
    var queries: seq<Obj>
    var loading: bool
    var notification: string

    constructor ()
      ensures queries == [] && loading && notification == ""
    {
      queries, loading, notification := [], true, "";
    }

    /** The two columns the screen shows, for the current queries. */
    function ShownColumns(stamp: Obj -> int): (b: Board)
      reads this
      ensures NewestFirst(b.latest, stamp) && NewestFirst(b.resolved, stamp)
      ensures forall q :: q in b.latest ==> Truthy(Get(q, "active"))
      ensures forall q :: q in b.resolved ==> !Truthy(Get(q, "active"))
      ensures multiset(b.latest) + multiset(b.resolved) == multiset(queries)
    {
      Columns(queries, stamp)
    }

    /** `fetchQueries`: the loading flag ends false whatever the outcome. */
    method FetchQueries(storage: LocalStorage, reply: Reply<seq<Obj>>) returns (sent: Request)
      modifies this
      ensures sent == Post(FetchPath, map["user_id" := OfStored(storage.GetItem("userid"))])
      ensures !loading
      ensures reply.Ok? ==> queries == reply.data && notification == old(notification)
      ensures reply.Failed? ==> queries == old(queries) && notification == "Failed to load queries."
    {
      sent := Post(FetchPath, map["user_id" := OfStored(storage.GetItem("userid"))]);
      match reply {
        case Ok(list) => queries := list;
        case Failed(_) => notification := "Failed to load queries.";
      }
      loading := false;
    }

    /** `resolveQuery(event_id)`: on success the list is fetched again. */
    method ResolveQuery(storage: LocalStorage, eventId: Value, reply: Reply<Value>) returns (sent: Request, refetch: bool)
      modifies this
      ensures sent == Post(ResolvePath, map["event_id" := eventId, "user_id" := OfStored(storage.GetItem("userid"))])
      ensures refetch <==> reply.Ok?
      ensures notification == (if reply.Ok? then "Query resolved successfully!" else "Failed to resolve query.")
      ensures queries == old(queries) && loading == old(loading)
    {
      sent := Post(ResolvePath, map["event_id" := eventId, "user_id" := OfStored(storage.GetItem("userid"))]);
      refetch := reply.Ok?;
      notification := if reply.Ok? then "Query resolved successfully!" else "Failed to resolve query.";
    }
  }
}
