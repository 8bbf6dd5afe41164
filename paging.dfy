/** The page-driving loop `pagedGet`. The HTTP call and JSON decoding are an oracle: the
    sequence of replies the server gives, where reply `k` answers the request for page `k + 1`. */
module Paging {

  /** A query-string value: the callers' queries hold strings, the loop adds numbers. */
  datatype Param = Str(text: string) | Num(number: int)

  type Query = map<string, Param>

  /** One GET request, before URL encoding: the endpoint and its query. */
  datatype Request = Request(url: string, query: Query)

  /** What one awaited `get` produced: a JSON array of records, any other JSON value, or a
      rejected promise (transport or decoding failure). */
  datatype Reply<R> = Records(items: seq<R>) | NotArray | Rejected

  /** One call `func(data, page)` of the page handler. */
  datatype HandlerCall<R> = HandlerCall(data: seq<R>, page: nat)

  /** How `pagedGet` ended: it resolved after an empty or non-array page, or it rejected. */
  datatype Outcome = Done | Failed

  const DefaultPerPage := 100

  /** JavaScript truthiness of a query value. */
  predicate Truthy(v: Param)
  {
    match v
    case Str(t) => t != ""
    case Num(n) => n != 0
  }

  /** The query of the request for `page`: `{...query, per_page: query.per_page || 100, page}`. */
  function RequestQuery(query: Query, page: nat): (q: Query)
    ensures q.Keys == query.Keys + {"per_page", "page"}
    ensures forall k :: k in query && k != "per_page" && k != "page" ==> q[k] == query[k]
    ensures q["page"] == Num(page)
    ensures "per_page" in query && Truthy(query["per_page"]) ==> q["per_page"] == query["per_page"]
    ensures !("per_page" in query && Truthy(query["per_page"])) ==> q["per_page"] == Num(DefaultPerPage)
  {
    var perPage := if "per_page" in query && Truthy(query["per_page"]) then query["per_page"] else Num(DefaultPerPage);
    query["per_page" := perPage]["page" := Num(page)]
  }

  /** The loop goes on after this reply: it is a non-empty array. */
  predicate Continues<R>(reply: Reply<R>)
  {
    reply.Records? && reply.items != []
  }

  /** The pages handed to the handler: the items of the replies before the first one that
      does not continue the loop. */
  function Handled<R>(replies: seq<Reply<R>>): (pages: seq<seq<R>>)
    ensures |pages| <= |replies|
    ensures forall k :: 0 <= k < |pages| ==> Continues(replies[k]) && pages[k] == replies[k].items
    ensures |pages| < |replies| ==> !Continues(replies[|pages|])
  {
    if replies == [] || !Continues(replies[0]) then [] else [replies[0].items] + Handled(replies[1..])
  }

  /** The loop stopped normally: some reply ended it, and that reply is not a rejection. */
  predicate Completes<R>(replies: seq<Reply<R>>)
  {
    |Handled(replies)| < |replies| && !replies[|Handled(replies)|].Rejected?
  }

  /** The requests `pagedGet` issues: one per handled page, and one more for the reply
      that stops it. */
  function Issued<R>(url: string, query: Query, replies: seq<Reply<R>>): (rs: seq<Request>)
    ensures |rs| == |Handled(replies)| + 1
    ensures forall k :: 0 <= k < |rs| ==> rs[k] == Request(url, RequestQuery(query, k + 1))
  {
    seq(|Handled(replies)| + 1, (k: nat) => Request(url, RequestQuery(query, k + 1)))
  }

  /** The oracle's answer to the request for `page`; a request past its end rejects. */
  function ReplyTo<R>(replies: seq<Reply<R>>, page: nat): Reply<R>
    requires 1 <= page
  {
    if page <= |replies| then replies[page - 1] else Rejected
  }

  /** The three facts `Handled` ensures single out its result. */
  lemma {:induction false} HandledUnique<R>(replies: seq<Reply<R>>, pages: seq<seq<R>>)
    requires |pages| <= |replies|
    requires forall k :: 0 <= k < |pages| ==> Continues(replies[k]) && pages[k] == replies[k].items
    requires |pages| < |replies| ==> !Continues(replies[|pages|])
    ensures Handled(replies) == pages
  {
    if pages != [] {
      HandledUnique(replies[1..], pages[1..]);
    }
  }

  /** Once a reply has stopped the loop normally, nothing the server would have said later
      is requested or handled. */
  lemma LaterRepliesIgnored<R>(replies: seq<Reply<R>>, later: seq<Reply<R>>)
    requires Completes(replies)
    ensures Handled(replies + later) == Handled(replies)
    ensures Completes(replies + later)
    ensures forall url, query :: Issued(url, query, replies + later) == Issued(url, query, replies)
  {
    var all := replies + later;
    var pages := Handled(replies);
    assert forall k :: 0 <= k < |replies| ==> all[k] == replies[k];
    HandledUnique(all, pages);
  }

  /** The last request asks for the page whose reply stopped the loop. */
  lemma LastRequestIsStop<R>(url: string, query: Query, replies: seq<Reply<R>>)
    ensures var rs := Issued(url, query, replies);
            rs[|rs| - 1].query["page"] == Num(|Handled(replies)| + 1)
            && !Continues(ReplyTo(replies, |Handled(replies)| + 1))
  {
  }

  /** `pagedGet(url, query, func)`: starting at page 1, request page after page, hand every
      non-empty array to the handler with its 1-based page number, and stop at the first
      reply that is empty or not an array; a rejected request rejects the whole call. */
  method PagedGet<R>(url: string, query: Query, replies: seq<Reply<R>>)
    returns (requests: seq<Request>, calls: seq<HandlerCall<R>>, outcome: Outcome)
    ensures requests == Issued(url, query, replies)
    ensures |calls| == |Handled(replies)|
    ensures forall k :: 0 <= k < |calls| ==> calls[k] == HandlerCall(Handled(replies)[k], k + 1)
    ensures outcome == Done <==> Completes(replies)
  {
    var page := 1;
    requests, calls := [], [];
    while true
      invariant 1 <= page <= |replies| + 1
      invariant |requests| == |calls| == page - 1
      invariant forall k :: 0 <= k < |requests| ==> requests[k] == Request(url, RequestQuery(query, k + 1))
      invariant forall k :: 0 <= k < |calls| ==> Continues(replies[k]) && calls[k] == HandlerCall(replies[k].items, k + 1)
      decreases |replies| + 1 - page
    {
      requests := requests + [Request(url, RequestQuery(query, page))];
      var data := ReplyTo(replies, page);
      if data.Rejected? {
        outcome := Failed;
        break;
      }
      if data.Records? && |data.items| > 0 {
        calls := calls + [HandlerCall(data.items, page)];
        page := page + 1;
      } else {
        outcome := Done;
        break;
      }
    }
    HandledUnique(replies, seq(|calls|, k requires 0 <= k < |calls| => calls[k].data));
  }
}
