/** The order list: fetching the orders and colouring their status and payment
    chips. The screen's state is set only from the fetch outcome, so it is
    modelled as a value and a function from one state to the next. */
module OrderList {
  import opened Common
  import opened Text
  import CustomerList

  datatype OrderRow = OrderRow(id: string, totalAmount: real, status: Option<string>, paymentStatus: string)

  /** The list request carries a 5000 ms client timeout. */
  datatype Request = GetOrders(timeoutMs: nat)

  datatype ListState = ListState(orders: seq<OrderRow>, loading: bool, error: Option<string>, requests: seq<Request>)

  const RequestTimeoutMs := 5000
  const FetchGeneric := "Failed to fetch orders. Please try again later."
  const Initial := ListState([], true, None, [])

  /** `getStatusColor` here calls `toLowerCase` without a null guard: an absent
      status throws while rendering (`None`); a present one is coloured exactly as
      the customer list colours it. */
  function StatusColor(status: Option<string>): (c: Option<Color>)
    ensures c.None? <==> status.None?
    ensures status.Some? ==> c == Some(CustomerList.StatusColor(status))
  {
    if status.None? then None else Some(CustomerList.StatusColor(status))
  }

  /** A row renders only when its status is present. */
  lemma RowRenders(o: OrderRow)
    ensures StatusColor(o.status).Some? <==> o.status.Some?
    ensures o.status.Some? ==>
              (StatusColor(o.status).value != Default <==>
               ToLower(o.status.value) in {"pending", "processing", "completed", "cancelled"})
  {
  }

  function FetchErrorMessage(e: HttpError): (m: string)
    ensures Classify(e) == TimedOut ==> m == TimeoutMessage
    ensures Classify(e) == NoResponse ==> m == NetworkMessage
    ensures Classify(e) == ServerError ==> m == FetchGeneric
  {
    ListFetchError(e, FetchGeneric)
  }

  /** The two list screens report timeouts and unreachable servers with the same
      words and differ only on errors the server answered with. */
  lemma SameClassificationAsCustomers(e: HttpError)
    ensures FetchErrorMessage(e) == CustomerList.FetchErrorMessage(e) <==> Classify(e) != ServerError
  {
  }

  /** The payment chip: success exactly for "paid", warning for anything else. */
  function PaymentColor(paymentStatus: string): (c: Color)
    ensures c == Success <==> paymentStatus == "paid"
    ensures c == Warning <==> paymentStatus != "paid"
    ensures c == CustomerList.PaymentColor(paymentStatus)
  {
    if paymentStatus == "paid" then Success else Warning
  }

  /** One fetch: a success stores the orders and clears the error, a failure keeps
      the orders and shows the classified message; loading is off afterwards. */
  function AfterFetch(s: ListState, reply: Reply<seq<OrderRow>>): (t: ListState)
    ensures !t.loading && t.requests == s.requests + [GetOrders(RequestTimeoutMs)]
    ensures reply.Ok? ==> t.orders == reply.data && t.error.None?
    ensures reply.Fail? ==> t.orders == s.orders && t.error == Some(FetchErrorMessage(reply.err))
  {
    var requested := s.(loading := true, requests := s.requests + [GetOrders(RequestTimeoutMs)]);
    match reply
    case Ok(data) => requested.(orders := data, error := None, loading := false)
    case Fail(e) => requested.(error := Some(FetchErrorMessage(e)), loading := false)
  }

  /** A later successful fetch erases an earlier failure. */
  lemma RetryClearsError(s: ListState, e: HttpError, data: seq<OrderRow>)
    ensures AfterFetch(AfterFetch(s, Fail(e)), Ok(data)).error.None?
    ensures AfterFetch(AfterFetch(s, Fail(e)), Ok(data)).orders == data
  {
  }
}
