/** The customer list: fetching the customers, the one expandable row, and how
    statuses, payments, phones and the active flag are displayed. */
module CustomerList {
  import opened Common
  import opened Text

  datatype Customer = Customer(id: string, name: string, email: string, phone: Option<string>, isActive: bool)

  /** The list request carries a 5000 ms client timeout. */
  datatype Request = GetCustomers(timeoutMs: nat)

  const RequestTimeoutMs := 5000
  const FetchGeneric := "Failed to fetch customers. Please try again later."
  const MissingPhone := "N/A"
  const NewCustomerPath := "/customer/new"

  /** `getStatusColor` for an order status, compared lower-cased; an absent or
      unknown status gives the default colour. */
  function StatusColor(status: Option<string>): (c: Color)
    ensures c == Warning <==> status.Some? && ToLower(status.value) == "pending"
    ensures c == Info <==> status.Some? && ToLower(status.value) == "processing"
    ensures c == Success <==> status.Some? && ToLower(status.value) == "completed"
    ensures c == Error <==> status.Some? && ToLower(status.value) == "cancelled"
    ensures status.None? ==> c == Default
  {
    match status
    case None => Default
    case Some(s) =>
      var l := ToLower(s);
      if l == "pending" then Warning
      else if l == "processing" then Info
      else if l == "completed" then Success
      else if l == "cancelled" then Error
      else Default
  }

  lemma StatusColorIgnoresCase(s: string)
    ensures StatusColor(Some(ToUpper(s))) == StatusColor(Some(s))
    ensures StatusColor(Some(ToLower(s))) == StatusColor(Some(s))
  {
    LowerIgnoresCase(s);
  }

  function FetchErrorMessage(e: HttpError): (m: string)
    ensures Classify(e) == TimedOut ==> m == TimeoutMessage
    ensures Classify(e) == NoResponse ==> m == NetworkMessage
    ensures Classify(e) == ServerError ==> m == FetchGeneric
  {
    ListFetchError(e, FetchGeneric)
  }

  /** A timeout is reported as a timeout even when a response object is present. */
  lemma TimeoutWins(response: Option<ErrorBody>, message: string)
    ensures FetchErrorMessage(HttpError(Some(TimeoutCode), response, message)) == TimeoutMessage
  {
  }

  /** The payment chip: success exactly for "paid", warning for anything else. */
  function PaymentColor(paymentStatus: string): (c: Color)
    ensures c == Success <==> paymentStatus == "paid"
    ensures c == Warning <==> paymentStatus != "paid"
  {
    if paymentStatus == "paid" then Success else Warning
  }

  /** The phone cell: the phone when present and non-empty, "N/A" otherwise. */
  function PhoneLabel(phone: Option<string>): (l: string)
    ensures Truthy(phone) ==> l == phone.value
    ensures !Truthy(phone) ==> l == MissingPhone
    ensures l != ""
  {
    if Truthy(phone) then phone.value else MissingPhone
  }

  /** The active chip: label and colour both follow the flag. */
  function ActiveChip(isActive: bool): (chip: (string, Color))
    ensures chip.1 == Success <==> isActive
    ensures chip.1 == Default <==> !isActive
    ensures chip.0 == (if isActive then "Active" else "Inactive")
  {
    if isActive then ("Active", Success) else ("Inactive", Default)
  }

  /** Toggling row `id`: it collapses when it is the expanded row and otherwise
      becomes the one expanded row. */
  function Toggle(expanded: Option<string>, id: string): (r: Option<string>)
    ensures r.None? <==> expanded == Some(id)
    ensures r.Some? ==> r.value == id
  {
    if expanded == Some(id) then None else Some(id)
  }

  /** Toggling the same row twice returns to where it started, unless another row
      was the open one (that row is then closed for good). */
  lemma ToggleTwice(expanded: Option<string>, id: string)
    ensures expanded.None? || expanded == Some(id) ==> Toggle(Toggle(expanded, id), id) == expanded
    ensures expanded.Some? && expanded.value != id ==> Toggle(Toggle(expanded, id), id).None?
  {
  }

  /** The customer list screen. */
  class CustomerListView {
    var customers: seq<Customer>
    var loading: bool
    var error: Option<string>
    var expandedCustomer: Option<string>
    var navigatedTo: Option<string>
    var requests: seq<Request>

    /** The screen starts in its loading state with no row expanded. */
    constructor()
      ensures customers == [] && loading && error.None? && expandedCustomer.None?
      ensures navigatedTo.None? && requests == []
    {
      customers := [];
      loading := true;
      error := None;
      expandedCustomer := None;
      navigatedTo := None;
      requests := [];
    }

    /** A successful fetch replaces the list and clears the error; a failed one
        keeps the list and shows the classified message; loading ends either way. */
    method FetchCustomers(reply: Reply<seq<Customer>>)
      modifies this`customers, this`loading, this`error, this`requests
      ensures requests == old(requests) + [GetCustomers(RequestTimeoutMs)] && !loading
      ensures reply.Ok? ==> customers == reply.data && error.None?
      ensures reply.Fail? ==> customers == old(customers) && error == Some(FetchErrorMessage(reply.err))
    {
      loading := true;
      requests := requests + [GetCustomers(RequestTimeoutMs)];
      match reply {
        case Ok(data) =>
          customers := data;
          error := None;
        case Fail(e) =>
          error := Some(FetchErrorMessage(e));
      }
      loading := false;
    }

    method ToggleCustomerExpansion(id: string)
      modifies this`expandedCustomer
      ensures expandedCustomer == Toggle(old(expandedCustomer), id)
    {
      expandedCustomer := Toggle(expandedCustomer, id);
    }

    method HandleViewCustomer(id: string)
      modifies this`navigatedTo
      ensures navigatedTo == Some("/customer/" + id)
    {
      navigatedTo := Some("/customer/" + id);
    }

    method HandleAddCustomer()
      modifies this`navigatedTo
      ensures navigatedTo == Some(NewCustomerPath)
    {
      navigatedTo := Some(NewCustomerPath);
    }

    /** Opens the order form with the customer in the query string. */
    method HandleAddOrder(id: string)
      modifies this`navigatedTo
      ensures navigatedTo == Some("/order/new?customer=" + id)
    {
      navigatedTo := Some("/order/new?customer=" + id);
    }
  }
}
