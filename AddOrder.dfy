/** The order entry form: line items with a running total, a shipping address,
    and the order that is posted when the form is submitted. */
module AddOrder {
  import opened Common

  /** One line of the order. */
  datatype Item = Item(name: string, quantity: int, price: real)

  /** What one edit of a line item changes: its name, its quantity or its price. */
  datatype ItemEdit = SetName(name: string) | SetQuantity(quantity: int) | SetPrice(price: real)

  datatype Address = Address(street: string, city: string, state: string, zipCode: string, country: string)

  /** The inputs of the shipping address, by their `name` attribute. */
  datatype AddressField = Street | City | State | ZipCode | Country

  /** The top-level text inputs of the form, by their `name` attribute. */
  datatype FormField = CustomerField | PaymentMethodField | NotesField

  datatype OrderForm = OrderForm(customer: string, items: seq<Item>, shippingAddress: Address,
                                 paymentMethod: string, notes: string)

  /** The body of the create-order request: the form's fields plus the computed
      total and the two initial statuses. */
  datatype Order = Order(form: OrderForm, totalAmount: real, status: string, paymentStatus: string)

  /** A customer offered by the customer selector. */
  datatype CustomerOption = CustomerOption(id: string, name: string, email: string)

  datatype Request = GetCustomers | PostOrder(order: Order)

  const EmptyItem := Item("", 1, 0.0)
  const EmptyAddress := Address("", "", "", "", "")
  const InitialForm := OrderForm("", [EmptyItem], EmptyAddress, "cash", "")
  const Pending := "pending"
  const OrdersPath := "/orders"
  const FetchCustomersError := "Failed to fetch customers. Please try again."
  const CreateOrderError := "Failed to create order. Please try again."

  function Subtotal(it: Item): real
  {
    it.quantity as real * it.price
  }

  /** The reduction the form runs: `acc` plus each line's subtotal, left to right. */
  function Fold(items: seq<Item>, acc: real): real
    decreases |items|
  {
    if items == [] then acc else Fold(items[1..], acc + Subtotal(items[0]))
  }

  /** The order total, a reduction starting from zero. */
  function CalculateTotal(items: seq<Item>): real
  {
    Fold(items, 0.0)
  }

  /** Reference definition of the total: the sum of the subtotals. */
  function Sum(items: seq<Item>): real
    decreases |items|
  {
    if items == [] then 0.0 else Subtotal(items[0]) + Sum(items[1..])
  }

  lemma {:induction false} FoldIsSum(items: seq<Item>, acc: real)
    ensures Fold(items, acc) == acc + Sum(items)
    decreases |items|
  {
    if items != [] {
      FoldIsSum(items[1..], acc + Subtotal(items[0]));
    }
  }

  lemma TotalIsSum(items: seq<Item>)
    ensures CalculateTotal(items) == Sum(items)
  {
    FoldIsSum(items, 0.0);
  }

  lemma {:induction false} SumAppend(a: seq<Item>, b: seq<Item>)
    ensures Sum(a + b) == Sum(a) + Sum(b)
    decreases |a|
  {
    if a == [] {
      assert a + b == b;
    } else {
      assert (a + b)[1..] == a[1..] + b;
      SumAppend(a[1..], b);
    }
  }

  /** Splitting the list at `i` and putting it back together. */
  lemma SplitAt(items: seq<Item>, i: nat)
    requires i < |items|
    ensures CalculateTotal(items) == Sum(items[..i]) + Subtotal(items[i]) + Sum(items[i+1..])
  {
    TotalIsSum(items);
    assert items == items[..i] + ([items[i]] + items[i+1..]);
    SumAppend(items[..i], [items[i]] + items[i+1..]);
    assert ([items[i]] + items[i+1..])[1..] == items[i+1..];
  }

  lemma TotalOfEmpty()
    ensures CalculateTotal([]) == 0.0
    ensures CalculateTotal([EmptyItem]) == 0.0
  {
    assert [EmptyItem][1..] == [];
  }

  /** A line whose quantity and price are not negative adds nothing negative, so
      such a form's total is not negative. */
  lemma {:induction false} TotalNonNegative(items: seq<Item>)
    requires forall i :: 0 <= i < |items| ==> items[i].quantity >= 0 && items[i].price >= 0.0
    ensures CalculateTotal(items) >= 0.0
  {
    TotalIsSum(items);
    SumNonNegative(items);
  }

  lemma {:induction false} SumNonNegative(items: seq<Item>)
    requires forall i :: 0 <= i < |items| ==> items[i].quantity >= 0 && items[i].price >= 0.0
    ensures Sum(items) >= 0.0
    decreases |items|
  {
    if items != [] {
      assert items[0].quantity >= 0 && items[0].price >= 0.0;
      SumNonNegative(items[1..]);
    }
  }

  /** One edit applied to one line: the named property changes, the others stay. */
  function ApplyEdit(it: Item, e: ItemEdit): (r: Item)
    ensures r.name == (if e.SetName? then e.name else it.name)
    ensures r.quantity == (if e.SetQuantity? then e.quantity else it.quantity)
    ensures r.price == (if e.SetPrice? then e.price else it.price)
  {
    match e
    case SetName(n) => it.(name := n)
    case SetQuantity(q) => it.(quantity := q)
    case SetPrice(p) => it.(price := p)
  }

  /** Editing line `i`: only that line changes, and the total moves by the
      difference of its subtotals. */
  function ChangeItem(items: seq<Item>, i: nat, e: ItemEdit): (r: seq<Item>)
    requires i < |items|
    ensures |r| == |items| && r[i] == ApplyEdit(items[i], e)
    ensures forall j :: 0 <= j < |items| && j != i ==> r[j] == items[j]
    ensures CalculateTotal(r) == CalculateTotal(items) - Subtotal(items[i]) + Subtotal(r[i])
  {
    var r := items[i := ApplyEdit(items[i], e)];
    SplitAt(items, i);
    SplitAt(r, i);
    assert r[..i] == items[..i] && r[i+1..] == items[i+1..];
    r
  }

  /** Adding a blank line (quantity 1, price 0) at the end leaves the total unchanged. */
  function AppendItem(items: seq<Item>): (r: seq<Item>)
    ensures |r| == |items| + 1 && r[..|items|] == items && r[|items|] == EmptyItem
    ensures CalculateTotal(r) == CalculateTotal(items)
  {
    var r := items + [EmptyItem];
    TotalIsSum(items);
    TotalIsSum(r);
    SumAppend(items, [EmptyItem]);
    assert r[..|items|] == items;
    r
  }

  /** Dropping line `i` keeps the other lines in order and takes its subtotal off the total. */
  function DeleteItem(items: seq<Item>, i: nat): (r: seq<Item>)
    requires i < |items|
    ensures |r| == |items| - 1
    ensures forall j :: 0 <= j < i ==> r[j] == items[j]
    ensures forall j :: i <= j < |r| ==> r[j] == items[j + 1]
    ensures CalculateTotal(r) == CalculateTotal(items) - Subtotal(items[i])
  {
    var r := RemoveAt(items, i);
    SplitAt(items, i);
    TotalIsSum(r);
    SumAppend(items[..i], items[i+1..]);
    r
  }

  function SetAddressField(a: Address, f: AddressField, v: string): (r: Address)
    ensures r.street == (if f == Street then v else a.street)
    ensures r.city == (if f == City then v else a.city)
    ensures r.state == (if f == State then v else a.state)
    ensures r.zipCode == (if f == ZipCode then v else a.zipCode)
    ensures r.country == (if f == Country then v else a.country)
  {
    match f
    case Street => a.(street := v)
    case City => a.(city := v)
    case State => a.(state := v)
    case ZipCode => a.(zipCode := v)
    case Country => a.(country := v)
  }

  function SetFormField(form: OrderForm, f: FormField, v: string): (r: OrderForm)
    ensures r.customer == (if f == CustomerField then v else form.customer)
    ensures r.paymentMethod == (if f == PaymentMethodField then v else form.paymentMethod)
    ensures r.notes == (if f == NotesField then v else form.notes)
    ensures r.items == form.items && r.shippingAddress == form.shippingAddress
  {
    match f
    case CustomerField => form.(customer := v)
    case PaymentMethodField => form.(paymentMethod := v)
    case NotesField => form.(notes := v)
  }

  /** The submitted order: the whole form, its total as the sum of the line
      subtotals, and both statuses pending. */
  function BuildOrder(form: OrderForm): (o: Order)
    ensures o.form == form && o.totalAmount == Sum(form.items)
    ensures o.status == Pending && o.paymentStatus == Pending
  {
    TotalIsSum(form.items);
    Order(form, CalculateTotal(form.items), Pending, Pending)
  }

  /** The order entry screen. */
  class OrderEntry {
    var customers: seq<CustomerOption>
    var loading: bool
    var error: Option<string>
    var form: OrderForm
    var navigatedTo: Option<string>
    var requests: seq<Request>

    /** The form as first shown: no customer, one blank line, empty address, cash. */
    constructor()
      ensures customers == [] && !loading && error.None? && form == InitialForm
      ensures navigatedTo.None? && requests == []
      ensures CalculateTotal(form.items) == 0.0
    {
      customers := [];
      loading := false;
      error := None;
      form := InitialForm;
      navigatedTo := None;
      requests := [];
      TotalOfEmpty();
    }

    /** The customer list fetched when the screen mounts. */
    method FetchCustomers(reply: Reply<seq<CustomerOption>>)
      modifies this`customers, this`error, this`requests
      ensures requests == old(requests) + [GetCustomers]
      ensures reply.Ok? ==> customers == reply.data && error == old(error)
      ensures reply.Fail? ==> customers == old(customers) && error == Some(FetchCustomersError)
    {
      requests := requests + [GetCustomers];
      match reply {
        case Ok(data) => customers := data;
        case Fail(_) => error := Some(FetchCustomersError);
      }
    }

    method HandleInputChange(f: FormField, v: string)
      modifies this`form
      ensures form == SetFormField(old(form), f, v)
    {
      form := SetFormField(form, f, v);
    }

    method HandleShippingAddressChange(f: AddressField, v: string)
      modifies this`form
      ensures form == old(form).(shippingAddress := SetAddressField(old(form).shippingAddress, f, v))
    {
      form := form.(shippingAddress := SetAddressField(form.shippingAddress, f, v));
    }

    method HandleItemChange(i: nat, e: ItemEdit)
      requires i < |form.items|
      modifies this`form
      ensures form == old(form).(items := ChangeItem(old(form).items, i, e))
    {
      form := form.(items := ChangeItem(form.items, i, e));
    }

    method AddItem()
      modifies this`form
      ensures form == old(form).(items := AppendItem(old(form).items))
    {
      form := form.(items := AppendItem(form.items));
    }

    /** The delete button is disabled while only one line is left, so the form
        always keeps at least one line. */
    method RemoveItem(i: nat)
      requires 1 < |form.items| && i < |form.items|
      modifies this`form
      ensures form == old(form).(items := DeleteItem(old(form).items, i))
      ensures |form.items| >= 1
    {
      form := form.(items := DeleteItem(form.items, i));
    }

    /** Posts the order built from the current form; on success goes to the order
        list, on failure shows the fixed message and keeps the form. */
    method HandleSubmit(reply: Reply<()>)
      modifies this`loading, this`error, this`requests, this`navigatedTo
      ensures requests == old(requests) + [PostOrder(BuildOrder(form))] && !loading
      ensures reply.Ok? ==> error.None? && navigatedTo == Some(OrdersPath)
      ensures reply.Fail? ==> error == Some(CreateOrderError) && navigatedTo == old(navigatedTo)
    {
      loading := true;
      error := None;
      requests := requests + [PostOrder(BuildOrder(form))];
      match reply {
        case Ok(_) => navigatedTo := Some(OrdersPath);
        case Fail(_) => error := Some(CreateOrderError);
      }
      loading := false;
    }
  }
}
