/** The order form of the orders page: the item list editor, the two ways
    the form is opened (a new order or an existing one), the payload built
    on submit and the choice between creating and updating. */
module OrderForm {
  import opened Common

  /** One line of an order. Form inputs hold text; `quantity` and `price`
      become numbers in the payload, and an order loaded from the server
      may already hold numbers there. */
  datatype Item = Item(productId: string, productName: string, quantity: Value, price: Value)

  /** `{ productId: '', productName: '', quantity: '', price: '' }` */
  const BlankItem: Item := Item("", "", Blank, Blank)

  /** The `name` of an item input. */
  datatype ItemField = ProductId | ProductName | Quantity | Price

  /** The `name` of a top-level form input. */
  datatype FormField = OrderId | CustomerId | OrderDate | TotalAmount | Status

  /** The order form's `formData`, and also the shape of an order sent to or
      received from the server. `orderDate` is a `YYYY-MM-DD` day. */
  datatype Form = Form(orderId: string, customerId: string, orderDate: string,
                       totalAmount: Value, items: seq<Item>, status: string)

  /** An order as listed on the page. `orderDate` is the server's timestamp. */
  datatype Order = Order(orderId: string, customerId: string, orderDate: string,
                         totalAmount: Value, items: seq<Item>, status: string)

  /** `{ ...item, [name]: value }` for a typed `value`. */
  function SetItemField(item: Item, f: ItemField, v: string): (r: Item)
    ensures r.productId == (if f == ProductId then v else item.productId)
    ensures r.productName == (if f == ProductName then v else item.productName)
    ensures r.quantity == (if f == Quantity then Text(v) else item.quantity)
    ensures r.price == (if f == Price then Text(v) else item.price)
  {
    match f
    case ProductId => item.(productId := v)
    case ProductName => item.(productName := v)
    case Quantity => item.(quantity := Text(v))
    case Price => item.(price := Text(v))
  }

  /** `{ ...formData, [name]: value }` for a top-level input. */
  function SetFormField(form: Form, f: FormField, v: string): (r: Form)
    ensures r.items == form.items
    ensures r.orderId == (if f == OrderId then v else form.orderId)
    ensures r.customerId == (if f == CustomerId then v else form.customerId)
    ensures r.orderDate == (if f == OrderDate then v else form.orderDate)
    ensures r.totalAmount == (if f == TotalAmount then Text(v) else form.totalAmount)
    ensures r.status == (if f == Status then v else form.status)
  {
    match f
    case OrderId => form.(orderId := v)
    case CustomerId => form.(customerId := v)
    case OrderDate => form.(orderDate := v)
    case TotalAmount => form.(totalAmount := Text(v))
    case Status => form.(status := v)
  }

  /** The items after `handleItemChange(index, e)`: a copy of the list whose
      element `index` is replaced by a copy with one field changed. */
  function ChangeItem(items: seq<Item>, index: nat, f: ItemField, v: string): (r: seq<Item>)
    requires index < |items|
    ensures |r| == |items|
    ensures r[index] == SetItemField(items[index], f, v)
    ensures forall i :: 0 <= i < |r| && i != index ==> r[i] == items[i]
  {
    items[index := SetItemField(items[index], f, v)]
  }

  /** The items after `handleAddItem()`. */
  function AddBlank(items: seq<Item>): (r: seq<Item>)
    ensures |r| == |items| + 1 && r[..|items|] == items && r[|items|] == BlankItem
  {
    items + [BlankItem]
  }

  /** `items.filter((_, i) => i !== index)` on the part of the list that
      starts at position `offset`. */
  function KeepOthers(items: seq<Item>, index: int, offset: int): (r: seq<Item>)
    ensures |r| <= |items|
    decreases |items|
  {
    if items == [] then []
    else (if offset != index then [items[0]] else []) + KeepOthers(items[1..], index, offset + 1)
  }

  /** The items after `handleRemoveItem(index)`. */
  function RemoveAt(items: seq<Item>, index: int): (r: seq<Item>)
    ensures 0 <= index < |items| ==> r == items[..index] + items[index + 1..]
    ensures 0 <= index < |items| ==> |r| == |items| - 1
    ensures !(0 <= index < |items|) ==> r == items
  {
    KeepOthersSkips(items, index, 0);
    KeepOthers(items, index, 0)
  }

  /** The filter skips exactly the item at `index`, when it lies in the part
      of the list it looks at. */
  lemma {:induction false} KeepOthersSkips(items: seq<Item>, index: int, offset: int)
    ensures offset <= index < offset + |items| ==>
      KeepOthers(items, index, offset) == items[..index - offset] + items[index - offset + 1..]
    ensures !(offset <= index < offset + |items|) ==> KeepOthers(items, index, offset) == items
    decreases |items|
  {
    if items != [] {
      KeepOthersSkips(items[1..], index, offset + 1);
      if offset == index {
        assert items[..0] + items[1..] == items[1..];
      } else if offset < index < offset + |items| {
        assert [items[0]] + (items[1..][..index - offset - 1] + items[1..][index - offset..])
          == items[..index - offset] + items[index - offset + 1..];
      } else {
        assert [items[0]] + items[1..] == items;
      }
    }
  }

  /** Adding a blank item and then removing the last item restores the list. */
  lemma RemoveUndoesAdd(items: seq<Item>)
    ensures RemoveAt(AddBlank(items), |items|) == items
  {
    assert AddBlank(items)[..|items|] == items;
  }

  /** `{ ...item, quantity: Number(item.quantity), price: Number(item.price) }` */
  function ConvertItem(item: Item): (r: Item)
    ensures r.productId == item.productId && r.productName == item.productName
    ensures r.quantity == ToNumber(item.quantity) && r.price == ToNumber(item.price)
  {
    item.(quantity := ToNumber(item.quantity), price := ToNumber(item.price))
  }

  /** `items.map(convert)`. */
  function ConvertItems(items: seq<Item>): (r: seq<Item>)
    ensures |r| == |items|
    ensures forall i :: 0 <= i < |r| ==> r[i] == ConvertItem(items[i])
  {
    if items == [] then [] else [ConvertItem(items[0])] + ConvertItems(items[1..])
  }

  /** `dataToSubmit`: the form with `totalAmount` and every item's quantity
      and price converted to numbers, and nothing else changed. */
  function Payload(form: Form): (r: Form)
    ensures r.orderId == form.orderId && r.customerId == form.customerId
    ensures r.orderDate == form.orderDate && r.status == form.status
    ensures r.totalAmount == ToNumber(form.totalAmount)
    ensures r.items == ConvertItems(form.items)
  {
    form.(totalAmount := ToNumber(form.totalAmount), items := ConvertItems(form.items))
  }

  /** Converting an already converted form changes nothing. */
  lemma PayloadIdempotent(form: Form)
    ensures Payload(Payload(form)) == Payload(form)
  {
  }

  /** The form "Add Order" opens, on day `today`. */
  function NewForm(today: string): (r: Form)
    ensures r.orderId == "" && r.customerId == "" && r.totalAmount == Blank
    ensures r.orderDate == today && r.status == "completed"
    ensures r.items == [BlankItem]
  {
    Form("", "", today, Blank, [BlankItem], "completed")
  }

  /** The form "Edit" opens for `order`; `day` is the order's date as a
      `YYYY-MM-DD` string. An order without items gets one blank item. */
  function EditForm(order: Order, day: string): (r: Form)
    ensures r.orderId == order.orderId && r.customerId == order.customerId
    ensures r.orderDate == day && r.totalAmount == order.totalAmount && r.status == order.status
    ensures |order.items| > 0 ==> r.items == order.items
    ensures |order.items| == 0 ==> r.items == [BlankItem]
    ensures |r.items| >= 1
  {
    Form(order.orderId, order.customerId, day, order.totalAmount,
         if |order.items| > 0 then order.items else [BlankItem], order.status)
  }

  /** A request the page made to the server: create an order, or update
      the order with id `orderId`. */
  datatype OrderCall = Create(payload: Form) | Update(orderId: string, payload: Form)

  /** The call made on submit: update the order being edited, or create. */
  function CallFor(current: Option<Order>, form: Form): (r: OrderCall)
    ensures r.payload == Payload(form)
    ensures r.Update? <==> current.Some?
    ensures r.Update? ==> r.orderId == current.value.orderId
  {
    if current.Some? then Update(current.value.orderId, Payload(form)) else Create(Payload(form))
  }

  /** The modal shown when a create or update call ends. */
  function OutcomeModal(updating: bool, reply: Reply): (r: Modal)
    ensures reply.Succeeded? ==> r.kind == Success && r.title == "Success"
    ensures !reply.Succeeded? ==> r.kind == Error && r.title == "Error"
    ensures reply.Succeeded? ==>
      r.message == if updating then "Order updated successfully!" else "Order created successfully!"
    ensures reply.Rejected? ==>
      r.message == OrDefault(reply.message, if updating then "Failed to update order." else "Failed to create order.")
    ensures reply.Threw? ==>
      r.message == OrDefault(reply.message, if updating then "Error updating order." else "Error creating order.")
  {
    match reply
    case Succeeded =>
      Modal("Success", if updating then "Order updated successfully!" else "Order created successfully!", Success)
    case Rejected(m) =>
      Modal("Error", OrDefault(m, if updating then "Failed to update order." else "Failed to create order."), Error)
    case Threw(m) =>
      Modal("Error", OrDefault(m, if updating then "Error updating order." else "Error creating order."), Error)
  }

  /** The page's order-form state. */
  class OrderPage {
    var formData: Form
    var currentOrder: Option<Order>
    var showOrderFormModal: bool
    var loading: bool
    var showModal: bool
    var modalContent: Modal
    /** The create and update calls made, oldest first. */
    var calls: seq<OrderCall>
    /** How many times the order list was fetched again after a success. */
    var refreshes: nat

    /** The form always shows at least one item row. */
    predicate Valid()
      reads this
    {
      |formData.items| >= 1
    }

    /** The page's first state on day `today`, before the order list arrives. */
    constructor Open(today: string)
      ensures Valid()
      ensures formData == NewForm(today) && currentOrder == None
      ensures !showOrderFormModal && loading && !showModal && modalContent == NoModal
      ensures calls == [] && refreshes == 0
    {
      formData := NewForm(today);
      currentOrder := None;
      showOrderFormModal := false;
      loading := true;
      showModal := false;
      modalContent := NoModal;
      calls := [];
      refreshes := 0;
    }

    /** `handleFormChange(e)` */
    method FormChange(f: FormField, v: string)
      requires Valid()
      modifies this`formData
      ensures Valid()
      ensures formData == SetFormField(old(formData), f, v)
    {
      formData := SetFormField(formData, f, v);
    }

    /** `handleItemChange(index, e)`: the rows are those of the list, so
        `index` is one of its positions. */
    method ItemChange(index: nat, f: ItemField, v: string)
      requires Valid() && index < |formData.items|
      modifies this`formData
      ensures Valid()
      ensures formData == old(formData).(items := ChangeItem(old(formData.items), index, f, v))
    {
      formData := formData.(items := ChangeItem(formData.items, index, f, v));
    }

    /** `handleAddItem()` */
    method AddItem()
      requires Valid()
      modifies this`formData
      ensures Valid()
      ensures formData == old(formData).(items := AddBlank(old(formData.items)))
    {
      formData := formData.(items := AddBlank(formData.items));
    }

    /** `handleRemoveItem(index)`: the remove button is offered only while
        there is more than one row, each row with its own position. */
    method RemoveItem(index: nat)
      requires Valid() && |formData.items| > 1 && index < |formData.items|
      modifies this`formData
      ensures Valid()
      ensures formData == old(formData).(items := RemoveAt(old(formData.items), index))
      ensures formData.items == old(formData.items[..index] + formData.items[index + 1..])
    {
      formData := formData.(items := RemoveAt(formData.items, index));
    }

    /** `handleAddOrderClick()` on day `today`. */
    method AddOrderClick(today: string)
      modifies this`formData, this`currentOrder, this`showOrderFormModal
      ensures Valid()
      ensures currentOrder == None && formData == NewForm(today) && showOrderFormModal
    {
      currentOrder := None;
      formData := NewForm(today);
      showOrderFormModal := true;
    }

    /** `handleEditOrderClick(order)`; `day` is the order's date as a day. */
    method EditOrderClick(order: Order, day: string)
      modifies this`formData, this`currentOrder, this`showOrderFormModal
      ensures Valid()
      ensures currentOrder == Some(order) && formData == EditForm(order, day) && showOrderFormModal
    {
      currentOrder := Some(order);
      formData := EditForm(order, day);
      showOrderFormModal := true;
    }

    /** `handleSubmitOrderForm(e)` up to the server call. */
    method Submit() returns (call: OrderCall)
      modifies this`loading, this`showOrderFormModal, this`calls
      ensures loading && !showOrderFormModal
      ensures call == CallFor(currentOrder, formData) && calls == old(calls) + [call]
    {
      loading := true;
      showOrderFormModal := false;
      call := CallFor(currentOrder, formData);
      calls := calls + [call];
    }

    /** The answer to an earlier `call`: the result modal, a fresh fetch of
        the order list after a success, and `loading` back to false. */
    method Responded(call: OrderCall, reply: Reply)
      requires call in calls
      modifies this`modalContent, this`showModal, this`loading, this`refreshes
      ensures modalContent == OutcomeModal(call.Update?, reply) && showModal && !loading
      ensures refreshes == old(refreshes) + (if reply.Succeeded? then 1 else 0)
    {
      modalContent := OutcomeModal(call.Update?, reply);
      showModal := true;
      if reply.Succeeded? {
        refreshes := refreshes + 1;
      }
      loading := false;
    }
  }
}
