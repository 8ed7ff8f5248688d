/** The order schema (server/model/Order.js): the status and item-type
    enumerations, line items, the defaults, and how the schema casts and
    validates a request's line items. */
module OrderModel {
  import opened Base

  datatype Status = Pending | Paid | Shipped | Delivered | Cancelled

  datatype ItemType = ProductItem | CourseItem

  /** A line item; `title` and `price` are snapshots taken when the order is placed. */
  datatype OrderItem = OrderItem(itemId: Id, itemType: ItemType, title: Option<string>,
                                 price: Option<int>, qty: int)

  /** A stored order. `user` is the buyer; `paymentId` is set by the payment webhook. */
  datatype Order = Order(user: Id, items: seq<OrderItem>, totalAmount: int, status: Status,
                         paymentId: Option<string>, paymentMethod: string, createdAt: int)

  const DefaultStatus: Status := Pending
  const DefaultQty: int := 1
  const DefaultPaymentMethod: string := "razorpay"

  /** The string the schema stores for a status. */
  function StatusName(s: Status): string
  {
    match s
    case Pending => "pending"
    case Paid => "paid"
    case Shipped => "shipped"
    case Delivered => "delivered"
    case Cancelled => "cancelled"
  }

  /** The enum validator on `status`: accepts exactly the five names. */
  function ParseStatus(name: string): (r: Option<Status>)
    ensures r.Some? ==> StatusName(r.value) == name
    ensures r.None? ==> forall s: Status :: StatusName(s) != name
  {
    if name == "pending" then Some(Pending)
    else if name == "paid" then Some(Paid)
    else if name == "shipped" then Some(Shipped)
    else if name == "delivered" then Some(Delivered)
    else if name == "cancelled" then Some(Cancelled)
    else None
  }

  function ItemTypeName(t: ItemType): string
  {
    match t
    case ProductItem => "product"
    case CourseItem => "course"
  }

  /** The enum validator on `itemType`: accepts exactly "product" and "course". */
  function ParseItemType(name: string): (r: Option<ItemType>)
    ensures r.Some? ==> ItemTypeName(r.value) == name
    ensures r.None? ==> forall t: ItemType :: ItemTypeName(t) != name
  {
    if name == "product" then Some(ProductItem)
    else if name == "course" then Some(CourseItem)
    else None
  }

  /** A line item as the request body gives it, before the schema casts it. */
  datatype ItemInput = ItemInput(itemId: Option<Id>, itemType: Option<string>, title: Option<string>,
                                 price: Option<int>, qty: Option<int>)

  /** `itemId` is required, `itemType` is required and one of the enum. */
  predicate ItemAccepted(i: ItemInput)
  {
    TruthyText(i.itemId) && i.itemType.Some? && ParseItemType(i.itemType.value).Some?
  }

  /** The stored form of an accepted item: `qty` defaults to 1 and has no lower bound. */
  function CastItem(i: ItemInput): OrderItem
    requires ItemAccepted(i)
  {
    OrderItem(i.itemId.value, ParseItemType(i.itemType.value).value, i.title, i.price,
              if i.qty.Some? then i.qty.value else DefaultQty)
  }

  /** Validation of the `items` array: it fails when any item fails, and
      otherwise keeps every item, in order. */
  function CastItems(inputs: seq<ItemInput>): (r: Option<seq<OrderItem>>)
    ensures r.Some? <==> forall k :: 0 <= k < |inputs| ==> ItemAccepted(inputs[k])
    ensures r.Some? ==> |r.value| == |inputs|
    ensures r.Some? ==> forall k :: 0 <= k < |inputs| ==> ItemAccepted(inputs[k]) && r.value[k] == CastItem(inputs[k])
  {
    if inputs == [] then Some([])
    else if !ItemAccepted(inputs[0]) then None
    else
      match CastItems(inputs[1..])
      case None => None
      case Some(rest) => Some([CastItem(inputs[0])] + rest)
  }

  /** Round trip of the status enum. */
  lemma StatusRoundTrip(s: Status)
    ensures ParseStatus(StatusName(s)) == Some(s)
  {
  }

  /** Round trip of the item-type enum. */
  lemma ItemTypeRoundTrip(t: ItemType)
    ensures ParseItemType(ItemTypeName(t)) == Some(t)
  {
  }
}
