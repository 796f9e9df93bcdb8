/**
 * The resource model: plain data holders.  An Order is spelled out because
 * its serializer is part of this model; every other resource is a record
 * whose class is known and whose fields are left uninterpreted, since their
 * serializers are not part of this model either.
 */
module Resources {
  import opened PhpValues

  /** The resource classes, a closed set of type identities. */
  datatype TypeTag =
    | Shipment | Contact | Address | DispatchInstruction | DeliveryInstruction
    | Item | Tracking | TrackingLine | Label | Order | OrderLine

  function ShortName(t: TypeTag): string {
    match t
    case Shipment => "Shipment"
    case Contact => "Contact"
    case Address => "Address"
    case DispatchInstruction => "DispatchInstruction"
    case DeliveryInstruction => "DeliveryInstruction"
    case Item => "Item"
    case Tracking => "Tracking"
    case TrackingLine => "TrackingLine"
    case Label => "Label"
    case Order => "Order"
    case OrderLine => "OrderLine"
  }

  /** The fully qualified class name, as `Foo::class` and `get_class` give it. */
  function ClassName(t: TypeTag): string {
    "Boekuwzending\\Resource\\" + ShortName(t)
  }

  datatype Resource =
    | OrderResource(order: Order)
    | Record(tag: TypeTag, fields: map<string, Value>)

  /** An order as the domain holds it: contact and address are direct fields. */
  datatype Order = NewOrder(
    externalId: Value,
    reference: Value,
    createdAtSource: Value,
    orderLines: seq<Resource>,
    shipToContact: Resource,
    shipToAddress: Resource)

  /** The runtime class of a resource. */
  function ClassOf(x: Resource): TypeTag {
    match x
    case OrderResource(_) => Order
    case Record(t, _) => t
  }
}
