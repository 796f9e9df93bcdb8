/**
 * The Order serializer: it turns the flat in-memory order into the nested wire
 * map `{externalId, reference, createdAtSource, orderLines: [...],
 * shipTo: {contact, address}}` and back, sending every nested resource through
 * a registry it creates itself.  That registry always has the standard table,
 * in which OrderLine is not registered; the spec functions below take the table
 * as a parameter so that the round trip can also be stated for a table that
 * does register it.
 */
module OrderSerializer {
  import opened Wrappers
  import opened PhpValues
  import opened Resources
  import opened SerializerRegistry

  /** The order lines serialized one after the other; the first failure is the result. */
  function SerializeLines(table: Table, codecs: Codecs, lines: seq<Resource>): (r: Result<seq<Value>, SerializerError>)
    ensures r.Success? ==>
      && |r.value| == |lines|
      && forall i :: 0 <= i < |lines| ==> SerializeWith(table, codecs, lines[i]) == Success(r.value[i])
    decreases |lines|
  {
    if lines == [] then Success([])
    else
      var last := |lines| - 1;
      assert forall i :: 0 <= i < last ==> lines[..last][i] == lines[i];
      match SerializeLines(table, codecs, lines[..last])
      case Failure(e) => Failure(e)
      case Success(prefix) =>
        match SerializeWith(table, codecs, lines[last])
        case Failure(e) => Failure(e)
        case Success(v) => Success(prefix + [v])
  }

  /** The wire lines deserialized one after the other, each as an OrderLine. */
  function DeserializeLines(table: Table, codecs: Codecs, items: seq<Value>): (r: Result<seq<Resource>, SerializerError>)
    ensures r.Success? ==>
      && |r.value| == |items|
      && forall i :: 0 <= i < |items| ==> DeserializeWith(table, codecs, items[i], OrderLine) == Success(r.value[i])
    decreases |items|
  {
    if items == [] then Success([])
    else
      var last := |items| - 1;
      assert forall i :: 0 <= i < last ==> items[..last][i] == items[i];
      match DeserializeLines(table, codecs, items[..last])
      case Failure(e) => Failure(e)
      case Success(prefix) =>
        match DeserializeWith(table, codecs, items[last], OrderLine)
        case Failure(e) => Failure(e)
        case Success(x) => Success(prefix + [x])
  }

  /** The wire map `serialize` returns. */
  function WireOrder(o: Order, lines: seq<Value>, contact: Value, address: Value): Value {
    VMap(map[
      "externalId" := o.externalId,
      "reference" := o.reference,
      "createdAtSource" := o.createdAtSource,
      "orderLines" := VList(lines),
      "shipTo" := VMap(map["contact" := contact, "address" := address])])
  }

  /** `serialize`: lines first, then the contact, then the address; the first failure is the result. */
  function SerializeOrder(table: Table, codecs: Codecs, o: Order): (r: Result<Value, SerializerError>)
    ensures r.Success? <==>
      && SerializeLines(table, codecs, o.orderLines).Success?
      && SerializeWith(table, codecs, o.shipToContact).Success?
      && SerializeWith(table, codecs, o.shipToAddress).Success?
    ensures r.Failure? ==> (r.error ==
      if SerializeLines(table, codecs, o.orderLines).Failure? then SerializeLines(table, codecs, o.orderLines).error
      else if SerializeWith(table, codecs, o.shipToContact).Failure? then SerializeWith(table, codecs, o.shipToContact).error
      else SerializeWith(table, codecs, o.shipToAddress).error)
    // exactly five top-level keys, the scalars copied, the lines in order, shipTo nesting contact and address
    ensures r.Success? ==>
      && r.value.VMap?
      && r.value.fields.Keys == {"externalId", "reference", "createdAtSource", "orderLines", "shipTo"}
      && Offset(r.value, "externalId") == o.externalId
      && Offset(r.value, "reference") == o.reference
      && Offset(r.value, "createdAtSource") == o.createdAtSource
      && Offset(r.value, "orderLines") == VList(SerializeLines(table, codecs, o.orderLines).value)
      && Offset(r.value, "shipTo").VMap?
      && Offset(r.value, "shipTo").fields.Keys == {"contact", "address"}
      && Success(Offset(Offset(r.value, "shipTo"), "contact")) == SerializeWith(table, codecs, o.shipToContact)
      && Success(Offset(Offset(r.value, "shipTo"), "address")) == SerializeWith(table, codecs, o.shipToAddress)
  {
    match SerializeLines(table, codecs, o.orderLines)
    case Failure(e) => Failure(e)
    case Success(lines) =>
      match SerializeWith(table, codecs, o.shipToContact)
      case Failure(e) => Failure(e)
      case Success(contact) =>
        match SerializeWith(table, codecs, o.shipToAddress)
        case Failure(e) => Failure(e)
        case Success(address) => Success(WireOrder(o, lines, contact, address))
  }

  /**
   * The elements `foreach ($data['orderLines'] as $line)` visits: those of a
   * list; nothing when the entry is missing or a scalar (PHP warns and skips
   * the loop).
   */
  function WireLines(data: Value): seq<Value> {
    var wire := Offset(data, "orderLines");
    if wire.VList? then wire.items else []
  }

  /**
   * The loop over a string-keyed array visits its entries in insertion order,
   * which a Dafny map does not keep; such wire data is excluded.
   */
  predicate LinesAreOrdered(data: Value) {
    !Offset(data, "orderLines").VMap?
  }

  /** `deserialize`: a fresh order from the six wire entries; the first failure is the result. */
  function DeserializeOrder(table: Table, codecs: Codecs, data: Value): (r: Result<Order, SerializerError>)
    requires LinesAreOrdered(data)
    ensures !IsArray(data) ==> r == Failure(TypeError)
    ensures r.Success? <==>
      && IsArray(data)
      && DeserializeLines(table, codecs, WireLines(data)).Success?
      && DeserializeWith(table, codecs, Offset(Offset(data, "shipTo"), "contact"), Contact).Success?
      && DeserializeWith(table, codecs, Offset(Offset(data, "shipTo"), "address"), Address).Success?
    ensures IsArray(data) && r.Failure? ==> (r.error ==
      if DeserializeLines(table, codecs, WireLines(data)).Failure? then DeserializeLines(table, codecs, WireLines(data)).error
      else if DeserializeWith(table, codecs, Offset(Offset(data, "shipTo"), "contact"), Contact).Failure? then
        DeserializeWith(table, codecs, Offset(Offset(data, "shipTo"), "contact"), Contact).error
      else DeserializeWith(table, codecs, Offset(Offset(data, "shipTo"), "address"), Address).error)
    // the scalars copied, the lines in wire order, contact and address taken from under shipTo
    ensures r.Success? ==>
      && r.value.externalId == Offset(data, "externalId")
      && r.value.reference == Offset(data, "reference")
      && r.value.createdAtSource == Offset(data, "createdAtSource")
      && |r.value.orderLines| == |WireLines(data)|
      && (forall i :: 0 <= i < |WireLines(data)| ==>
            DeserializeWith(table, codecs, WireLines(data)[i], OrderLine) == Success(r.value.orderLines[i]))
      && DeserializeWith(table, codecs, Offset(Offset(data, "shipTo"), "contact"), Contact) == Success(r.value.shipToContact)
      && DeserializeWith(table, codecs, Offset(Offset(data, "shipTo"), "address"), Address) == Success(r.value.shipToAddress)
  {
    if !IsArray(data) then Failure(TypeError)
    else
      match DeserializeLines(table, codecs, WireLines(data))
      case Failure(e) => Failure(e)
      case Success(lines) =>
        var shipTo := Offset(data, "shipTo");
        match DeserializeWith(table, codecs, Offset(shipTo, "contact"), Contact)
        case Failure(e) => Failure(e)
        case Success(contact) =>
          match DeserializeWith(table, codecs, Offset(shipTo, "address"), Address)
          case Failure(e) => Failure(e)
          case Success(address) =>
            Success(NewOrder(Offset(data, "externalId"), Offset(data, "reference"),
                             Offset(data, "createdAtSource"), lines, contact, address))
  }

  /** A failed serialization of the lines is that of the first line that fails. */
  lemma {:induction false} SerializeLinesFirstFailure(table: Table, codecs: Codecs, lines: seq<Resource>)
    requires SerializeLines(table, codecs, lines).Failure?
    ensures exists i ::
      && 0 <= i < |lines|
      && SerializeWith(table, codecs, lines[i]) == Failure(SerializeLines(table, codecs, lines).error)
      && forall j :: 0 <= j < i ==> SerializeWith(table, codecs, lines[j]).Success?
    decreases |lines|
  {
    var last := |lines| - 1;
    assert forall i :: 0 <= i < last ==> lines[..last][i] == lines[i];
    if SerializeLines(table, codecs, lines[..last]).Failure? {
      SerializeLinesFirstFailure(table, codecs, lines[..last]);
      var i :| 0 <= i < last
        && SerializeWith(table, codecs, lines[..last][i]) == Failure(SerializeLines(table, codecs, lines[..last]).error)
        && forall j :: 0 <= j < i ==> SerializeWith(table, codecs, lines[..last][j]).Success?;
      assert SerializeWith(table, codecs, lines[i]) == Failure(SerializeLines(table, codecs, lines).error);
    } else {
      assert SerializeWith(table, codecs, lines[last]) == Failure(SerializeLines(table, codecs, lines).error);
    }
  }

  /** A failed deserialization of the wire lines is that of the first line that fails. */
  lemma {:induction false} DeserializeLinesFirstFailure(table: Table, codecs: Codecs, items: seq<Value>)
    requires DeserializeLines(table, codecs, items).Failure?
    ensures exists i ::
      && 0 <= i < |items|
      && DeserializeWith(table, codecs, items[i], OrderLine) == Failure(DeserializeLines(table, codecs, items).error)
      && forall j :: 0 <= j < i ==> DeserializeWith(table, codecs, items[j], OrderLine).Success?
    decreases |items|
  {
    var last := |items| - 1;
    assert forall i :: 0 <= i < last ==> items[..last][i] == items[i];
    if DeserializeLines(table, codecs, items[..last]).Failure? {
      DeserializeLinesFirstFailure(table, codecs, items[..last]);
      var i :| 0 <= i < last
        && DeserializeWith(table, codecs, items[..last][i], OrderLine) == Failure(DeserializeLines(table, codecs, items[..last]).error)
        && forall j :: 0 <= j < i ==> DeserializeWith(table, codecs, items[..last][j], OrderLine).Success?;
      assert DeserializeWith(table, codecs, items[i], OrderLine) == Failure(DeserializeLines(table, codecs, items).error);
    } else {
      assert DeserializeWith(table, codecs, items[last], OrderLine) == Failure(DeserializeLines(table, codecs, items).error);
    }
  }

  /** A failure among the first k lines is the failure of all the lines. */
  lemma {:induction false} SerializeLinesFailsEarly(table: Table, codecs: Codecs, lines: seq<Resource>, k: nat)
    requires k <= |lines| && SerializeLines(table, codecs, lines[..k]).Failure?
    ensures SerializeLines(table, codecs, lines) == SerializeLines(table, codecs, lines[..k])
    decreases |lines|
  {
    if k < |lines| {
      var last := |lines| - 1;
      assert lines[..last][..k] == lines[..k];
      SerializeLinesFailsEarly(table, codecs, lines[..last], k);
    } else {
      assert lines[..k] == lines;
    }
  }

  lemma {:induction false} DeserializeLinesFailsEarly(table: Table, codecs: Codecs, items: seq<Value>, k: nat)
    requires k <= |items| && DeserializeLines(table, codecs, items[..k]).Failure?
    ensures DeserializeLines(table, codecs, items) == DeserializeLines(table, codecs, items[..k])
    decreases |items|
  {
    if k < |items| {
      var last := |items| - 1;
      assert items[..last][..k] == items[..k];
      DeserializeLinesFailsEarly(table, codecs, items[..last], k);
    } else {
      assert items[..k] == items;
    }
  }

  /** The wire lines of serialized lines deserialize back to those lines, in order. */
  lemma {:induction false} LinesRoundTrip(table: Table, codecs: Codecs, lines: seq<Resource>)
    requires Lookup(table, OrderLine).Success? && RoundTrips(codecs, Lookup(table, OrderLine).value, OrderLine)
    requires forall i :: 0 <= i < |lines| ==> ClassOf(lines[i]) == OrderLine
    requires SerializeLines(table, codecs, lines).Success?
    ensures DeserializeLines(table, codecs, SerializeLines(table, codecs, lines).value) == Success(lines)
    decreases |lines|
  {
    if lines != [] {
      var last := |lines| - 1;
      assert forall i :: 0 <= i < last ==> lines[..last][i] == lines[i];
      var prefix := SerializeLines(table, codecs, lines[..last]).value;
      var v := SerializeWith(table, codecs, lines[last]).value;
      LinesRoundTrip(table, codecs, lines[..last]);
      RegistryRoundTrip(table, codecs, lines[last]);
      var wire := prefix + [v];
      assert SerializeLines(table, codecs, lines).value == wire;
      assert wire[..|wire| - 1] == prefix;
      assert lines[..last] + [lines[last]] == lines;
    }
  }

  /**
   * With Contact and Address registered and their serializers round-tripping,
   * and OrderLine too when the order has lines,
   * `deserialize(serialize(o), Order::class)` gives back o, field for field and
   * with the lines in order.
   */
  lemma OrderRoundTrip(table: Table, codecs: Codecs, o: Order)
    requires |o.orderLines| > 0 ==>
      Lookup(table, OrderLine).Success? && RoundTrips(codecs, Lookup(table, OrderLine).value, OrderLine)
    requires Lookup(table, Contact).Success? && RoundTrips(codecs, Lookup(table, Contact).value, Contact)
    requires Lookup(table, Address).Success? && RoundTrips(codecs, Lookup(table, Address).value, Address)
    requires forall i :: 0 <= i < |o.orderLines| ==> ClassOf(o.orderLines[i]) == OrderLine
    requires ClassOf(o.shipToContact) == Contact && ClassOf(o.shipToAddress) == Address
    requires SerializeOrder(table, codecs, o).Success?
    ensures LinesAreOrdered(SerializeOrder(table, codecs, o).value)
    ensures DeserializeOrder(table, codecs, SerializeOrder(table, codecs, o).value) == Success(o)
  {
    var w := SerializeOrder(table, codecs, o).value;
    assert WireLines(w) == SerializeLines(table, codecs, o.orderLines).value;
    if |o.orderLines| > 0 {
      LinesRoundTrip(table, codecs, o.orderLines);
    }
    RegistryRoundTrip(table, codecs, o.shipToContact);
    RegistryRoundTrip(table, codecs, o.shipToAddress);
  }

  /**
   * The round trip through the registry `OrderSerializer` builds: an order
   * without lines whose contact and address serializers round-trip comes back
   * unchanged.
   */
  lemma StandardOrderRoundTrip(codecs: Codecs, o: Order)
    requires o.orderLines == []
    requires RoundTrips(codecs, ContactSerializer, Contact) && RoundTrips(codecs, AddressSerializer, Address)
    requires ClassOf(o.shipToContact) == Contact && ClassOf(o.shipToAddress) == Address
    requires SerializeOrder(StandardTable(), codecs, o).Success?
    ensures LinesAreOrdered(SerializeOrder(StandardTable(), codecs, o).value)
    ensures DeserializeOrder(StandardTable(), codecs, SerializeOrder(StandardTable(), codecs, o).value) == Success(o)
  {
    StandardTableFindsEveryEntry(1);
    StandardTableFindsEveryEntry(2);
    OrderRoundTrip(StandardTable(), codecs, o);
  }

  /** With the standard table, an order with an order line cannot be serialized: OrderLine has no serializer. */
  lemma SerializeOrderWithLinesFails(codecs: Codecs, o: Order)
    requires |o.orderLines| > 0 && ClassOf(o.orderLines[0]) == OrderLine
    ensures SerializeOrder(StandardTable(), codecs, o) == Failure(NotFound(OrderLine))
  {
    OrderTypesUnregistered();
    var lines := SerializeLines(StandardTable(), codecs, o.orderLines);
    assert lines.Failure?;
    SerializeLinesFirstFailure(StandardTable(), codecs, o.orderLines);
  }

  /** With the standard table, an order without lines serializes exactly when its contact and address encode to arrays. */
  lemma SerializeOrderWithoutLines(codecs: Codecs, o: Order)
    requires o.orderLines == []
    requires ClassOf(o.shipToContact) == Contact && ClassOf(o.shipToAddress) == Address
    ensures SerializeOrder(StandardTable(), codecs, o).Success? <==>
      && codecs.encode(ContactSerializer, o.shipToContact).Success?
      && IsArray(codecs.encode(ContactSerializer, o.shipToContact).value)
      && codecs.encode(AddressSerializer, o.shipToAddress).Success?
      && IsArray(codecs.encode(AddressSerializer, o.shipToAddress).value)
  {
    StandardTableFindsEveryEntry(1);
    StandardTableFindsEveryEntry(2);
  }

  /**
   * With the standard table, wire data with an order line cannot be
   * deserialized: the first line is refused, as unregistered or as no array.
   */
  lemma DeserializeOrderWithLinesFails(codecs: Codecs, data: Value)
    requires IsArray(data) && LinesAreOrdered(data) && WireLines(data) != []
    ensures DeserializeOrder(StandardTable(), codecs, data) ==
      Failure(if IsArray(WireLines(data)[0]) then NotFound(OrderLine) else TypeError)
  {
    OrderTypesUnregistered();
    var items := WireLines(data);
    assert DeserializeLines(StandardTable(), codecs, items).Failure?;
    DeserializeLinesFirstFailure(StandardTable(), codecs, items);
  }

  /** With the standard table, wire data without lines deserializes exactly when its contact and address do. */
  lemma DeserializeOrderWithoutLines(codecs: Codecs, data: Value)
    requires IsArray(data) && LinesAreOrdered(data) && WireLines(data) == []
    ensures var contact := Offset(Offset(data, "shipTo"), "contact");
      var address := Offset(Offset(data, "shipTo"), "address");
      DeserializeOrder(StandardTable(), codecs, data).Success? <==>
        && IsArray(contact) && codecs.decode(ContactSerializer, contact, Contact).Success?
        && IsArray(address) && codecs.decode(AddressSerializer, address, Address).Success?
  {
    StandardTableFindsEveryEntry(1);
    StandardTableFindsEveryEntry(2);
  }

  /** `serialize`, with its loop over the lines. */
  method Serialize(data: Order, codecs: Codecs) returns (r: Result<Value, SerializerError>)
    ensures r == SerializeOrder(StandardTable(), codecs, data)
  {
    var serializer := new Serializer(codecs);
    var lines: seq<Value> := [];
    var i := 0;
    while i < |data.orderLines|
      invariant 0 <= i <= |data.orderLines|
      invariant SerializeLines(StandardTable(), codecs, data.orderLines[..i]) == Success(lines)
    {
      var line := serializer.Serialize(data.orderLines[i]);
      assert data.orderLines[..i + 1][..i] == data.orderLines[..i];
      if line.Failure? {
        SerializeLinesFailsEarly(StandardTable(), codecs, data.orderLines, i + 1);
        return Failure(line.error);
      }
      lines := lines + [line.value];
      i := i + 1;
    }
    assert data.orderLines[..i] == data.orderLines;
    var contact := serializer.Serialize(data.shipToContact);
    if contact.Failure? {
      return Failure(contact.error);
    }
    var address := serializer.Serialize(data.shipToAddress);
    if address.Failure? {
      return Failure(address.error);
    }
    r := Success(WireOrder(data, lines, contact.value, address.value));
  }

  /** `deserialize`, with its loop over the wire lines and a fresh order filled in at the end. */
  method Deserialize(data: Value, codecs: Codecs) returns (r: Result<Order, SerializerError>)
    requires LinesAreOrdered(data)
    ensures r == DeserializeOrder(StandardTable(), codecs, data)
  {
    if !IsArray(data) {
      return Failure(TypeError);
    }
    var serializer := new Serializer(codecs);
    var wire := Offset(data, "orderLines");
    var items := if wire.VList? then wire.items else [];
    assert items == WireLines(data);
    var lines: seq<Resource> := [];
    var i := 0;
    while i < |items|
      invariant 0 <= i <= |items|
      invariant DeserializeLines(StandardTable(), codecs, items[..i]) == Success(lines)
    {
      var line := serializer.Deserialize(items[i], OrderLine);
      assert items[..i + 1][..i] == items[..i];
      if line.Failure? {
        DeserializeLinesFailsEarly(StandardTable(), codecs, items, i + 1);
        return Failure(line.error);
      }
      lines := lines + [line.value];
      i := i + 1;
    }
    assert items[..i] == items;
    assert DeserializeLines(StandardTable(), codecs, WireLines(data)) == Success(lines);
    var contact := serializer.Deserialize(Offset(Offset(data, "shipTo"), "contact"), Contact);
    if contact.Failure? {
      return Failure(contact.error);
    }
    var address := serializer.Deserialize(Offset(Offset(data, "shipTo"), "address"), Address);
    if address.Failure? {
      return Failure(address.error);
    }
    r := Success(NewOrder(Offset(data, "externalId"), Offset(data, "reference"),
                          Offset(data, "createdAtSource"), lines, contact.value, address.value));
  }
}
