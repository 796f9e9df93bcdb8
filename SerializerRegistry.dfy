/**
 * The serializer registry: a table from resource class to serializer, built
 * once, searched by exact class, and used to dispatch serialize and
 * deserialize.  The per-type serializers the table holds are not part of this
 * model: their behaviour is the `Codecs` value the registry is given.
 */
module SerializerRegistry {
  import opened Wrappers
  import opened PhpValues
  import opened Resources

  datatype SerializerKind =
    | ShipmentSerializer | ContactSerializer | AddressSerializer | InstructionSerializer
    | ItemSerializer | TrackingSerializer | TrackingLineSerializer | LabelSerializer
    | OrderLineSerializer

  datatype SerializerError =
    | SerializerNotFound(message: string)  // SerializerNotFoundException
    | TypeError                            // PHP's TypeError: a non-array passed as `array $data`, or returned from `serialize(): array`

  const NotFoundPrefix := "No serializer available for type "

  /** The exception a lookup of an unregistered class throws; its message ends with the class name. */
  function NotFound(t: TypeTag): (e: SerializerError)
    ensures e.SerializerNotFound?
    ensures |e.message| >= |ClassName(t)| && e.message[|e.message| - |ClassName(t)|..] == ClassName(t)
  {
    SerializerNotFound(NotFoundPrefix + ClassName(t))
  }

  type Table = seq<(TypeTag, SerializerKind)>

  /** The table the registry's constructor builds, in its order. */
  function StandardTable(): Table {
    [ (Shipment, ShipmentSerializer),
      (Contact, ContactSerializer),
      (Address, AddressSerializer),
      (DispatchInstruction, InstructionSerializer),
      (DeliveryInstruction, InstructionSerializer),
      (Item, ItemSerializer),
      (Tracking, TrackingSerializer),
      (TrackingLine, TrackingLineSerializer),
      (Label, LabelSerializer) ]
  }

  /** `getSerializer`: the first entry whose key is exactly `t`, else SerializerNotFound. */
  function Lookup(table: Table, t: TypeTag): (r: Result<SerializerKind, SerializerError>)
    ensures r.Failure? ==> r.error == NotFound(t)
    decreases |table|
  {
    if table == [] then Failure(NotFound(t))
    else if table[0].0 == t then Success(table[0].1)
    else Lookup(table[1..], t)
  }

  /** A lookup succeeds exactly when some entry's key is exactly the requested type. */
  lemma {:induction false} LookupSucceedsOnExactKey(table: Table, t: TypeTag)
    ensures Lookup(table, t).Success? <==> exists i :: 0 <= i < |table| && table[i].0 == t
    decreases |table|
  {
    if table != [] {
      LookupSucceedsOnExactKey(table[1..], t);
      assert forall i :: 0 < i < |table| ==> table[i] == table[1..][i - 1];
      if table[0].0 != t && exists i :: 0 <= i < |table| && table[i].0 == t {
        var i :| 0 <= i < |table| && table[i].0 == t;
        assert table[1..][i - 1].0 == t;
      }
    }
  }

  /** A lookup returns the serializer of the first entry whose key is exactly the requested type. */
  lemma {:induction false} LookupFindsFirstMatch(table: Table, t: TypeTag, i: nat)
    requires i < |table| && table[i].0 == t
    requires forall j :: 0 <= j < i ==> table[j].0 != t
    ensures Lookup(table, t) == Success(table[i].1)
    decreases i
  {
    if i > 0 {
      assert forall j :: 0 <= j < i - 1 ==> table[1..][j] == table[j + 1];
      LookupFindsFirstMatch(table[1..], t, i - 1);
    }
  }

  /** The behaviour of the per-type serializers, one pair of functions per serializer kind. */
  datatype Codecs = Codecs(
    encode: (SerializerKind, Resource) -> Result<Value, SerializerError>,
    decode: (SerializerKind, Value, TypeTag) -> Result<Resource, SerializerError>)

  /**
   * `serialize($data)`: dispatch on the exact runtime class, and return the
   * serializer's output; the declared return type `array` turns an output that
   * is no array into PHP's TypeError.
   */
  function SerializeWith(table: Table, codecs: Codecs, x: Resource): (r: Result<Value, SerializerError>)
    ensures Lookup(table, ClassOf(x)).Failure? ==> r == Failure(NotFound(ClassOf(x)))
    ensures Lookup(table, ClassOf(x)).Success? && codecs.encode(Lookup(table, ClassOf(x)).value, x).Failure? ==>
      r == codecs.encode(Lookup(table, ClassOf(x)).value, x)
    ensures Lookup(table, ClassOf(x)).Success? && codecs.encode(Lookup(table, ClassOf(x)).value, x).Success? ==>
      r == if IsArray(codecs.encode(Lookup(table, ClassOf(x)).value, x).value)
           then codecs.encode(Lookup(table, ClassOf(x)).value, x)
           else Failure(TypeError)
    ensures r.Success? ==> IsArray(r.value)
  {
    match Lookup(table, ClassOf(x))
    case Failure(e) => Failure(e)
    case Success(kind) =>
      match codecs.encode(kind, x)
      case Failure(e) => Failure(e)
      case Success(v) => if IsArray(v) then Success(v) else Failure(TypeError)
  }

  /**
   * `deserialize($data, $dataType)`: dispatch on the requested type, never on
   * the data, and hand the requested type on to the serializer.
   */
  function DeserializeWith(table: Table, codecs: Codecs, data: Value, t: TypeTag): (r: Result<Resource, SerializerError>)
    ensures !IsArray(data) ==> r == Failure(TypeError)
    ensures IsArray(data) && Lookup(table, t).Failure? ==> r == Failure(NotFound(t))
    ensures IsArray(data) && Lookup(table, t).Success? ==> r == codecs.decode(Lookup(table, t).value, data, t)
  {
    if !IsArray(data) then Failure(TypeError)
    else
      match Lookup(table, t)
      case Failure(e) => Failure(e)
      case Success(kind) => codecs.decode(kind, data, t)
  }

  /** The standard table registers exactly nine classes: every class but Order and OrderLine. */
  lemma StandardTableRegisters(t: TypeTag)
    ensures Lookup(StandardTable(), t).Success? <==> t != Order && t != OrderLine
  {
    var table := StandardTable();
    if t == Order || t == OrderLine {
      assert forall i :: 0 <= i < |table| ==> table[i].0 != t;
      LookupSucceedsOnExactKey(table, t);
    } else {
      var i := match t
        case Shipment => 0 case Contact => 1 case Address => 2
        case DispatchInstruction => 3 case DeliveryInstruction => 4 case Item => 5
        case Tracking => 6 case TrackingLine => 7 case Label => 8;
      StandardTableFindsEveryEntry(i);
    }
  }

  /** Order and OrderLine have no serializer: looking them up throws, naming the class. */
  lemma OrderTypesUnregistered()
    ensures Lookup(StandardTable(), Order) == Failure(NotFound(Order))
    ensures Lookup(StandardTable(), OrderLine) == Failure(NotFound(OrderLine))
  {
    StandardTableRegisters(Order);
    StandardTableRegisters(OrderLine);
  }

  /** Every entry of the standard table is what a lookup of its class finds: the keys are distinct. */
  lemma StandardTableFindsEveryEntry(i: nat)
    requires i < |StandardTable()|
    ensures Lookup(StandardTable(), StandardTable()[i].0) == Success(StandardTable()[i].1)
  {
    var table := StandardTable();
    assert forall a, b :: 0 <= a < b < |table| ==> table[a].0 != table[b].0;
    LookupFindsFirstMatch(table, table[i].0, i);
  }

  /** Both instruction classes resolve to the instruction serializer. */
  lemma InstructionsShareSerializer()
    ensures Lookup(StandardTable(), DispatchInstruction) == Success(InstructionSerializer)
    ensures Lookup(StandardTable(), DeliveryInstruction) == Success(InstructionSerializer)
  {
    StandardTableFindsEveryEntry(3);
    StandardTableFindsEveryEntry(4);
  }

  /** A per-type serializer that gives back, from its own output, every resource of class t it encodes. */
  ghost predicate RoundTrips(codecs: Codecs, kind: SerializerKind, t: TypeTag) {
    forall x :: ClassOf(x) == t && codecs.encode(kind, x).Success? ==>
      IsArray(codecs.encode(kind, x).value) && codecs.decode(kind, codecs.encode(kind, x).value, t) == Success(x)
  }

  /** Through the registry, `deserialize(serialize(x), get_class(x))` is x when x's serializer round-trips. */
  lemma RegistryRoundTrip(table: Table, codecs: Codecs, x: Resource)
    requires Lookup(table, ClassOf(x)).Success?
    requires RoundTrips(codecs, Lookup(table, ClassOf(x)).value, ClassOf(x))
    requires SerializeWith(table, codecs, x).Success?
    ensures DeserializeWith(table, codecs, SerializeWith(table, codecs, x).value, ClassOf(x)) == Success(x)
  {
  }

  /** The registry: its table is a constant, built by the constructor and never changed. */
  class Serializer {
    const serializers: Table
    const codecs: Codecs

    constructor (codecs: Codecs)
      ensures serializers == StandardTable() && this.codecs == codecs
    {
      serializers := StandardTable();
      this.codecs := codecs;
    }

    /** The linear scan with early return. */
    method GetSerializer(dataType: TypeTag) returns (r: Result<SerializerKind, SerializerError>)
      ensures r == Lookup(serializers, dataType)
    {
      var i := 0;
      while i < |serializers|
        invariant 0 <= i <= |serializers|
        invariant forall j :: 0 <= j < i ==> serializers[j].0 != dataType
      {
        if serializers[i].0 == dataType {
          LookupFindsFirstMatch(serializers, dataType, i);
          return Success(serializers[i].1);
        }
        i := i + 1;
      }
      LookupSucceedsOnExactKey(serializers, dataType);
      return Failure(NotFound(dataType));
    }

    method Serialize(data: Resource) returns (r: Result<Value, SerializerError>)
      ensures r == SerializeWith(serializers, codecs, data)
    {
      var serializer := GetSerializer(ClassOf(data));
      if serializer.Failure? {
        return Failure(serializer.error);
      }
      r := codecs.encode(serializer.value, data);
      if r.Success? && !IsArray(r.value) {
        r := Failure(TypeError);
      }
    }

    method Deserialize(data: Value, dataType: TypeTag) returns (r: Result<Resource, SerializerError>)
      ensures r == DeserializeWith(serializers, codecs, data, dataType)
    {
      if !IsArray(data) {
        return Failure(TypeError);
      }
      var serializer := GetSerializer(dataType);
      if serializer.Failure? {
        return Failure(serializer.error);
      }
      r := codecs.decode(serializer.value, data, dataType);
    }
  }
}
