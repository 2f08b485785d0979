/**
 * GpgFrontend's DataObject: a positional bundle of type-erased values with a
 * runtime shape check, together with the free helpers
 * that build a shared bundle from an argument list (TransferParams), read one
 * parameter back as a given type (ExtractParams) and exchange two bundles (swap).
 *
 * A `DataObjectPtr` (std::shared_ptr<DataObject>) is a `DataObject?`: null is
 * the empty handle.
 */
module DataObjects {
  import opened Wrappers
  import opened Values
  import opened Shapes

  class DataObject {
    /** The stored parameters, in position order. */
    var items: seq<Value>

    /** `DataObject()`: an empty bundle. */
    constructor ()
      ensures items == []
    {
      items := [];
    }

    /** `DataObject(std::initializer_list<std::any>)`: a bundle holding the list, in order. */
    constructor FromList(init: seq<Value>)
      ensures items == init
    {
      items := init;
    }

    /** `GetObjectSize()`: the number of stored parameters. */
    function GetObjectSize(): (n: nat)
      reads this
      ensures n == |items|
      ensures n == |Shape(items)|
    {
      |items|
    }

    /** `GetParameter(index)` and `operator[](index)`: the parameter at `index`. */
    function GetParameter(index: nat): (v: Value)
      reads this
      requires index < GetObjectSize()
      ensures v == items[index]
      ensures TypeOf(v) == Shape(items)[index]
    {
      items[index]
    }

    /** `AppendObject(value)`: adds `v` at the next position; earlier positions keep their values. */
    method AppendObject(v: Value)
      modifies this
      ensures items == old(items) + [v]
      ensures GetObjectSize() == old(GetObjectSize()) + 1
      ensures GetParameter(old(GetObjectSize())) == v
      ensures forall i :: 0 <= i < old(GetObjectSize()) ==> GetParameter(i) == old(GetParameter(i))
      ensures Shape(items) == old(Shape(items)) + [TypeOf(v)]
    {
      ShapeAppend(items, [v]);
      items := items + [v];
    }

    /**
     * `Swap(DataObject&)` and `Swap(DataObject&&)`: exchanges the whole
     * contents of the two bundles. Swapping a bundle with itself leaves it as it was.
     */
    method Swap(other: DataObject)
      modifies this, other
      ensures items == old(other.items)
      ensures other.items == old(items)
    {
      var mine := items;
      items := other.items;
      other.items := mine;
    }

    /**
     * `Check<Args...>()`: true exactly when the bundle holds as many
     * parameters as `expected` lists and each one's runtime type is the
     * expected type at its position. `logged` is the diagnostic GpgFrontend
     * writes to the error log: the first disagreeing position with the
     * stored and expected types, and nothing when only the sizes differ.
     * The bundle is only read.
     */
    method Check(expected: seq<TypeTag>) returns (ok: bool, logged: Option<Mismatch>)
      ensures ok <==> Shape(items) == expected
      ensures ok <==> GetObjectSize() == |expected| &&
                      forall i :: 0 <= i < |expected| ==> TypeOf(GetParameter(i)) == expected[i]
      ensures |expected| != GetObjectSize() ==> logged == None
      ensures |expected| == GetObjectSize() ==> logged == FirstMismatch(Shape(items), expected)
      ensures ok ==> logged == None
    {
      if |expected| != GetObjectSize() {
        return false, None;
      }
      var i := 0;
      while i < |expected|
        invariant 0 <= i <= |expected|
        invariant forall j :: 0 <= j < i ==> TypeOf(items[j]) == expected[j]
      {
        var stored := TypeOf(GetParameter(i));
        if expected[i] != stored {
          FirstMismatchAt(Shape(items), expected, i);
          return false, Some(Mismatch(i, stored, expected[i]));
        }
        i := i + 1;
      }
      return true, None;
    }
  }

  /** `TransferParams(args...)`: a new, non-null shared bundle holding `args` in order. */
  method TransferParams(args: seq<Value>) returns (d: DataObject)
    ensures fresh(d)
    ensures d.items == args
  {
    d := new DataObject.FromList(args);
  }

  /** The exceptions `ExtractParams` throws. */
  datatype ExtractError =
    | NullHandle    // std::invalid_argument("nullptr provided for DataObjectPtr")
    | TypeMismatch  // std::bad_any_cast

  /**
   * `ExtractParams<T>(d_o, index)`: the parameter at `index` of the bundle
   * behind the handle `d`, as type `want`. Fails on a null handle before
   * anything is read, and when the stored type is not exactly `want`.
   * The index is a C++ `int` handed on to a `size_t` parameter, so a live
   * handle needs it in range and non-negative; `std::any_cast<void>` does
   * not compile, so `want` is never the type of an empty std::any.
   */
  function ExtractParams(d: DataObject?, index: Int32, want: TypeTag): (r: Result<Value, ExtractError>)
    reads d
    requires want != VoidType
    requires d != null ==> 0 <= index as int < d.GetObjectSize()
    ensures d == null <==> r == Failure(NullHandle)
    ensures d != null ==> (r.Success? <==> TypeOf(d.items[index as int]) == want)
    ensures d != null && !r.Success? ==> r == Failure(TypeMismatch)
    ensures r.Success? ==> d != null && r.value == d.items[index as int] && TypeOf(r.value) == want
  {
    if d == null then Failure(NullHandle)
    else
      var v := d.GetParameter(index as int);
      if TypeOf(v) == want then Success(v) else Failure(TypeMismatch)
  }

  /** `swap(a, b)`: the free function, exchanging the contents of `a` and `b`. */
  method SwapObjects(a: DataObject, b: DataObject)
    modifies a, b
    ensures a.items == old(b.items)
    ensures b.items == old(a.items)
  {
    a.Swap(b);
  }

  /**
   * A bundle that passes `Check` for `expected` can be unpacked position by
   * position with those types, and only with those types; and a bundle of
   * the right size that unpacks at every position with the expected types
   * passes `Check`. The positions are the ones a C++ `int` index reaches.
   */
  lemma CheckedBundleUnpacks(d: DataObject, expected: seq<TypeTag>)
    requires forall i :: 0 <= i < |expected| ==> expected[i] != VoidType
    requires |expected| == d.GetObjectSize() <= 0x8000_0000
    ensures Shape(d.items) == expected <==>
            forall i :: 0 <= i < |expected| ==> ExtractParams(d, i as Int32, expected[i]).Success?
    ensures Shape(d.items) == expected ==>
            forall i: Int32, t :: 0 <= i as int < |expected| && t != VoidType ==>
              ExtractParams(d, i, t) == if t == expected[i as int] then Success(d.items[i as int]) else Failure(TypeMismatch)
  {
  }

  /**
   * Round trip: every argument of a bundle built from `args` (by
   * TransferParams or the list constructor) comes back unchanged from
   * ExtractParams at its position, asked for as its own type.
   */
  lemma TransferThenExtract(d: DataObject, args: seq<Value>)
    requires d.items == args
    requires forall i :: 0 <= i < |args| ==> args[i] != EmptyAny
    requires |args| <= 0x8000_0000
    ensures forall i :: 0 <= i < |args| ==> ExtractParams(d, i as Int32, TypeOf(args[i])) == Success(args[i])
  {
  }

  /** A client: the producer and consumer sides of one event payload. */
  method PingScenario()
  {
    var hello := TransferParams([StringValue("hello")]);
    var ok, logged := hello.Check([StringType]);
    assert ok && logged == None;
    var s := ExtractParams(hello, 0, StringType);
    assert s == Success(StringValue("hello"));

    var wrong := TransferParams([IntValue(42)]);
    ok, logged := wrong.Check([StringType]);
    assert !ok && logged == Some(Mismatch(0, IntType, StringType));
  }

  /** A client: size and type mismatches, appending, a null handle and swapping. */
  method MismatchScenario()
  {
    var ok, logged;
    var pair := TransferParams([IntValue(42), StringValue("x")]);
    ok, logged := pair.Check([IntType, IntType]);
    assert !ok && logged == Some(Mismatch(1, StringType, IntType));
    ok, logged := pair.Check([IntType]);
    assert !ok && logged == None;

    var empty := new DataObject();
    ok, logged := empty.Check([]);
    assert ok;
    empty.AppendObject(SizeValue(7));
    ok, logged := empty.Check([IntType]);
    assert !ok;

    var none: DataObject? := null;
    var s := ExtractParams(none, -1, IntType);
    assert s == Failure(NullHandle);

    SwapObjects(empty, pair);
    assert empty.GetObjectSize() == 2 && pair.GetParameter(0) == SizeValue(7);
  }
}
