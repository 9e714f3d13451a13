/** The in-memory product store of the inventory application: an ordered list
    of products plus a low-stock threshold, with validated create, update and
    delete operations, bulk clear and reset, and the dashboard statistics. */
module ProductStore {
  import Decimal

  /** Java's `int`. */
  newtype int32 = x: int | -0x8000_0000 <= x < 0x8000_0000

  datatype Option<T> = None | Some(value: T)

  /** One product. The price, a Java double, is an exact real here. */
  datatype Product = Product(id: int32, name: string, quantity: int32, price: real)

  /** The store's failures, one per IllegalArgumentException the source throws. */
  datatype StoreError =
    | InvalidId
    | EmptyName
    | NegativeQuantity
    | NegativePrice
    | DuplicateId
    | NotFound(id: int32)

  /** What a store operation reports: success, or the exception it raised. */
  datatype Outcome = Pass | Fail(error: StoreError)

  /** The exception message the source attaches to each failure. */
  function Message(e: StoreError): string {
    match e
    case InvalidId => "ID must be > 0."
    case EmptyName => "Name cannot be empty."
    case NegativeQuantity => "Quantity must be >= 0."
    case NegativePrice => "Price must be >= 0."
    case DuplicateId => "A product with this ID already exists."
    case NotFound(id) => "No product found with ID " + Decimal.IntToString(id as int)
  }

  /** Every failure has its own message, and the missing id can be read back
      from the "not found" message. */
  lemma MessageInjective(e1: StoreError, e2: StoreError)
    requires Message(e1) == Message(e2)
    ensures e1 == e2
  {
    var m1, m2 := Message(e1), Message(e2);
    assert m1[0] == m2[0] && m1[1] == m2[1];
    if e1.NotFound? && e2.NotFound? {
      var prefix := "No product found with ID ";
      assert m1[|prefix|..] == Decimal.IntToString(e1.id as int);
      assert m2[|prefix|..] == Decimal.IntToString(e2.id as int);
      Decimal.IntToStringInjective(e1.id as int, e2.id as int);
    }
  }

  // ======== Names ========

  /** Java's Character.isWhitespace: the Unicode space, line and paragraph
      separators other than the non-breaking spaces U+00A0, U+2007 and U+202F,
      and the controls TAB, LF, VT, FF, CR and U+001C to U+001F. */
  predicate IsWhitespace(c: char) {
    c == ' ' || c == '\t' || c == '\n' || c == '\U{000B}' || c == '\U{000C}' || c == '\r'
    || ('\U{001C}' <= c <= '\U{001F}')
    || c == '\U{1680}'
    || ('\U{2000}' <= c <= '\U{200A}' && c != '\U{2007}')
    || c == '\U{2028}' || c == '\U{2029}' || c == '\U{205F}' || c == '\U{3000}'
  }

  /** Java's String.isBlank: empty, or white space only. */
  predicate IsBlank(s: string) {
    forall i :: 0 <= i < |s| ==> IsWhitespace(s[i])
  }

  // ======== Data invariants ========

  /** A product as validation admits it: positive id, non-blank name,
      non-negative quantity and price. */
  predicate WellFormed(p: Product) {
    p.id > 0 && !IsBlank(p.name) && p.quantity >= 0 && p.price >= 0.0
  }

  predicate UniqueIds(ps: seq<Product>) {
    forall i, j :: 0 <= i < j < |ps| ==> ps[i].id != ps[j].id
  }

  /** What every mutation through the store keeps: distinct ids and only
      well-formed products. */
  predicate StoreInvariant(ps: seq<Product>) {
    UniqueIds(ps) && forall i :: 0 <= i < |ps| ==> WellFormed(ps[i])
  }

  // ======== Validation ========

  /** The checks `validate` makes, in the order it makes them; None when all
      pass. A None name stands for Java's null. */
  function Validate(id: int32, name: Option<string>, qty: int32, price: real): (r: Option<StoreError>)
    ensures r.None? <==> name.Some? && WellFormed(Product(id, name.value, qty, price))
    ensures r == Some(InvalidId) <==> id <= 0
    ensures r == Some(EmptyName) <==> id > 0 && (name.None? || IsBlank(name.value))
    ensures r == Some(NegativeQuantity) <==> id > 0 && name.Some? && !IsBlank(name.value) && qty < 0
    ensures r == Some(NegativePrice) <==> id > 0 && name.Some? && !IsBlank(name.value) && qty >= 0 && price < 0.0
  {
    if id <= 0 then Some(InvalidId)
    else if name.None? || IsBlank(name.value) then Some(EmptyName)
    else if qty < 0 then Some(NegativeQuantity)
    else if price < 0.0 then Some(NegativePrice)
    else None
  }

  // ======== Lookup and list edits ========

  /** The position of the first product with the given id, as the source's
      `filter(p -> p.getId() == id).findFirst()` finds it. */
  function FirstIndex(ps: seq<Product>, id: int32): (r: Option<nat>)
    ensures r.Some? ==> r.value < |ps| && ps[r.value].id == id
    ensures r.Some? ==> forall j :: 0 <= j < r.value ==> ps[j].id != id
    ensures r.None? ==> forall j :: 0 <= j < |ps| ==> ps[j].id != id
    decreases |ps|
  {
    if ps == [] then None
    else if ps[0].id == id then Some(0)
    else match FirstIndex(ps[1..], id)
      case None => None
      case Some(k) => Some(k + 1)
  }

  predicate HasId(ps: seq<Product>, id: int32) {
    FirstIndex(ps, id).Some?
  }

  /** The list without its element at position i, the rest in their order. */
  function RemoveAt(ps: seq<Product>, i: nat): (r: seq<Product>)
    requires i < |ps|
    ensures |r| == |ps| - 1
    ensures forall j :: 0 <= j < i ==> r[j] == ps[j]
    ensures forall j :: i <= j < |r| ==> r[j] == ps[j + 1]
    ensures multiset(r) + multiset{ps[i]} == multiset(ps)
  {
    assert ps == ps[..i] + [ps[i]] + ps[i + 1..];
    ps[..i] + ps[i + 1..]
  }

  /** Removing the product found for an id from a store with distinct ids
      leaves no product with that id, and the ids stay distinct. */
  lemma RemoveFoundKeepsInvariant(ps: seq<Product>, id: int32)
    requires StoreInvariant(ps) && HasId(ps, id)
    ensures StoreInvariant(RemoveAt(ps, FirstIndex(ps, id).value))
    ensures !HasId(RemoveAt(ps, FirstIndex(ps, id).value), id)
  {
  }

  /** Replacing a product by one with the same id and well-formed fields keeps
      the invariant. */
  lemma ReplaceKeepsInvariant(ps: seq<Product>, i: nat, p: Product)
    requires StoreInvariant(ps) && i < |ps|
    requires p.id == ps[i].id && WellFormed(p)
    ensures StoreInvariant(ps[i := p])
  {
  }

  // ======== Seed data ========

  /** The four products the store starts with and `resetSample` restores. */
  function SampleProducts(): (ps: seq<Product>)
    ensures StoreInvariant(ps)
    ensures |ps| == 4
    ensures forall i :: 0 <= i < 4 ==> ps[i].id as int == i + 1
  {
    assert !IsWhitespace("Apple"[0]) && !IsWhitespace("Banana"[0]);
    assert !IsWhitespace("Orange"[0]) && !IsWhitespace("Milk"[0]);
    [ Product(1, "Apple", 50, 1.5),
      Product(2, "Banana", 20, 1.0),
      Product(3, "Orange", 10, 2.0),
      Product(4, "Milk", 5, 3.0) ]
  }

  // ======== Statistics ========

  /** `Math.max(0, v)`. */
  function AtLeastZero(v: int32): (r: int32)
    ensures r >= 0 && r >= v
    ensures r == v || r == 0
  {
    if v < 0 then 0 else v
  }

  /** How many products have a quantity at or below the threshold t. */
  function CountAtMost(ps: seq<Product>, t: int32): (n: nat)
    ensures n <= |ps|
    ensures n == 0 <==> forall i :: 0 <= i < |ps| ==> ps[i].quantity > t
    ensures n == |ps| <==> forall i :: 0 <= i < |ps| ==> ps[i].quantity <= t
    decreases |ps|
  {
    if ps == [] then 0
    else
      var rest := CountAtMost(ps[1..], t);
      assert forall i :: 1 <= i < |ps| ==> ps[i] == ps[1..][i - 1];
      (if ps[0].quantity <= t then 1 else 0) + rest
  }

  /** The low-stock products, in store order (see LowStockItemsConcat): the
      filter the low-stock report and `lowStockCount` share. */
  function LowStockItems(ps: seq<Product>, t: int32): (r: seq<Product>)
    ensures forall p :: p in r <==> p in ps && p.quantity <= t
    decreases |ps|
  {
    if ps == [] then []
    else
      assert forall p :: p in ps <==> p == ps[0] || p in ps[1..];
      (if ps[0].quantity <= t then [ps[0]] else []) + LowStockItems(ps[1..], t)
  }

  /** Filtering distributes over concatenation. With the one-element cases of
      the definition this fixes the result completely, so the filter keeps the
      products in the order the store holds them. */
  lemma {:induction false} LowStockItemsConcat(a: seq<Product>, b: seq<Product>, t: int32)
    ensures LowStockItems(a + b, t) == LowStockItems(a, t) + LowStockItems(b, t)
    decreases |a|
  {
    if a != [] {
      var head := if a[0].quantity <= t then [a[0]] else [];
      assert (a + b)[0] == a[0] && (a + b)[1..] == a[1..] + b;
      assert LowStockItems(a + b, t) == head + LowStockItems(a[1..] + b, t);
      assert LowStockItems(a, t) == head + LowStockItems(a[1..], t);
      LowStockItemsConcat(a[1..], b, t);
    } else {
      assert a + b == b;
    }
  }

  /** The count is the length of the filtered list. */
  lemma {:induction false} LowStockCountIsFilterLength(ps: seq<Product>, t: int32)
    ensures |LowStockItems(ps, t)| == CountAtMost(ps, t)
    decreases |ps|
  {
    if ps != [] {
      LowStockCountIsFilterLength(ps[1..], t);
    }
  }

  /** Raising the threshold never lowers the low-stock count. */
  lemma {:induction false} CountAtMostMonotone(ps: seq<Product>, t1: int32, t2: int32)
    requires t1 <= t2
    ensures CountAtMost(ps, t1) <= CountAtMost(ps, t2)
    decreases |ps|
  {
    if ps != [] {
      CountAtMostMonotone(ps[1..], t1, t2);
    }
  }

  /** The low-stock count of a concatenation is the sum of the parts' counts. */
  lemma {:induction false} CountAtMostConcat(a: seq<Product>, b: seq<Product>, t: int32)
    ensures CountAtMost(a + b, t) == CountAtMost(a, t) + CountAtMost(b, t)
    decreases |a|
  {
    if a != [] {
      assert (a + b)[0] == a[0] && (a + b)[1..] == a[1..] + b;
      CountAtMostConcat(a[1..], b, t);
    } else {
      assert a + b == b;
    }
  }

  /** The value of one product line: quantity times price. */
  function LineValue(p: Product): real {
    (p.quantity as int) as real * p.price
  }

  /** The stock value: the exact sum of quantity times price. */
  function SumValue(ps: seq<Product>): real
    decreases |ps|
  {
    if ps == [] then 0.0 else LineValue(ps[0]) + SumValue(ps[1..])
  }

  lemma {:induction false} SumValueConcat(a: seq<Product>, b: seq<Product>)
    ensures SumValue(a + b) == SumValue(a) + SumValue(b)
    decreases |a|
  {
    if a != [] {
      assert (a + b)[0] == a[0] && (a + b)[1..] == a[1..] + b;
      SumValueConcat(a[1..], b);
    } else {
      assert a + b == b;
    }
  }

  /** A store of well-formed products never has a negative stock value. */
  lemma {:induction false} SumValueNonNegative(ps: seq<Product>)
    ensures (forall i :: 0 <= i < |ps| ==> WellFormed(ps[i])) ==> SumValue(ps) >= 0.0
    decreases |ps|
  {
    if ps != [] {
      SumValueNonNegative(ps[1..]);
      if forall i :: 0 <= i < |ps| ==> WellFormed(ps[i]) {
        assert WellFormed(ps[0]);
        assert forall i :: 0 <= i < |ps[1..]| ==> ps[1..][i] == ps[i + 1];
      }
    }
  }

  /** Removing position i takes exactly that product's line out of the count
      and out of the value. */
  lemma RemoveAtStatistics(ps: seq<Product>, i: nat, t: int32)
    requires i < |ps|
    ensures SumValue(RemoveAt(ps, i)) == SumValue(ps) - LineValue(ps[i])
    ensures CountAtMost(RemoveAt(ps, i), t)
            == CountAtMost(ps, t) - (if ps[i].quantity <= t then 1 else 0)
  {
    assert ps == ps[..i] + ([ps[i]] + ps[i + 1..]);
    SumValueConcat(ps[..i], [ps[i]] + ps[i + 1..]);
    SumValueConcat([ps[i]], ps[i + 1..]);
    SumValueConcat(ps[..i], ps[i + 1..]);
    CountAtMostConcat(ps[..i], [ps[i]] + ps[i + 1..], t);
    CountAtMostConcat([ps[i]], ps[i + 1..], t);
    CountAtMostConcat(ps[..i], ps[i + 1..], t);
  }

  /** The store itself: the source's static PRODUCTS list and threshold. */
  class Store {
    var products: seq<Product>
    var lowStockThreshold: int32

    ghost predicate Valid()
      reads this
    {
      StoreInvariant(products) && lowStockThreshold >= 0
    }

    /** The state at class load: the seed products and threshold 5. */
    constructor ()
      ensures Valid()
      ensures products == SampleProducts() && lowStockThreshold == 5
    {
      products := SampleProducts();
      lowStockThreshold := 5;
    }

    method GetLowStockThreshold() returns (t: int32)
      requires Valid()
      ensures t == lowStockThreshold && t >= 0
    {
      t := lowStockThreshold;
    }

    method SetLowStockThreshold(v: int32)
      requires Valid()
      modifies this
      ensures Valid()
      ensures lowStockThreshold == AtLeastZero(v)
      ensures products == old(products)
    {
      lowStockThreshold := if v < 0 then 0 else v;
    }

    /** The linear scan for the first product with the given id. */
    method IndexOf(id: int32) returns (r: Option<nat>)
      ensures r == FirstIndex(products, id)
    {
      var i := 0;
      while i < |products|
        invariant 0 <= i <= |products|
        invariant forall j :: 0 <= j < i ==> products[j].id != id
      {
        if products[i].id == id {
          return Some(i);
        }
        i := i + 1;
      }
      r := None;
    }

    method Add(id: int32, name: Option<string>, qty: int32, price: real) returns (r: Outcome)
      requires Valid()
      modifies this
      ensures Valid() && lowStockThreshold == old(lowStockThreshold)
      ensures Validate(id, name, qty, price).Some? ==>
                r == Fail(Validate(id, name, qty, price).value) && products == old(products)
      ensures Validate(id, name, qty, price).None? && HasId(old(products), id) ==>
                r == Fail(DuplicateId) && products == old(products)
      ensures Validate(id, name, qty, price).None? && !HasId(old(products), id) ==>
                r == Pass && products == old(products) + [Product(id, name.value, qty, price)]
      ensures r == Pass ==>
                TotalCount() == old(TotalCount()) + 1
                && NewestItemName() == name.value
                && StockValue() == old(StockValue()) + (qty as int) as real * price
    {
      var v := Validate(id, name, qty, price);
      if v.Some? {
        return Fail(v.value);
      }
      var k := IndexOf(id);
      if k.Some? {
        return Fail(DuplicateId);
      }
      var p := Product(id, name.value, qty, price);
      SumValueConcat(products, [p]);
      products := products + [p];
      r := Pass;
    }

    method UpdateById(id: int32, name: Option<string>, qty: int32, price: real) returns (r: Outcome)
      requires Valid()
      modifies this
      ensures Valid() && lowStockThreshold == old(lowStockThreshold)
      ensures Validate(id, name, qty, price).Some? ==>
                r == Fail(Validate(id, name, qty, price).value) && products == old(products)
      ensures Validate(id, name, qty, price).None? && !HasId(old(products), id) ==>
                r == Fail(NotFound(id)) && products == old(products)
      ensures Validate(id, name, qty, price).None? && HasId(old(products), id) ==>
                r == Pass
                && products == old(products)[FirstIndex(old(products), id).value := Product(id, name.value, qty, price)]
    {
      var v := Validate(id, name, qty, price);
      if v.Some? {
        return Fail(v.value);
      }
      var k := IndexOf(id);
      if k.None? {
        return Fail(NotFound(id));
      }
      var p := Product(id, name.value, qty, price);
      ReplaceKeepsInvariant(products, k.value, p);
      products := products[k.value := p];
      r := Pass;
    }

    method DeleteById(id: int32) returns (r: Outcome)
      requires Valid()
      modifies this
      ensures Valid() && lowStockThreshold == old(lowStockThreshold)
      ensures !HasId(old(products), id) ==> r == Fail(NotFound(id)) && products == old(products)
      ensures HasId(old(products), id) ==>
                r == Pass && products == RemoveAt(old(products), FirstIndex(old(products), id).value)
      ensures r == Pass ==>
                !HasId(products, id)
                && TotalCount() == old(TotalCount()) - 1
                && StockValue() == old(StockValue()) - LineValue(old(products)[FirstIndex(old(products), id).value])
    {
      var k := IndexOf(id);
      if k.None? {
        return Fail(NotFound(id));
      }
      RemoveFoundKeepsInvariant(products, id);
      RemoveAtStatistics(products, k.value, lowStockThreshold);
      products := RemoveAt(products, k.value);
      r := Pass;
    }

    method ClearAll()
      requires Valid()
      modifies this
      ensures Valid() && lowStockThreshold == old(lowStockThreshold)
      ensures products == [] && TotalCount() == 0 && NewestItemName() == "-"
    {
      products := [];
    }

    method ResetSample()
      requires Valid()
      modifies this
      ensures Valid() && lowStockThreshold == old(lowStockThreshold)
      ensures products == SampleProducts()
    {
      products := SampleProducts();
    }

    function TotalCount(): nat
      reads this
    {
      |products|
    }

    /** `lowStockCount`: never more than the products there are, and the length
        of the low-stock listing. */
    function LowStockCount(): (n: nat)
      reads this
      ensures n <= TotalCount()
      ensures n == |LowStockItems(products, lowStockThreshold)|
    {
      LowStockCountIsFilterLength(products, lowStockThreshold);
      CountAtMost(products, lowStockThreshold)
    }

    function StockValue(): (v: real)
      reads this
      ensures Valid() ==> v >= 0.0
    {
      SumValueNonNegative(products);
      SumValue(products)
    }

    /** The name of the last product in the list, or "-" when it is empty;
        never blank in a valid store. */
    function NewestItemName(): (s: string)
      reads this
      ensures Valid() ==> !IsBlank(s)
    {
      assert !IsWhitespace("-"[0]);
      if products == [] then "-" else products[|products| - 1].name
    }
  }

  /** The seed store at threshold 5 has one low-stock product (Milk, 5). */
  lemma SampleLowStockAtFive()
    ensures CountAtMost(SampleProducts(), 5) == 1
    ensures LowStockItems(SampleProducts(), 5) == [Product(4, "Milk", 5, 3.0)]
  {
  }

  /** Client-side scenarios: what callers can conclude from the contracts.
      Seed data at threshold 5, then deleting an id that is not there. */
  method SeedScenario() {
    var s := new Store();
    s.SetLowStockThreshold(5);
    SampleLowStockAtFive();
    assert s.LowStockCount() == 1;
    var r := s.DeleteById(999);
    assert r == Fail(NotFound(999));
    assert s.products == SampleProducts();
  }

  /** From an empty store: two additions, then a duplicate id. */
  method AddScenario() {
    var s := new Store();
    s.ClearAll();
    var r := s.Add(1, Some("Apple"), 50, 1.5);
    assert !IsWhitespace("Apple"[0]);
    assert r == Pass;
    r := s.Add(2, Some("Banana"), 20, 1.0);
    assert !IsWhitespace("Banana"[0]);
    assert r == Pass;
    assert s.TotalCount() == 2 && s.StockValue() == 95.0 && s.NewestItemName() == "Banana";
    r := s.Add(2, Some("Cherry"), 1, 1.0);
    assert !IsWhitespace("Cherry"[0]);
    assert r == Fail(DuplicateId) && s.TotalCount() == 2;
  }
}
