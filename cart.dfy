/** The storefront cart: an ordered list of line items kept by one store object, changed
    by the add, quantity and remove controls, replaced by an empty list at checkout, and
    summarised as a total amount and an item count. */
module Cart {
  import opened Rupiah

  datatype Option<T> = None | Some(value: T)

  /** One line of the cart. The price is the parsed unit price in rupiah; the quantity is
      at least 1 for every item the store's own operations leave in the cart. */
  datatype LineItem = LineItem(id: string, name: string, price: nat, image: string, quantity: int)

  /** What the cart display shows besides the item rows: whether the "Your cart is empty"
      placeholder stands in for them, the total amount text and the item count text. */
  datatype Summary = Summary(emptyMessage: bool, totalText: string, countText: string)

  predicate HasId(cart: seq<LineItem>, id: string)
  {
    exists k :: 0 <= k < |cart| && cart[k].id == id
  }

  /** At most one line per product id. */
  predicate UniqueIds(cart: seq<LineItem>)
  {
    forall i, j :: 0 <= i < j < |cart| ==> cart[i].id != cart[j].id
  }

  predicate PositiveQuantities(cart: seq<LineItem>)
  {
    forall k :: 0 <= k < |cart| ==> cart[k].quantity >= 1
  }

  /** The invariant the cart operations keep. */
  predicate WellFormed(cart: seq<LineItem>)
  {
    UniqueIds(cart) && PositiveQuantities(cart)
  }

  /** `cart.findIndex(item => item.id === id)`: the first position holding `id`, or -1. */
  function FindIndex(cart: seq<LineItem>, id: string): (r: int)
    ensures -1 <= r < |cart|
    ensures r == -1 <==> !HasId(cart, id)
    ensures 0 <= r ==> cart[r].id == id && forall j :: 0 <= j < r ==> cart[j].id != id
  {
    if cart == [] then -1
    else if cart[0].id == id then 0
    else
      var r := FindIndex(cart[1..], id);
      if r == -1 then -1 else r + 1
  }

  /** The line with the given id, with its quantity one higher. */
  function Incremented(item: LineItem): LineItem
  {
    item.(quantity := item.quantity + 1)
  }

  /** The cart after `addToCart`: find-or-append. */
  function AddItem(cart: seq<LineItem>, id: string, name: string, price: nat, image: string): (r: seq<LineItem>)
    ensures HasId(cart, id) ==>
      |r| == |cart| &&
      forall j :: 0 <= j < |cart| ==>
        r[j] == if j == FindIndex(cart, id) then Incremented(cart[j]) else cart[j]
    ensures !HasId(cart, id) ==>
      |r| == |cart| + 1 && r[..|cart|] == cart && r[|cart|] == LineItem(id, name, price, image, 1)
  {
    var k := FindIndex(cart, id);
    if k != -1 then cart[k := Incremented(cart[k])]
    else cart + [LineItem(id, name, price, image, 1)]
  }

  /** `cart.splice(index, 1)`: the line at `index` leaves, the rest keep their order. */
  function Splice(cart: seq<LineItem>, index: nat): (r: seq<LineItem>)
    requires index < |cart|
    ensures |r| == |cart| - 1
    ensures forall j :: 0 <= j < index ==> r[j] == cart[j]
    ensures forall j :: index <= j < |r| ==> r[j] == cart[j + 1]
    ensures multiset(r) + multiset{cart[index]} == multiset(cart)
  {
    assert cart == cart[..index] + [cart[index]] + cart[index + 1..];
    cart[..index] + cart[index + 1..]
  }

  /** The cart after `updateQuantity(index, change)`: the line's quantity moves by `change`,
      and a line whose quantity reaches 0 or less is spliced out. */
  function ChangeQuantity(cart: seq<LineItem>, index: nat, change: int): (r: seq<LineItem>)
    requires index < |cart|
    ensures cart[index].quantity + change <= 0 ==> r == Splice(cart, index)
    ensures cart[index].quantity + change > 0 ==>
      |r| == |cart| &&
      r[index] == cart[index].(quantity := cart[index].quantity + change) &&
      forall j :: 0 <= j < |cart| && j != index ==> r[j] == cart[j]
  {
    var q := cart[index].quantity + change;
    if q <= 0 then Splice(cart, index) else cart[index := cart[index].(quantity := q)]
  }

  /** `cart.reduce((sum, item) => sum + item.price * item.quantity, 0)`. */
  function Total(cart: seq<LineItem>): (r: int)
    ensures PositiveQuantities(cart) ==> r >= 0
  {
    if cart == [] then 0
    else Total(cart[..|cart| - 1]) + cart[|cart| - 1].price * cart[|cart| - 1].quantity
  }

  /** `cart.reduce((sum, item) => sum + item.quantity, 0)`. */
  function Count(cart: seq<LineItem>): (r: int)
    ensures PositiveQuantities(cart) ==> r >= |cart|
  {
    if cart == [] then 0 else Count(cart[..|cart| - 1]) + cart[|cart| - 1].quantity
  }

  /** What `updateCartDisplay` and `updateCartTotal` show: the placeholder and fixed texts
      for an empty cart, otherwise the formatted total and the item count. */
  function CartSummary(cart: seq<LineItem>): (s: Summary)
    ensures s.emptyMessage <==> cart == []
    ensures |s.totalText| > 3 && s.totalText[..3] == "Rp "
    ensures PositiveQuantities(cart) ==>
      AllDigits(s.countText) && ValueOf(s.countText) == Count(cart) &&
      |s.countText| >= 1 && (s.countText[0] == '0' <==> cart == [])
    ensures cart == [] ==> s.countText == "0"
  {
    if |cart| == 0 then Summary(true, "Rp 0", "0")
    else Summary(false, FormatRupiah(Total(cart)), NumberText(Count(cart)))
  }

  /** Both reductions distribute over concatenation, so they do not depend on where the
      fold starts: they are the plain sums over the items. */
  lemma {:induction false} SumsConcat(a: seq<LineItem>, b: seq<LineItem>)
    ensures Total(a + b) == Total(a) + Total(b)
    ensures Count(a + b) == Count(a) + Count(b)
    decreases |b|
  {
    if b == [] {
      assert a + b == a;
    } else {
      var b' := b[..|b| - 1];
      assert (a + b)[..|a + b| - 1] == a + b';
      assert (a + b)[|a + b| - 1] == b[|b| - 1];
      SumsConcat(a, b');
    }
  }

  /** The share of the line at `index` in the total and the count. */
  lemma SumsAt(cart: seq<LineItem>, index: nat)
    requires index < |cart|
    ensures Total(cart) == Total(cart[..index]) + cart[index].price * cart[index].quantity + Total(cart[index + 1..])
    ensures Count(cart) == Count(cart[..index]) + cart[index].quantity + Count(cart[index + 1..])
  {
    var pre, post := cart[..index], cart[index + 1..];
    assert cart == (pre + [cart[index]]) + post;
    SumsConcat(pre + [cart[index]], post);
    SumsConcat(pre, [cart[index]]);
  }

  /** Replacing one line changes the sums by that line's difference only. */
  lemma SumsReplace(cart: seq<LineItem>, index: nat, item: LineItem)
    requires index < |cart|
    ensures Total(cart[index := item]) == Total(cart) - cart[index].price * cart[index].quantity + item.price * item.quantity
    ensures Count(cart[index := item]) == Count(cart) - cart[index].quantity + item.quantity
  {
    var r := cart[index := item];
    assert r[..index] == cart[..index] && r[index + 1..] == cart[index + 1..];
    SumsAt(cart, index);
    SumsAt(r, index);
  }

  /** Splicing a line out takes exactly its amount off the total and its quantity off the count. */
  lemma SumsAfterSplice(cart: seq<LineItem>, index: nat)
    requires index < |cart|
    ensures Total(Splice(cart, index)) == Total(cart) - cart[index].price * cart[index].quantity
    ensures Count(Splice(cart, index)) == Count(cart) - cart[index].quantity
  {
    SumsAt(cart, index);
    SumsConcat(cart[..index], cart[index + 1..]);
  }

  // Arithmetic step only, kept apart so that the sum proofs stay cheap for the solver.
  lemma Distribute(p: int, q: int, c: int)
    ensures p * (q + c) == p * q + p * c
  {
  }

  /** Raising one line's quantity by one adds its unit price to the total. */
  lemma SumsAfterIncrement(cart: seq<LineItem>, k: nat)
    requires k < |cart|
    ensures Total(cart[k := Incremented(cart[k])]) == Total(cart) + cart[k].price
    ensures Count(cart[k := Incremented(cart[k])]) == Count(cart) + 1
  {
    Distribute(cart[k].price, cart[k].quantity, 1);
    SumsReplace(cart, k, Incremented(cart[k]));
  }

  /** Moving one line's quantity by `change` moves the total by its unit price times `change`. */
  lemma SumsAfterRequantify(cart: seq<LineItem>, k: nat, change: int)
    requires k < |cart|
    ensures var r := cart[k := cart[k].(quantity := cart[k].quantity + change)];
      Total(r) == Total(cart) + cart[k].price * change && Count(r) == Count(cart) + change
  {
    Distribute(cart[k].price, cart[k].quantity, change);
    SumsReplace(cart, k, cart[k].(quantity := cart[k].quantity + change));
  }

  /** Adding a product raises the count by one and the total by the unit price of the line
      it lands on: the stored line's price when the id is already there, else the new price. */
  lemma SumsAfterAdd(cart: seq<LineItem>, id: string, name: string, price: nat, image: string)
    ensures Count(AddItem(cart, id, name, price, image)) == Count(cart) + 1
    ensures Total(AddItem(cart, id, name, price, image)) ==
      Total(cart) + (if HasId(cart, id) then cart[FindIndex(cart, id)].price else price)
  {
    var k := FindIndex(cart, id);
    var r := AddItem(cart, id, name, price, image);
    if k != -1 {
      assert r == cart[k := Incremented(cart[k])];
      SumsAfterIncrement(cart, k);
    } else {
      var added := LineItem(id, name, price, image, 1);
      assert r == cart + [added];
      assert Total([added]) == price && Count([added]) == 1 by {
        assert [added][..0] == [];
      }
      SumsConcat(cart, [added]);
    }
  }

  /** Changing a quantity moves the count by `change`, unless the line is spliced out, in
      which case its whole quantity leaves the count; the total moves accordingly. */
  lemma SumsAfterChange(cart: seq<LineItem>, index: nat, change: int)
    requires index < |cart|
    ensures cart[index].quantity + change <= 0 ==>
      Count(ChangeQuantity(cart, index, change)) == Count(cart) - cart[index].quantity &&
      Total(ChangeQuantity(cart, index, change)) == Total(cart) - cart[index].price * cart[index].quantity
    ensures cart[index].quantity + change > 0 ==>
      Count(ChangeQuantity(cart, index, change)) == Count(cart) + change &&
      Total(ChangeQuantity(cart, index, change)) == Total(cart) + cart[index].price * change
  {
    if cart[index].quantity + change <= 0 {
      SumsAfterSplice(cart, index);
    } else {
      SumsAfterRequantify(cart, index, change);
    }
  }

  /** Adding an id already in a well-formed cart raises only that line's quantity, by one. */
  lemma AddExisting(cart: seq<LineItem>, k: nat, name: string, price: nat, image: string)
    requires UniqueIds(cart) && k < |cart|
    ensures var r := AddItem(cart, cart[k].id, name, price, image);
      |r| == |cart| && r[k] == Incremented(cart[k]) &&
      forall j :: 0 <= j < |cart| && j != k ==> r[j] == cart[j]
  {
  }

  /** `addToCart` keeps ids unique and quantities positive. */
  lemma AddPreservesWellFormed(cart: seq<LineItem>, id: string, name: string, price: nat, image: string)
    requires WellFormed(cart)
    ensures WellFormed(AddItem(cart, id, name, price, image))
  {
    var r := AddItem(cart, id, name, price, image);
    if !HasId(cart, id) {
      forall i, j | 0 <= i < j < |r| ensures r[i].id != r[j].id {
        if j == |cart| {
          assert r[i] == cart[i];
        }
      }
    }
  }

  /** Splicing a line out of a well-formed cart leaves it well-formed. */
  lemma SplicePreservesWellFormed(cart: seq<LineItem>, index: nat)
    requires WellFormed(cart) && index < |cart|
    ensures WellFormed(Splice(cart, index))
  {
    var r := Splice(cart, index);
    forall i, j | 0 <= i < j < |r| ensures r[i].id != r[j].id {
      var i', j' := if i < index then i else i + 1, if j < index then j else j + 1;
      assert r[i] == cart[i'] && r[j] == cart[j'];
    }
  }

  /** `updateQuantity` never leaves a line with quantity 0 or less, and keeps ids unique. */
  lemma ChangePreservesWellFormed(cart: seq<LineItem>, index: nat, change: int)
    requires WellFormed(cart) && index < |cart|
    ensures WellFormed(ChangeQuantity(cart, index, change))
  {
    if cart[index].quantity + change <= 0 {
      SplicePreservesWellFormed(cart, index);
    }
  }

  /** The placeholder shows exactly when the cart is empty, and the fixed empty-cart texts
      are what the general formula gives: an empty cart totals 0, shown "Rp 0", and counts
      0, shown "0". */
  lemma SummaryOfAnyCart(cart: seq<LineItem>)
    ensures CartSummary(cart) == Summary(cart == [], FormatRupiah(Total(cart)), NumberText(Count(cart)))
  {
    if cart == [] {
      FormatRupiahSmall(0);
    }
  }

  /** Adding the same product twice gives one line of quantity two; at 50000 each the total
      is 100000, shown "Rp 100.000", and the count is 2. */
  lemma AddTwiceScenario(image: string)
    ensures var c := AddItem(AddItem([], "p1", "Shirt", 50000, image), "p1", "Shirt", 50000, image);
      c == [LineItem("p1", "Shirt", 50000, image, 2)] && Total(c) == 100000 && Count(c) == 2 &&
      CartSummary(c) == Summary(false, "Rp 100.000", "2")
  {
    var c1 := AddItem([], "p1", "Shirt", 50000, image);
    assert c1 == [LineItem("p1", "Shirt", 50000, image, 1)];
    assert FindIndex(c1, "p1") == 0;
    var c := AddItem(c1, "p1", "Shirt", 50000, image);
    assert c == [LineItem("p1", "Shirt", 50000, image, 2)];
    assert Total(c) == 100000 by {
      assert c[..0] == [];
    }
    FormatRupiahHundredThousand();
    assert Digits(2) == "2";
  }

  /** Two products, then removing the first: only the second remains and the total is its price. */
  lemma RemoveFirstScenario(image1: string, image2: string)
    ensures var c := Splice(AddItem(AddItem([], "p1", "A", 25000, image1), "p2", "B", 75000, image2), 0);
      c == [LineItem("p2", "B", 75000, image2, 1)] && Total(c) == 75000
  {
    var c1 := AddItem([], "p1", "A", 25000, image1);
    assert c1 == [LineItem("p1", "A", 25000, image1, 1)];
    assert !HasId(c1, "p2");
    var c2 := AddItem(c1, "p2", "B", 75000, image2);
    assert c2 == [LineItem("p1", "A", 25000, image1, 1), LineItem("p2", "B", 75000, image2, 1)];
    var c := Splice(c2, 0);
    assert c == [LineItem("p2", "B", 75000, image2, 1)];
    assert Total(c) == 75000 by {
      assert c[..0] == [];
    }
  }

  /** The cart state of the page: the line items, loaded once from storage, changed in
      place by the handlers of the add, plus, minus and remove controls, and replaced by a
      new empty list by the checkout control. */
  class CartStore {
    var items: seq<LineItem>

    /** `JSON.parse(localStorage.getItem("cart")) || []`, given the already parsed stored
        value; `None` stands for a missing key. */
    constructor (stored: Option<seq<LineItem>>)
      ensures items == if stored.Some? then stored.value else []
    {
      items := if stored.Some? then stored.value else [];
    }

    /** The cart part of `addToCart`. */
    method AddToCart(id: string, name: string, price: nat, image: string)
      modifies this
      ensures items == AddItem(old(items), id, name, price, image)
      ensures Count(items) == old(Count(items)) + 1
      ensures old(WellFormed(items)) ==> WellFormed(items)
    {
      ghost var before := items;
      var existingIndex := FindIndex(items, id);
      if existingIndex != -1 {
        items := items[existingIndex := items[existingIndex].(quantity := items[existingIndex].quantity + 1)];
      } else {
        items := items + [LineItem(id, name, price, image, 1)];
      }
      SumsAfterAdd(before, id, name, price, image);
      if WellFormed(before) {
        AddPreservesWellFormed(before, id, name, price, image);
      }
    }

    /** `updateQuantity(index, change)`: first the quantity moves, then a line at 0 or
        below is spliced out. */
    method UpdateQuantity(index: nat, change: int)
      requires index < |items|
      modifies this
      ensures items == ChangeQuantity(old(items), index, change)
      ensures old(WellFormed(items)) ==> WellFormed(items)
    {
      ghost var before := items;
      items := items[index := items[index].(quantity := items[index].quantity + change)];
      if items[index].quantity <= 0 {
        items := items[..index] + items[index + 1..];
      }
      if WellFormed(before) {
        ChangePreservesWellFormed(before, index, change);
      }
    }

    /** `removeItem(index)`. */
    method RemoveItem(index: nat)
      requires index < |items|
      modifies this
      ensures items == Splice(old(items), index)
      ensures Total(items) == old(Total(items)) - old(items[index].price * items[index].quantity)
      ensures Count(items) == old(Count(items)) - old(items[index].quantity)
      ensures old(WellFormed(items)) ==> WellFormed(items)
    {
      ghost var before := items;
      items := items[..index] + items[index + 1..];
      SumsAfterSplice(before, index);
      if WellFormed(before) {
        SplicePreservesWellFormed(before, index);
      }
    }

    /** The checkout handler: whatever was in the cart, it is empty afterwards. */
    method Checkout()
      modifies this
      ensures items == []
      ensures Total(items) == 0 && Count(items) == 0
      ensures CartSummary(items) == Summary(true, "Rp 0", "0")
    {
      items := [];
    }
  }
}
