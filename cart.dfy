/**
 * The shopping cart page of the campaign shop: quantity buttons, removal,
 * emptying the cart, and the subtotal, shipping and total shown.
 */
module Cart {
  import opened Seqs

  datatype CartItem = CartItem(id: string, name: string, price: int, quantity: int, options: Option<string>)

  const InitialCartItems: seq<CartItem> := [
    CartItem("1", "후보자 어깨띠", 15000, 2, Some("이름 인쇄: 홍길동")),
    CartItem("2", "유세 조끼", 35000, 3, Some("사이즈: L, 로고 인쇄 포함")),
    CartItem("4", "손피켓 세트 (10개)", 25000, 2, Some("맞춤 디자인"))
  ]

  /** Orders of at least this much ship free. */
  const FreeShippingFrom := 100000
  const ShippingFee := 3000

  function Max(a: int, b: int): int {
    if a >= b then a else b
  }

  /** `handleQuantityChange(id, delta)`: the quantity moves by `delta` but not below 1. */
  function ChangeQuantity(items: seq<CartItem>, id: string, delta: int): (r: seq<CartItem>)
    ensures |r| == |items|
    ensures forall i :: 0 <= i < |items| && items[i].id == id ==>
      r[i] == items[i].(quantity := Max(1, items[i].quantity + delta)) && r[i].quantity >= 1
    ensures forall i :: 0 <= i < |items| && items[i].id != id ==> r[i] == items[i]
  {
    UpdateWhere(items, (c: CartItem) => c.id == id, (c: CartItem) => c.(quantity := Max(1, c.quantity + delta)))
  }

  function WithId(id: string): CartItem -> bool {
    (c: CartItem) => c.id == id
  }

  function OtherThan(id: string): CartItem -> bool {
    (c: CartItem) => c.id != id
  }

  /** `handleRemove(id)`. */
  function Remove(items: seq<CartItem>, id: string): (r: seq<CartItem>)
    ensures forall c :: c in r <==> c in items && c.id != id
  {
    Filter(items, OtherThan(id))
  }

  function LineTotal(c: CartItem): int {
    c.price * c.quantity
  }

  /**
   * `subtotal`: price times quantity, added up; nothing for an empty cart,
   * and never negative when no price or quantity is.
   */
  function Subtotal(items: seq<CartItem>): (s: int)
    ensures items == [] ==> s == 0
    ensures (forall c :: c in items ==> c.price >= 0 && c.quantity >= 0) ==> s >= 0
  {
    SubtotalNonNegative(items);
    SumOf(items, LineTotal)
  }

  lemma {:induction false} SubtotalNonNegative(items: seq<CartItem>)
    ensures (forall c :: c in items ==> c.price >= 0 && c.quantity >= 0) ==> SumOf(items, LineTotal) >= 0
  {
    if items != [] && forall c :: c in items ==> c.price >= 0 && c.quantity >= 0 {
      assert forall c :: c in items[1..] ==> c in items;
      SubtotalNonNegative(items[1..]);
      MulNonNegative(items[0].price, items[0].quantity);
    }
  }

  lemma MulNonNegative(a: int, b: int)
    requires a >= 0 && b >= 0
    ensures a * b >= 0
  {
  }

  /** `shipping`. */
  function Shipping(subtotal: int): (fee: int)
    ensures fee == 0 <==> subtotal >= FreeShippingFrom
    ensures fee == 0 || fee == ShippingFee
  {
    if subtotal >= FreeShippingFrom then 0 else ShippingFee
  }

  /** `total`. */
  function Total(items: seq<CartItem>): (t: int)
    ensures t == Subtotal(items) + Shipping(Subtotal(items))
    ensures t >= FreeShippingFrom || t == Subtotal(items) + ShippingFee
  {
    Subtotal(items) + Shipping(Subtotal(items))
  }

  /** The starting cart costs 15000·2 + 35000·3 + 25000·2 = 185000 and ships free. */
  lemma InitialTotals()
    ensures Subtotal(InitialCartItems) == 185000
    ensures Total(InitialCartItems) == 185000
  {
    assert InitialCartItems[1..][1..][1..] == [];
  }

  /**
   * Removing an item takes exactly its lines off the subtotal: what stays
   * and what goes add up to the subtotal before.
   */
  lemma RemoveSplitsSubtotal(items: seq<CartItem>, id: string)
    ensures Subtotal(items) == Subtotal(Remove(items, id)) + Subtotal(Filter(items, WithId(id)))
  {
    SumOfFilterSplit(items, OtherThan(id), WithId(id), LineTotal);
  }

  /** With prices that are not negative, the plus button never lowers the subtotal. */
  lemma IncreaseRaisesSubtotal(items: seq<CartItem>, id: string, delta: nat)
    requires forall c :: c in items ==> c.price >= 0
    ensures Subtotal(ChangeQuantity(items, id, delta)) >= Subtotal(items)
  {
    var hit := (c: CartItem) => c.id == id && c.price >= 0;
    var g := (c: CartItem) => c.(quantity := Max(1, c.quantity + delta));
    forall x | hit(x) ensures LineTotal(g(x)) >= LineTotal(x) {
      assert g(x).quantity >= x.quantity;
      MulMonoNat(x.price, x.quantity, g(x).quantity);
    }
    SumOfUpdateMono(items, hit, g, LineTotal);
    assert UpdateWhere(items, hit, g) == ChangeQuantity(items, id, delta);
  }

  lemma MulMonoNat(k: int, a: int, b: int)
    requires k >= 0 && a <= b
    ensures k * a <= k * b
  {
    assert k * b - k * a == k * (b - a);
  }

  class CartPage {
    var cartItems: seq<CartItem>

    /** Every quantity is at least 1. */
    ghost predicate Valid()
      reads this
    {
      forall i :: 0 <= i < |cartItems| ==> cartItems[i].quantity >= 1
    }

    constructor ()
      ensures Valid() && cartItems == InitialCartItems
    {
      cartItems := InitialCartItems;
    }

    method HandleQuantityChange(id: string, delta: int)
      requires Valid()
      modifies this
      ensures Valid()
      ensures cartItems == ChangeQuantity(old(cartItems), id, delta)
    {
      cartItems := ChangeQuantity(cartItems, id, delta);
    }

    method HandleRemove(id: string)
      requires Valid()
      modifies this
      ensures Valid()
      ensures cartItems == Remove(old(cartItems), id)
    {
      cartItems := Remove(cartItems, id);
    }

    /** `handleClearCart()`; `confirmed` is the user's answer to the confirmation dialog. */
    method HandleClearCart(confirmed: bool)
      requires Valid()
      modifies this
      ensures Valid()
      ensures cartItems == if confirmed then [] else old(cartItems)
    {
      if confirmed {
        cartItems := [];
      }
    }
  }
}
