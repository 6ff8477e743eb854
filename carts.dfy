/**
 * The session carts of store/views/cart.py and store/views/index.py.
 *
 * A cart is a Python dict from product id to quantity; dicts keep insertion order, so a
 * cart is modelled as a sequence of entries with unique ids. Assigning to a present key
 * keeps its position, assigning to an absent key appends, and deleting closes the gap.
 */
module Carts {
  import opened Common

  datatype Entry = Entry(id: nat, qty: nat)

  type Cart = seq<Entry>

  /** No product id occurs twice: the cart is a dict. */
  predicate WellFormed(c: Cart) {
    forall i, j :: 0 <= i < j < |c| ==> c[i].id != c[j].id
  }

  /** Every quantity is at least 1. */
  predicate AllPositive(c: Cart) {
    forall e :: e in c ==> e.qty >= 1
  }

  /** The keys of the dict, in insertion order. */
  function Ids(c: Cart): (r: seq<nat>)
    ensures |r| == |c|
    ensures forall i :: 0 <= i < |c| ==> r[i] == c[i].id
  {
    if c == [] then [] else [c[0].id] + Ids(c[1..])
  }

  /** `cart.get(id)`. */
  function Get(c: Cart, id: nat): (r: Option<nat>)
    ensures r.Some? ==> Entry(id, r.value) in c
    ensures r.None? ==> forall e :: e in c ==> e.id != id
  {
    if c == [] then None
    else if c[0].id == id then Some(c[0].qty)
    else Get(c[1..], id)
  }

  /** In a well-formed cart the value stored under an entry's id is that entry's quantity. */
  lemma {:induction false} GetAt(c: Cart, i: nat)
    requires WellFormed(c) && i < |c|
    ensures Get(c, c[i].id) == Some(c[i].qty)
  {
    if i > 0 {
      assert c[1..][i - 1] == c[i];
      GetAt(c[1..], i - 1);
    }
  }

  /** `cart[id] = q`: overwrite in place when present, append when absent. */
  function Put(c: Cart, id: nat, q: nat): (r: Cart)
    ensures Get(r, id) == Some(q)
    ensures forall other :: other != id ==> Get(r, other) == Get(c, other)
    ensures forall e :: e in r ==> e == Entry(id, q) || e in c
  {
    if c == [] then [Entry(id, q)]
    else if c[0].id == id then [Entry(id, q)] + c[1..]
    else [c[0]] + Put(c[1..], id, q)
  }

  /** Assigning a key keeps the dict a dict. */
  lemma {:induction false} PutWellFormed(c: Cart, id: nat, q: nat)
    requires WellFormed(c)
    ensures WellFormed(Put(c, id, q))
  {
    if c != [] && c[0].id != id {
      var rest := Put(c[1..], id, q);
      PutWellFormed(c[1..], id, q);
      forall e | e in rest
        ensures e.id != c[0].id
      {
        if e in c[1..] {
          var k :| 0 <= k < |c[1..]| && c[1..][k] == e;
          assert c[k + 1] == e;
        }
      }
      assert Put(c, id, q) == [c[0]] + rest;
    }
  }

  /**
   * Assigning a present key leaves the key order alone; assigning an absent key appends
   * it at the end.
   */
  lemma {:induction false} PutOrder(c: Cart, id: nat, q: nat)
    ensures Ids(Put(c, id, q)) == if Get(c, id).Some? then Ids(c) else Ids(c) + [id]
  {
    if c == [] {
      IdsCons(Entry(id, q), []);
    } else {
      IdsCons(c[0], c[1..]);
      assert c == [c[0]] + c[1..];
      if c[0].id == id {
        IdsCons(Entry(id, q), c[1..]);
      } else {
        PutOrder(c[1..], id, q);
        IdsCons(c[0], Put(c[1..], id, q));
        assert Get(c, id) == Get(c[1..], id);
        if Get(c, id).None? {
          assert [c[0].id] + (Ids(c[1..]) + [id]) == [c[0].id] + Ids(c[1..]) + [id];
        }
      }
    }
  }

  /** The keys of a cart with one more entry in front. */
  lemma IdsCons(e: Entry, c: Cart)
    ensures Ids([e] + c) == [e.id] + Ids(c)
  {
    assert ([e] + c)[1..] == c;
  }

  /** `del cart[id]` / `cart.pop(id)`: drop the entry, keep the order of the rest. */
  function Without(c: Cart, id: nat): (r: Cart)
    ensures Get(r, id) == None
    ensures forall other :: other != id ==> Get(r, other) == Get(c, other)
    ensures forall e :: e in r ==> e in c
    ensures Get(c, id).None? ==> r == c
  {
    if c == [] then []
    else if c[0].id == id then Without(c[1..], id)
    else [c[0]] + Without(c[1..], id)
  }

  /** Deleting a key keeps the dict a dict. */
  lemma {:induction false} WithoutWellFormed(c: Cart, id: nat)
    requires WellFormed(c)
    ensures WellFormed(Without(c, id))
  {
    if c != [] {
      var rest := Without(c[1..], id);
      WithoutWellFormed(c[1..], id);
      if c[0].id != id {
        forall e | e in rest
          ensures e.id != c[0].id
        {
          var k :| 0 <= k < |c[1..]| && c[1..][k] == e;
          assert c[k + 1] == e;
        }
      }
    }
  }

  /** Deleting a key keeps the other keys in their order. */
  lemma {:induction false} WithoutOrder(c: Cart, id: nat)
    ensures Ids(Without(c, id)) == RemoveId(Ids(c), id)
  {
    if c != [] {
      WithoutOrder(c[1..], id);
      assert Ids(c) == [c[0].id] + Ids(c[1..]);
      if c[0].id != id {
        assert Ids(Without(c, id)) == [c[0].id] + Ids(Without(c[1..], id));
      }
    }
  }

  /** The subsequence of s without the occurrences of x. */
  function RemoveId(s: seq<nat>, x: nat): seq<nat>
  {
    if s == [] then [] else (if s[0] == x then [] else [s[0]]) + RemoveId(s[1..], x)
  }

  /** The quantity `AddToCart` stores: one more than before, or 1 for a new product. */
  function Added(c: Cart, id: nat): (r: Cart)
    requires WellFormed(c)
    ensures Get(r, id) == Some(match Get(c, id) case Some(q) => q + 1 case None => 1)
    ensures forall other :: other != id ==> Get(r, other) == Get(c, other)
    ensures WellFormed(r)
    ensures AllPositive(c) ==> AllPositive(r)
  {
    var q := match Get(c, id) case Some(n) => n + 1 case None => 1;
    PutWellFormed(c, id, q);
    Put(c, id, q)
  }

  /** `DecreaseCartItem`: one less while above 1, otherwise the entry goes; absent ids are left alone. */
  function Decreased(c: Cart, id: nat): (r: Cart)
    requires WellFormed(c)
    ensures Get(c, id).None? ==> r == c
    ensures Get(c, id).Some? && Get(c, id).value > 1 ==> Get(r, id) == Some(Get(c, id).value - 1)
    ensures Get(c, id).Some? && Get(c, id).value <= 1 ==> Get(r, id) == None
    ensures forall other :: other != id ==> Get(r, other) == Get(c, other)
    ensures WellFormed(r)
    ensures AllPositive(c) ==> AllPositive(r)
  {
    match Get(c, id)
    case None => c
    case Some(q) =>
      if q > 1 then PutWellFormed(c, id, q - 1); Put(c, id, q - 1)
      else WithoutWellFormed(c, id); Without(c, id)
  }

  /**
   * `Index.post`'s toggle: a product with a truthy quantity is incremented, or with the
   * remove flag decremented (dropped at 1 or below); a product without one is set to 1,
   * remove flag or not.
   */
  function Toggled(c: Cart, id: nat, remove: bool): (r: Cart)
    ensures Get(r, id).None? <==> remove && Get(c, id) == Some(1)
    ensures forall other :: other != id ==> Get(r, other) == Get(c, other)
  {
    var q := Get(c, id);
    if q.Some? && q.value != 0 then
      if remove then
        if q.value <= 1 then Without(c, id) else Put(c, id, q.value - 1)
      else Put(c, id, q.value + 1)
    else Put(c, id, 1)
  }

  /** The toggle keeps the dict a dict. */
  lemma ToggledWellFormed(c: Cart, id: nat, remove: bool)
    requires WellFormed(c)
    ensures WellFormed(Toggled(c, id, remove))
  {
    var q := Get(c, id);
    if q.Some? && q.value != 0 {
      if remove {
        if q.value <= 1 {
          WithoutWellFormed(c, id);
        } else {
          PutWellFormed(c, id, q.value - 1);
        }
      } else {
        PutWellFormed(c, id, q.value + 1);
      }
    } else {
      PutWellFormed(c, id, 1);
    }
  }

  /**
   * The toggle's effect on quantities: a truthy quantity goes up by one, or down by one
   * with the remove flag (the entry goes at 1); a missing or zero entry becomes 1; other
   * products keep theirs, and positive quantities stay positive.
   */
  lemma ToggledValues(c: Cart, id: nat, remove: bool)
    ensures var r := Toggled(c, id, remove);
      && ((Get(c, id).None? || Get(c, id) == Some(0)) ==> Get(r, id) == Some(1))
      && (Get(c, id).Some? && Get(c, id).value != 0 && !remove ==> Get(r, id) == Some(Get(c, id).value + 1))
      && (Get(c, id).Some? && Get(c, id).value > 1 && remove ==> Get(r, id) == Some(Get(c, id).value - 1))
      && (Get(c, id) == Some(1) && remove ==> Get(r, id) == None)
      && (forall other :: other != id ==> Get(r, other) == Get(c, other))
      && (AllPositive(c) ==> AllPositive(r))
  {
  }

  /** The in-place update of `Index.post` on the toggle cart. */
  method ToggleEntry(c: Cart, product: nat, remove: bool) returns (cart: Cart)
    ensures cart == Toggled(c, product, remove)
  {
    cart := c;
    var q := Get(cart, product);
    if q.Some? && q.value != 0 {
      if remove {
        if q.value <= 1 {
          cart := Without(cart, product);
        } else {
          cart := Put(cart, product, q.value - 1);
        }
      } else {
        cart := Put(cart, product, q.value + 1);
      }
    } else {
      cart := Put(cart, product, 1);
    }
  }

  /** The session key `Index.post` keeps its cart under. */
  const IndexCartKey: string := "cart"

  /**
   * The session key of the cart views: "cart_" and the logged-in customer's id, or
   * "cart_anonymous" when no customer is in the session.
   */
  function CartKey(customer: Option<nat>): (k: string)
    ensures |k| > 5 && k[..5] == "cart_"
    ensures IsDigit(k[5]) <==> customer.Some?
    ensures customer.None? ==> k == "cart_anonymous"
    ensures customer.Some? ==> k[5..] == NatToString(customer.value)
  {
    "cart_" + match customer case None => "anonymous" case Some(id) => NatToString(id)
  }

  /** Carts are never shared: different session identities get different keys. */
  lemma CartKeysDistinct(a: Option<nat>, b: Option<nat>)
    requires CartKey(a) == CartKey(b)
    ensures a == b
  {
    if a.Some? && b.Some? {
      NatToStringInjective(a.value, b.value);
    }
  }

  /** The toggle cart of `Index.post` never shares a key with the cart views' carts. */
  lemma IndexCartSeparate(customer: Option<nat>)
    ensures CartKey(customer) != IndexCartKey
  {
    assert |CartKey(customer)| > |IndexCartKey|;
  }

  /**
   * The part of a session the cart views use: the logged-in customer's id and the
   * session entries that hold carts, by session key.
   */
  class Session {
    var customer: Option<nat>
    var carts: map<string, Cart>

    ghost predicate Valid()
      reads this
    {
      forall k :: k in carts ==> WellFormed(carts[k])
    }

    constructor (customer: Option<nat>, carts: map<string, Cart>)
      requires forall k :: k in carts ==> WellFormed(carts[k])
      ensures Valid() && this.customer == customer && this.carts == carts
    {
      this.customer := customer;
      this.carts := carts;
    }

    /** The key of the current identity's cart. */
    function Key(): string
      reads this
    {
      CartKey(customer)
    }

    /** `request.session.get(cart_key, {})`. */
    function Current(): (c: Cart)
      reads this
      requires Valid()
      ensures WellFormed(c)
    {
      if Key() in carts then carts[Key()] else []
    }

    /** `AddToCart.post`: a missing product value changes nothing. */
    method AddToCart(product: Option<nat>)
      requires Valid()
      modifies this
      ensures Valid() && customer == old(customer)
      ensures product.None? ==> carts == old(carts)
      ensures product.Some? ==> carts == old(carts)[old(Key()) := Added(old(Current()), product.value)]
    {
      if product.None? {
        return;
      }
      var id := product.value;
      var key := Key();
      var cart := Current();
      var q := match Get(cart, id) case Some(n) => n case None => 0;
      PutWellFormed(cart, id, q + 1);
      cart := Put(cart, id, q + 1);
      carts := carts[key := cart];
    }

    /** `DecreaseCartItem.post`: the session is written only when the product is in the cart. */
    method DecreaseCartItem(product: Option<nat>)
      requires Valid()
      modifies this
      ensures Valid() && customer == old(customer)
      ensures product.None? || Get(old(Current()), product.value).None? ==> carts == old(carts)
      ensures product.Some? && Get(old(Current()), product.value).Some? ==>
        carts == old(carts)[old(Key()) := Decreased(old(Current()), product.value)]
    {
      if product.None? {
        return;
      }
      var id := product.value;
      var key := Key();
      var cart := Current();
      if Get(cart, id).Some? {
        var q := Get(cart, id).value;
        if q > 1 {
          PutWellFormed(cart, id, q - 1);
          cart := Put(cart, id, q - 1);
        } else {
          WithoutWellFormed(cart, id);
          cart := Without(cart, id);
        }
        carts := carts[key := cart];
      }
    }

    /** `RemoveFromCart.post`: the entry goes entirely; absent products leave the session alone. */
    method RemoveFromCart(product: Option<nat>)
      requires Valid()
      modifies this
      ensures Valid() && customer == old(customer)
      ensures product.None? || Get(old(Current()), product.value).None? ==> carts == old(carts)
      ensures product.Some? && Get(old(Current()), product.value).Some? ==>
        carts == old(carts)[old(Key()) := Without(old(Current()), product.value)]
    {
      if product.None? {
        return;
      }
      var id := product.value;
      var key := Key();
      var cart := Current();
      if Get(cart, id).Some? {
        WithoutWellFormed(cart, id);
        cart := Without(cart, id);
        carts := carts[key := cart];
      }
    }

    /** `Index.post`: toggles the product in the cart kept under the plain "cart" key. */
    method IndexToggle(product: nat, remove: bool)
      requires Valid()
      modifies this
      ensures Valid() && customer == old(customer)
      ensures var before := if IndexCartKey in old(carts) then old(carts)[IndexCartKey] else [];
        carts == old(carts)[IndexCartKey := Toggled(before, product, remove)]
    {
      var cart := if IndexCartKey in carts then carts[IndexCartKey] else [];
      ToggledWellFormed(cart, product, remove);
      cart := ToggleEntry(cart, product, remove);
      carts := carts[IndexCartKey := cart];
    }

    /** The cart is reset to `{}` after a successful checkout. */
    method ClearCart()
      requires Valid()
      modifies this
      ensures Valid() && customer == old(customer)
      ensures carts == old(carts)[old(Key()) := []]
    {
      carts := carts[Key() := []];
    }

    /** `del request.session['customer']`: the session forgets the logged-in customer. */
    method ForgetCustomer()
      requires Valid()
      modifies this
      ensures Valid() && customer == None && carts == old(carts)
    {
      customer := None;
    }
  }
}
