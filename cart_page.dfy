/**
 * The cart logic of the shopping-cart page (frontend/src/pages/CartPage.jsx):
 * raising and lowering a line's quantity, the cart total, and checkout,
 * which builds the transaction request from the cart and empties the cart
 * once the payment gateway hands back a redirect URL.
 */
module CartPage {
  import opened Optional

  /** One line of the cart: a menu product, its unit price and how many are ordered. */
  datatype CartLine = CartLine(id: string, name: string, price: int, quantity: int)

  /** One entry of the request's `products`: `{ product_id, qty }`. */
  datatype ProductRef = ProductRef(productId: string, qty: int)

  /** The `transactionData` sent to the backend. */
  datatype TransactionData = TransactionData(tableCode: string, customerName: string,
                                             customerEmail: string, products: seq<ProductRef>)

  /** What `createTransaction()` came back with: it threw, or resolved to a response that may lack `redirect_url`. */
  datatype CreateReply = Threw | Replied(redirectUrl: Option<string>)

  /** The reply carries a (truthy) `redirect_url`. */
  predicate Redirects(reply: CreateReply) {
    reply.Replied? && reply.redirectUrl.Some? && reply.redirectUrl.value != ""
  }

  /** Every line is ordered at least once. */
  predicate AllPositive(lines: seq<CartLine>) {
    forall k :: 0 <= k < |lines| ==> lines[k].quantity >= 1
  }

  /** A line's amount, price times quantity. */
  function Subtotal(line: CartLine): (r: int) {
    line.price * line.quantity
  }

  /** `cart.reduce((total, item) => total + item.price * item.quantity, 0)`, folding from the left. */
  function Total(lines: seq<CartLine>): (r: int)
    ensures lines == [] ==> r == 0
    ensures (forall k :: 0 <= k < |lines| ==> lines[k].price >= 0 && lines[k].quantity >= 0) ==> r >= 0
  {
    if lines == [] then 0 else Total(lines[..|lines| - 1]) + Subtotal(lines[|lines| - 1])
  }

  /** The total of two carts put together is the sum of their totals. */
  lemma {:induction false} TotalAppend(a: seq<CartLine>, b: seq<CartLine>)
    ensures Total(a + b) == Total(a) + Total(b)
    decreases |b|
  {
    if b == [] {
      assert a + b == a;
    } else {
      var ab := a + b;
      assert ab[..|ab| - 1] == a + b[..|b| - 1];
      assert ab[|ab| - 1] == b[|b| - 1];
      TotalAppend(a, b[..|b| - 1]);
    }
  }

  /** The total is the sum of the subtotals of the lines before, at and after any position. */
  lemma TotalAround(lines: seq<CartLine>, i: nat)
    requires i < |lines|
    ensures Total(lines) == Total(lines[..i]) + Subtotal(lines[i]) + Total(lines[i + 1..])
  {
    var before, at, after := lines[..i], [lines[i]], lines[i + 1..];
    assert lines == (before + at) + after;
    TotalAppend(before + at, after);
    TotalAppend(before, at);
    assert at[..0] == [];
    assert Total(at) == Subtotal(lines[i]);
  }

  /** Replacing one line changes the total by the difference of the two subtotals. */
  lemma TotalAfterReplace(lines: seq<CartLine>, i: nat, line: CartLine)
    requires i < |lines|
    ensures Total(lines[i := line]) == Total(lines) - Subtotal(lines[i]) + Subtotal(line)
  {
    var updated := lines[i := line];
    TotalAround(lines, i);
    TotalAround(updated, i);
    assert updated[..i] == lines[..i] && updated[i + 1..] == lines[i + 1..];
  }

  /** Removing one line lowers the total by that line's subtotal. */
  lemma TotalAfterRemove(lines: seq<CartLine>, i: nat)
    requires i < |lines|
    ensures Total(lines[..i] + lines[i + 1..]) == Total(lines) - Subtotal(lines[i])
  {
    TotalAround(lines, i);
    TotalAppend(lines[..i], lines[i + 1..]);
  }

  /** `cart.map((item) => ({ product_id: item._id, qty: item.quantity }))`. */
  function Products(lines: seq<CartLine>): (r: seq<ProductRef>)
    ensures |r| == |lines|
    ensures forall k :: 0 <= k < |lines| ==> r[k] == ProductRef(lines[k].id, lines[k].quantity)
  {
    if lines == [] then [] else [ProductRef(lines[0].id, lines[0].quantity)] + Products(lines[1..])
  }

  /** The request checkout sends, or None when a customer detail is empty and checkout stops. */
  function CheckoutRequest(customerName: string, customerEmail: string, tableCode: string,
                           lines: seq<CartLine>): (r: Option<TransactionData>)
    ensures r.None? <==> customerName == "" || customerEmail == "" || tableCode == ""
    ensures r.Some? ==> && r.value.customerName == customerName
                        && r.value.customerEmail == customerEmail
                        && r.value.tableCode == tableCode
                        && |r.value.products| == |lines|
                        && forall k :: 0 <= k < |lines| ==>
                             r.value.products[k].productId == lines[k].id && r.value.products[k].qty == lines[k].quantity
  {
    if customerName == "" || customerEmail == "" || tableCode == "" then None
    else Some(TransactionData(tableCode, customerName, customerEmail, Products(lines)))
  }

  /** The cart held by the page's cart store. */
  class Cart {
    var lines: seq<CartLine>

    constructor (lines: seq<CartLine>)
      ensures this.lines == lines
    {
      this.lines := lines;
    }

    /** `handleIncrement(index)`: one more of line `index`. */
    method Increment(index: nat)
      requires index < |lines|
      modifies this
      ensures |lines| == |old(lines)|
      ensures lines[index] == old(lines[index]).(quantity := old(lines[index].quantity) + 1)
      ensures forall k :: 0 <= k < |lines| && k != index ==> lines[k] == old(lines[k])
      ensures Total(lines) == old(Total(lines)) + old(lines[index].price)
      ensures AllPositive(old(lines)) ==> AllPositive(lines)
    {
      var line := lines[index];
      var updated := line.(quantity := line.quantity + 1);
      assert Subtotal(updated) == Subtotal(line) + line.price;
      TotalAfterReplace(lines, index, updated);
      lines := lines[index := updated];
    }

    /** `handleDecrement(index)`: one fewer of line `index`, dropping the line when it was the last one. */
    method Decrement(index: nat)
      requires index < |lines|
      modifies this
      ensures old(lines[index].quantity) > 1 ==>
                && |lines| == |old(lines)|
                && lines[index] == old(lines[index]).(quantity := old(lines[index].quantity) - 1)
                && forall k :: 0 <= k < |lines| && k != index ==> lines[k] == old(lines[k])
      ensures old(lines[index].quantity) <= 1 ==> lines == old(lines[..index]) + old(lines[index + 1..])
      ensures old(lines[index].quantity) > 1 ==> Total(lines) == old(Total(lines)) - old(lines[index].price)
      ensures old(lines[index].quantity) <= 1 ==> Total(lines) == old(Total(lines)) - old(Subtotal(lines[index]))
      ensures AllPositive(old(lines)) ==> AllPositive(lines)
    {
      var line := lines[index];
      if line.quantity > 1 {
        var updated := line.(quantity := line.quantity - 1);
        assert Subtotal(updated) == Subtotal(line) - line.price;
        TotalAfterReplace(lines, index, updated);
        lines := lines[index := updated];
      } else {
        TotalAfterRemove(lines, index);
        ghost var before := lines;
        lines := lines[..index] + lines[index + 1..];
        assert forall k :: 0 <= k < |lines| ==> lines[k] == before[if k < index then k else k + 1];
      }
    }

    /**
     * `handleCheckout`: stop when a customer detail is empty; otherwise send the
     * request and empty the cart only if the reply carries a redirect URL.
     */
    method Checkout(customerName: string, customerEmail: string, tableCode: string, reply: CreateReply)
      returns (request: Option<TransactionData>)
      modifies this
      ensures request == CheckoutRequest(customerName, customerEmail, tableCode, old(lines))
      ensures lines == (if request.Some? && Redirects(reply) then [] else old(lines))
    {
      if customerName == "" || customerEmail == "" || tableCode == "" {
        return None;
      }
      request := Some(TransactionData(tableCode, customerName, customerEmail, Products(lines)));
      if !Redirects(reply) {
        return;
      }
      lines := [];
    }
  }
}
