/** The add-to-cart AJAX handler and the price override of CPB_Cart and
    CPBWOO_Cart, against an abstract WooCommerce cart. */
module Cart {
  import opened Php
  import opened WordPress
  import opened Plugins
  import opened CartItems

  /** What the handler uses of a WooCommerce product. */
  datatype Product = Product(purchasable: bool, name: string, price: Value)

  /** A line of the WooCommerce cart: the key add_to_cart returned, the product
      and quantity passed to it, the custom cart-item data, and the price of the
      line's product object. */
  datatype CartLine = CartLine(key: string, productId: string, quantity: int, fields: seq<Entry>, price: Value)

  /** WC()->cart: the lines in the order they were added. */
  class WcCart {
    var lines: seq<CartLine>

    constructor (initial: seq<CartLine>)
      ensures lines == initial
    {
      lines := initial;
    }

    /** The line a successful add_to_cart creates. */
    method Append(line: CartLine)
      modifies this
      ensures lines == old(lines) + [line]
    {
      lines := lines + [line];
    }

    /** The price of line `i`'s product object, as `$cart_item['data']->set_price()` sets it. */
    method SetPrice(i: nat, price: Value)
      requires i < |lines|
      modifies this
      ensures lines == old(lines)[i := old(lines)[i].(price := price)]
    {
      lines := lines[i := lines[i].(price := price)];
    }
  }

  /** What the handler sees of WordPress and WooCommerce, all taken as given. */
  datatype Shop = Shop(
    wooActive: bool,                                       // class_exists('WooCommerce')
    verifyNonce: (string, string) -> bool,                 // wp_verify_nonce($nonce, $action)
    loggedIn: bool,                                        // is_user_logged_in()
    canRead: bool,                                         // current_user_can('read')
    product: string -> Option<Product>,                    // wc_get_product($id)
    addKey: (string, int, seq<Entry>) -> Option<string>,   // WC()->cart->add_to_cart(...): a key, or false
    uniqid: nat -> string                                  // the suffix uniqid() appends for the n-th item
  )

  /** The JSON reply: wp_send_json_success, wp_send_json_error, or the request
      dying in check_ajax_referer. */
  datatype Reply = Success(message: string, addedKeys: seq<string>) | Failure(message: string) | Died

  /* ---------------------------------------------------------------------
     The request gates and the items
     --------------------------------------------------------------------- */

  function Post(post: Value, name: string): Value { Index(post, StrKey(name)) }

  /** The checks made before the items are looked at; None when all pass. */
  function Gate(p: Plugin, wp: Wp, shop: Shop, post: Value): (r: Option<Reply>)
    ensures r.None? ==> shop.wooActive && Post(post, "nonce") != Null && Post(post, "woo_product_id") != Null
    ensures p == Cpb && r.None? ==> shop.verifyNonce(SanitizeTextField(wp, wp.unslash(Post(post, "nonce"))), "cpb_add_to_cart_nonce")
    ensures p == Cpbwoo && r.None? ==> shop.verifyNonce(StrCast(wp, Post(post, "nonce")), "cpbwoo_add_to_cart_nonce")
    ensures r.Some? ==> r.value.Failure? || (p == Cpbwoo && r.value == Died)
    ensures p == Cpb && !shop.wooActive ==> r == Some(Failure("WooCommerce is not active"))
    ensures p == Cpbwoo && Post(post, "nonce") == Null ==> r == Some(Died)
    ensures p == Cpbwoo && r.None? ==> !shop.loggedIn || shop.canRead
  {
    match p
    case Cpb =>
      if !shop.wooActive then Some(Failure("WooCommerce is not active"))
      else if Post(post, "nonce") == Null
        || !shop.verifyNonce(SanitizeTextField(wp, wp.unslash(Post(post, "nonce"))), "cpb_add_to_cart_nonce")
      then Some(Failure("Security check failed"))
      else if Post(post, "woo_product_id") == Null then Some(Failure("WooCommerce Product ID is missing"))
      else None
    case Cpbwoo =>
      if Post(post, "nonce") == Null || !shop.verifyNonce(StrCast(wp, Post(post, "nonce")), "cpbwoo_add_to_cart_nonce")
      then Some(Died)
      else if shop.loggedIn && !shop.canRead then Some(Failure("Security check failed: Insufficient permissions"))
      else if !shop.wooActive then Some(Failure("WooCommerce is not active"))
      else if Post(post, "woo_product_id") == Null then Some(Failure("WooCommerce Product ID is missing"))
      else None
  }

  /** The order of the gate's checks and the reply of the first that fails. CPB:
      WooCommerce, the nonce, the product ID. CPBWOO: the nonce (dying), the
      read capability, WooCommerce, the product ID. */
  lemma GateOrder(p: Plugin, wp: Wp, shop: Shop, post: Value)
    ensures var nonce := Post(post, "nonce");
      var cpbNonce := nonce != Null && shop.verifyNonce(SanitizeTextField(wp, wp.unslash(nonce)), "cpb_add_to_cart_nonce");
      p == Cpb ==>
        && (!shop.wooActive ==> Gate(p, wp, shop, post) == Some(Failure("WooCommerce is not active")))
        && (shop.wooActive && !cpbNonce ==> Gate(p, wp, shop, post) == Some(Failure("Security check failed")))
        && (shop.wooActive && cpbNonce && Post(post, "woo_product_id") == Null
            ==> Gate(p, wp, shop, post) == Some(Failure("WooCommerce Product ID is missing")))
        && (shop.wooActive && cpbNonce && Post(post, "woo_product_id") != Null ==> Gate(p, wp, shop, post) == None)
    ensures var nonce := Post(post, "nonce");
      var wooNonce := nonce != Null && shop.verifyNonce(StrCast(wp, nonce), "cpbwoo_add_to_cart_nonce");
      var permitted := !shop.loggedIn || shop.canRead;
      p == Cpbwoo ==>
        && (!wooNonce ==> Gate(p, wp, shop, post) == Some(Died))
        && (wooNonce && !permitted ==> Gate(p, wp, shop, post) == Some(Failure("Security check failed: Insufficient permissions")))
        && (wooNonce && permitted && !shop.wooActive ==> Gate(p, wp, shop, post) == Some(Failure("WooCommerce is not active")))
        && (wooNonce && permitted && shop.wooActive && Post(post, "woo_product_id") == Null
            ==> Gate(p, wp, shop, post) == Some(Failure("WooCommerce Product ID is missing")))
        && (wooNonce && permitted && shop.wooActive && Post(post, "woo_product_id") != Null ==> Gate(p, wp, shop, post) == None)
  {
  }

  /** CPBWOO's single-item mode: the five fields picked out of the posted form. */
  function SingleItem(wp: Wp, post: Value): seq<Entry>
  {
    var woo := Post(post, "woo_product_id");
    var id := Post(post, "cpbwoo_product_id");
    var qty := Post(post, "quantity");
    var price := Post(post, "cpbwoo_product_price");
    var custom := Post(post, "customization_data");
    Record(["cpbwoo_woo_product_id", "cpbwoo_product_id", "cpbwoo_quantity", "cpbwoo_product_price", "cpbwoo_customization_data"],
      [ Str(if woo != Null then SanitizeTextField(wp, wp.unslash(woo)) else ""),
        Str(if id != Null then SanitizeTextField(wp, wp.unslash(id)) else ""),
        Int(if qty != Null then wp.absint(qty) else 1),
        if price != Null then Float(wp.floatval(price)) else Int(0),
        Str(if custom != Null then SanitizeTextField(wp, wp.unslash(custom)) else "") ])
  }

  /** The values of `$items`: the sanitised `items` array when one was posted,
      else the single-item fallback, which wraps a whole sanitised array as one item. */
  function RequestItems(p: Plugin, wp: Wp, post: Value): seq<Value>
  {
    if Post(post, "items").Arr? then SanitizeCartItemsArray(p, wp, wp.mapDeepSanitize(Post(post, "items")))
    else match p
      case Cpb => [List(SanitizeCartItemsArray(Cpb, wp, wp.mapDeepSanitize(post)))]
      case Cpbwoo => [List(SanitizeCartItemsArray(Cpbwoo, wp, Arr(SingleItem(wp, post))))]
  }

  /* ---------------------------------------------------------------------
     One item of the loop
     --------------------------------------------------------------------- */

  /** The five values the loop reads from an item. */
  datatype ItemRequest = ItemRequest(woo: string, cpbId: string, quantity: int, price: Value, custom: Value)

  function ReadItem(p: Plugin, wp: Wp, item: Value): (r: ItemRequest)
    ensures r.quantity >= 1
    ensures r.price != Null
  {
    var f := ItemFields(p);
    var woo := Index(item, StrKey(f.woo));
    var id := Index(item, StrKey(f.cpbId));
    var qty := Index(item, StrKey(f.qty));
    var price := Index(item, StrKey(f.price));
    var custom := Index(item, StrKey(f.custom));
    ItemRequest(
      if woo != Null then SanitizeTextField(wp, woo) else "",
      if id != Null then SanitizeTextField(wp, id) else "",
      if qty != Null then (if wp.intval(qty) < 1 then 1 else wp.intval(qty)) else 1,
      if price != Null then Float(wp.floatval(price)) else Int(0),
      if custom != Null then wp.unslash(custom) else Str(""))
  }

  /** The names of the custom cart-item data passed to add_to_cart. */
  function DataNames(p: Plugin): (names: seq<string>)
    ensures FieldNames(names) && |names| == 4
  {
    match p
    case Cpb => ["cpb_cart_item_key", "cpb_product_id", "cpb_product_price", "customization_data"]
    case Cpbwoo => ["cpbwoo_cart_item_key", "cpbwoo_product_id", "cpbwoo_product_price", "cpbwoo_customization_data"]
  }

  /** The prefix passed to uniqid(). */
  function UniqPrefix(p: Plugin): string
  {
    match p
    case Cpb => "cpb_ikey_"
    case Cpbwoo => "cpbwoo_ikey_"
  }

  function CartItemData(p: Plugin, shop: Shop, i: nat, r: ItemRequest): seq<Entry>
  {
    Record(DataNames(p), [Str(UniqPrefix(p) + shop.uniqid(i)), Str(r.cpbId), r.price, r.custom])
  }

  /** What one turn of the loop does: the line it adds to the cart (if any) and
      the exception it throws (if any). */
  datatype Attempt = Attempt(line: Option<CartLine>, error: Option<string>)

  function TryItem(p: Plugin, wp: Wp, shop: Shop, hasCart: bool, i: nat, item: Value): (a: Attempt)
    ensures a.error.None? ==> a.line.Some?
    ensures a.line.Some? ==> a.line.value.quantity >= 1
  {
    TryRequest(p, shop, hasCart, i, ReadItem(p, wp, item))
  }

  /** The checks and the call to add_to_cart for the values read from item #i. */
  function TryRequest(p: Plugin, shop: Shop, hasCart: bool, i: nat, r: ItemRequest): (a: Attempt)
    ensures a.error.None? ==> a.line.Some?
    ensures a.line.Some? ==> a.line.value.quantity == r.quantity
  {
    if Empty(Str(r.woo)) then Attempt(None, Some("Missing WooCommerce product ID in item #" + IntToString(i)))
    else match shop.product(r.woo)
      case None => Attempt(None, Some("Product not found for ID: " + r.woo))
      case Some(prod) =>
        if !prod.purchasable then Attempt(None, Some("Product ID " + r.woo + " is not purchasable"))
        else if !hasCart then Attempt(None, Some("WooCommerce cart is not available"))
        else
          var data := CartItemData(p, shop, i, r);
          match shop.addKey(r.woo, r.quantity, data)
          case None => Attempt(None, Some("Failed to add product ID " + r.woo + " to cart"))
          case Some(k) =>
            Attempt(Some(CartLine(k, r.woo, r.quantity, data, prod.price)),
              if Empty(Str(k)) then Some("Failed to add product ID " + r.woo + " to cart") else None)
  }

  /** The per-item checks in order, each failing with its own message and no line. */
  lemma TryRequestOrder(p: Plugin, shop: Shop, hasCart: bool, i: nat, r: ItemRequest)
    ensures TryRequest(p, shop, hasCart, i, r).line.Some? ==>
      !Empty(Str(r.woo)) && shop.product(r.woo).Some? && shop.product(r.woo).value.purchasable && hasCart
    ensures Empty(Str(r.woo)) ==>
      TryRequest(p, shop, hasCart, i, r) == Attempt(None, Some("Missing WooCommerce product ID in item #" + IntToString(i)))
    ensures !Empty(Str(r.woo)) && shop.product(r.woo).None? ==>
      TryRequest(p, shop, hasCart, i, r) == Attempt(None, Some("Product not found for ID: " + r.woo))
    ensures !Empty(Str(r.woo)) && shop.product(r.woo).Some? && !shop.product(r.woo).value.purchasable ==>
      TryRequest(p, shop, hasCart, i, r) == Attempt(None, Some("Product ID " + r.woo + " is not purchasable"))
    ensures !Empty(Str(r.woo)) && shop.product(r.woo).Some? && shop.product(r.woo).value.purchasable && !hasCart ==>
      TryRequest(p, shop, hasCart, i, r) == Attempt(None, Some("WooCommerce cart is not available"))
    ensures !Empty(Str(r.woo)) && shop.product(r.woo).Some? && shop.product(r.woo).value.purchasable && hasCart ==>
      var key := shop.addKey(r.woo, r.quantity, CartItemData(p, shop, i, r));
      && (key.None? ==> TryRequest(p, shop, hasCart, i, r) == Attempt(None, Some("Failed to add product ID " + r.woo + " to cart")))
      && (key.Some? ==>
            TryRequest(p, shop, hasCart, i, r).line
              == Some(CartLine(key.value, r.woo, r.quantity, CartItemData(p, shop, i, r), shop.product(r.woo).value.price)))
      && (key.Some? ==> (TryRequest(p, shop, hasCart, i, r).error.None? <==> !Empty(Str(key.value))))
  {
  }

  /** What the loop would do with each item, were it to reach it. */
  function Attempts(p: Plugin, wp: Wp, shop: Shop, hasCart: bool, items: seq<Value>): (atts: seq<Attempt>)
    ensures |atts| == |items|
    ensures forall j :: 0 <= j < |items| ==> atts[j] == TryItem(p, wp, shop, hasCart, j, items[j])
  {
    seq(|items|, j requires 0 <= j < |items| => TryItem(p, wp, shop, hasCart, j, items[j]))
  }

  /** The state of the loop after the first `n` items: keys collected, lines
      added to the cart, and the exception that stopped it. */
  datatype Run = Run(added: seq<string>, lines: seq<CartLine>, error: Option<string>)

  function RunUpTo(atts: seq<Attempt>, n: nat): Run
    requires n <= |atts|
  {
    if n == 0 then Run([], [], None)
    else
      var r := RunUpTo(atts, n - 1);
      if r.error.Some? then r else Step(r, atts[n - 1])
  }

  /** One item's effect on a run that has not stopped. */
  function Step(r: Run, a: Attempt): Run
  {
    Run(r.added + (if a.error.None? && a.line.Some? then [a.line.value.key] else []),
        r.lines + (if a.line.Some? then [a.line.value] else []),
        a.error)
  }

  /** The text of the error reply; CPBWOO escapes the exception message. */
  function FailText(p: Plugin, wp: Wp, msg: string): string
  {
    "Add to cart failed: " + (if p == Cpb then msg else wp.escHtml(msg))
  }

  /** Thrown by `WC()->cart->calculate_totals()` when there is no cart. */
  const NoCartError := "Call to a member function calculate_totals() on null"

  /** The reply once the loop is over. */
  function Finish(p: Plugin, wp: Wp, hasCart: bool, r: Run): Reply
  {
    if r.error.Some? then Failure(FailText(p, wp, r.error.value))
    else if !hasCart then Failure(FailText(p, wp, NoCartError))
    else Success(IntToString(|r.added|) + " item(s) added to cart", r.added)
  }

  /** What a request does: its reply and the lines it adds to the cart. */
  datatype Handled = Handled(reply: Reply, lines: seq<CartLine>)

  function Handle(p: Plugin, wp: Wp, shop: Shop, post: Value, hasCart: bool): Handled
  {
    match Gate(p, wp, shop, post)
    case Some(r) => Handled(r, [])
    case None =>
      var items := RequestItems(p, wp, post);
      var run := RunUpTo(Attempts(p, wp, shop, hasCart, items), |items|);
      Handled(Finish(p, wp, hasCart, run), run.lines)
  }

  /** add_to_cart: the gates, then the items one by one, appending to the cart
      as it goes; a `null` cart is WC()->cart being unavailable. */
  method AddToCart(p: Plugin, wp: Wp, shop: Shop, post: Value, cart: WcCart?) returns (reply: Reply)
    modifies cart
    ensures reply == Handle(p, wp, shop, post, cart != null).reply
    ensures cart != null ==> cart.lines == old(cart.lines) + Handle(p, wp, shop, post, true).lines
  {
    var gate := Gate(p, wp, shop, post);
    if gate.Some? {
      return gate.value;
    }
    var items := ReadRequestItems(p, wp, post);
    var run := RunItems(p, wp, shop, cart, items);
    if run.error.Some? {
      reply := Failure(FailText(p, wp, run.error.value));
    } else if cart == null {
      reply := Failure(FailText(p, wp, NoCartError));
    } else {
      reply := Success(IntToString(|run.added|) + " item(s) added to cart", run.added);
    }
  }

  /** The items add_to_cart loops over. */
  method ReadRequestItems(p: Plugin, wp: Wp, post: Value) returns (items: seq<Value>)
    ensures items == RequestItems(p, wp, post)
  {
    if Post(post, "items").Arr? {
      items := SanitizeCartItems(p, wp, wp.mapDeepSanitize(Post(post, "items")));
    } else if p == Cpb {
      var one := SanitizeCartItems(p, wp, wp.mapDeepSanitize(post));
      items := [List(one)];
    } else {
      var one := SanitizeCartItems(p, wp, Arr(SingleItem(wp, post)));
      items := [List(one)];
    }
  }

  /** The loop of add_to_cart, up to the first exception. */
  method RunItems(p: Plugin, wp: Wp, shop: Shop, cart: WcCart?, items: seq<Value>) returns (run: Run)
    modifies cart
    ensures run == RunUpTo(Attempts(p, wp, shop, cart != null, items), |items|)
    ensures cart != null ==> cart.lines == old(cart.lines) + run.lines
  {
    if cart == null {
      run := RunWithoutCart(p, wp, shop, items);
    } else {
      run := RunWithCart(p, wp, shop, cart, items);
    }
  }

  method RunWithoutCart(p: Plugin, wp: Wp, shop: Shop, items: seq<Value>) returns (run: Run)
    ensures run == RunUpTo(Attempts(p, wp, shop, false, items), |items|)
  {
    ghost var atts := Attempts(p, wp, shop, false, items);
    run := Run([], [], None);
    var i := 0;
    while i < |items| && run.error.None?
      invariant 0 <= i <= |items|
      invariant run == RunUpTo(atts, i)
    {
      var line, err := AddItem(p, wp, shop, null, i, items[i]);
      assert Attempt(line, err) == atts[i];
      run := Step(run, Attempt(line, err));
      i := i + 1;
    }
    if i < |items| {
      RunSticky(atts, i, |items|);
    }
  }

  method RunWithCart(p: Plugin, wp: Wp, shop: Shop, cart: WcCart, items: seq<Value>) returns (run: Run)
    modifies cart
    ensures run == RunUpTo(Attempts(p, wp, shop, true, items), |items|)
    ensures cart.lines == old(cart.lines) + run.lines
  {
    ghost var atts := Attempts(p, wp, shop, true, items);
    run := Run([], [], None);
    var i := 0;
    while i < |items| && run.error.None?
      invariant 0 <= i <= |items|
      invariant run == RunUpTo(atts, i)
      invariant cart.lines == old(cart.lines) + run.lines
    {
      ghost var before := run.lines;
      var line, err := AddItem(p, wp, shop, cart, i, items[i]);
      assert Attempt(line, err) == atts[i];
      run := Step(run, Attempt(line, err));
      AppendAssoc(old(cart.lines), before, if line.Some? then [line.value] else []);
      i := i + 1;
    }
    if i < |items| {
      RunSticky(atts, i, |items|);
    }
  }

  lemma AppendAssoc<T>(a: seq<T>, b: seq<T>, c: seq<T>)
    ensures a + b + c == a + (b + c)
  {
  }

  /** One turn of the loop: the five reads, the four checks, and the call to
      add_to_cart, which appends a line whenever it returns a key. */
  method AddItem(p: Plugin, wp: Wp, shop: Shop, cart: WcCart?, i: nat, item: Value)
    returns (line: Option<CartLine>, error: Option<string>)
    modifies cart
    ensures Attempt(line, error) == TryItem(p, wp, shop, cart != null, i, item)
    ensures cart != null ==> cart.lines == old(cart.lines) + (if line.Some? then [line.value] else [])
  {
    line, error := AddRequest(p, shop, cart, i, ReadItem(p, wp, item));
  }

  /** The checks and the call to add_to_cart. */
  method AddRequest(p: Plugin, shop: Shop, cart: WcCart?, i: nat, r: ItemRequest)
    returns (line: Option<CartLine>, error: Option<string>)
    modifies cart
    ensures Attempt(line, error) == TryRequest(p, shop, cart != null, i, r)
    ensures cart != null ==> cart.lines == old(cart.lines) + (if line.Some? then [line.value] else [])
  {
    line := None;
    if Empty(Str(r.woo)) {
      error := Some("Missing WooCommerce product ID in item #" + IntToString(i));
    } else if shop.product(r.woo).None? {
      error := Some("Product not found for ID: " + r.woo);
    } else if !shop.product(r.woo).value.purchasable {
      error := Some("Product ID " + r.woo + " is not purchasable");
    } else if cart == null {
      error := Some("WooCommerce cart is not available");
    } else {
      var data := CartItemData(p, shop, i, r);
      var key := shop.addKey(r.woo, r.quantity, data);
      if key.Some? {
        line := Some(CartLine(key.value, r.woo, r.quantity, data, shop.product(r.woo).value.price));
        cart.Append(line.value);
      }
      if key.None? || Empty(Str(key.value)) {
        error := Some("Failed to add product ID " + r.woo + " to cart");
      } else {
        error := None;
      }
    }
  }

  /* ---------------------------------------------------------------------
     Properties of the loop
     --------------------------------------------------------------------- */

  /** Once an item has thrown, no later item is tried. */
  lemma {:induction false} RunSticky(atts: seq<Attempt>, n: nat, m: nat)
    requires n <= m <= |atts|
    requires RunUpTo(atts, n).error.Some?
    ensures RunUpTo(atts, m) == RunUpTo(atts, n)
    decreases m - n
  {
    if n < m {
      RunSticky(atts, n, m - 1);
    }
  }

  /** A run without an exception added exactly one line per item, in order, and
      collected exactly those lines' keys. */
  lemma {:induction false} CleanRun(atts: seq<Attempt>, n: nat)
    requires n <= |atts|
    requires forall j :: 0 <= j < |atts| ==> (atts[j].error.None? ==> atts[j].line.Some?)
    requires RunUpTo(atts, n).error.None?
    ensures var r := RunUpTo(atts, n);
      && |r.lines| == n && |r.added| == n
      && forall j :: 0 <= j < n ==> atts[j].error.None? && atts[j].line == Some(r.lines[j]) && r.added[j] == r.lines[j].key
  {
    if n > 0 {
      CleanRun(atts, n - 1);
    }
  }

  /** Item k is where the run stopped: the items before it were all added, it
      threw the reported exception, and nothing was rolled back. */
  predicate StoppedAt(atts: seq<Attempt>, n: nat, k: nat)
    requires k < n <= |atts|
  {
    var before := RunUpTo(atts, k);
    var r := RunUpTo(atts, n);
    && before.error.None? && atts[k].error.Some?
    && r.error == atts[k].error
    && r.added == before.added
    && r.lines == before.lines + (if atts[k].line.Some? then [atts[k].line.value] else [])
  }

  /** A run that stopped did so at some item k. */
  lemma {:induction false} StoppedRun(atts: seq<Attempt>, n: nat)
    requires n <= |atts|
    requires RunUpTo(atts, n).error.Some?
    ensures exists k :: 0 <= k < n && StoppedAt(atts, n, k)
  {
    var r := RunUpTo(atts, n - 1);
    if r.error.Some? {
      StoppedRun(atts, n - 1);
      var k :| 0 <= k < n - 1 && StoppedAt(atts, n - 1, k);
      assert StoppedAt(atts, n, k);
    } else {
      assert StoppedAt(atts, n, n - 1);
    }
  }

  /** Every line a run adds comes from an attempt. */
  lemma {:induction false} RunLinesFromAttempts(atts: seq<Attempt>, n: nat)
    requires n <= |atts|
    ensures forall l :: l in RunUpTo(atts, n).lines ==> exists j :: 0 <= j < n && atts[j].line == Some(l)
  {
    if n > 0 {
      RunLinesFromAttempts(atts, n - 1);
    }
  }

  /** A successful reply names one key per item, in item order, and counts them. */
  lemma {:induction false} SuccessReply(p: Plugin, wp: Wp, shop: Shop, post: Value, hasCart: bool)
    requires Handle(p, wp, shop, post, hasCart).reply.Success?
    ensures var items := RequestItems(p, wp, post); var h := Handle(p, wp, shop, post, hasCart);
      && |h.reply.addedKeys| == |items| == |h.lines|
      && h.reply.message == IntToString(|items|) + " item(s) added to cart"
      && forall j :: 0 <= j < |items| ==>
        (h.reply.addedKeys[j] == h.lines[j].key && TryItem(p, wp, shop, hasCart, j, items[j]) == Attempt(Some(h.lines[j]), None))
  {
    var items := RequestItems(p, wp, post);
    var atts := Attempts(p, wp, shop, hasCart, items);
    CleanRun(atts, |items|);
  }

  /** A failed reply after the gates reports the exception of the first item
      that threw, and the cart keeps every line added before it. */
  lemma {:induction false} FailureKeepsEarlierLines(p: Plugin, wp: Wp, shop: Shop, post: Value, hasCart: bool)
    requires Gate(p, wp, shop, post).None?
    requires RunUpTo(Attempts(p, wp, shop, hasCart, RequestItems(p, wp, post)), |RequestItems(p, wp, post)|).error.Some?
    ensures var items := RequestItems(p, wp, post); var h := Handle(p, wp, shop, post, hasCart);
      exists k :: 0 <= k < |items| && StoppedAt(Attempts(p, wp, shop, hasCart, items), |items|, k)
        && h.reply == Failure(FailText(p, wp, TryItem(p, wp, shop, hasCart, k, items[k]).error.value))
  {
    var items := RequestItems(p, wp, post);
    StoppedRun(Attempts(p, wp, shop, hasCart, items), |items|);
  }

  /** Every line a request adds has a quantity of at least one. */
  lemma {:induction false} LinesHaveQuantity(p: Plugin, wp: Wp, shop: Shop, post: Value, hasCart: bool)
    ensures forall l :: l in Handle(p, wp, shop, post, hasCart).lines ==> l.quantity >= 1
  {
    var items := RequestItems(p, wp, post);
    RunLinesFromAttempts(Attempts(p, wp, shop, hasCart, items), |items|);
  }

  /** An item without the product-ID field fails the first check. */
  lemma ListItemFails(p: Plugin, wp: Wp, shop: Shop, hasCart: bool, vs: seq<Value>)
    ensures TryItem(p, wp, shop, hasCart, 0, List(vs)) == Attempt(None, Some("Missing WooCommerce product ID in item #0"))
  {
    IndexList(vs, ItemFields(p).woo);
    var r := ReadItem(p, wp, List(vs));
    assert r.woo == "";
    assert Empty(Str(r.woo));
    assert IntToString(0) == "0";
    assert "Missing WooCommerce product ID in item #" + IntToString(0) == "Missing WooCommerce product ID in item #0";
  }

  /** Single-item mode never adds anything: the one item the loop sees is a
      list, which has no product ID under the name the loop reads, so the
      request fails at item #0. */
  lemma SingleItemModeFails(p: Plugin, wp: Wp, shop: Shop, post: Value, hasCart: bool)
    requires Gate(p, wp, shop, post).None? && !Post(post, "items").Arr?
    ensures Handle(p, wp, shop, post, hasCart) == Handled(Failure(FailText(p, wp, "Missing WooCommerce product ID in item #0")), [])
  {
    var items := RequestItems(p, wp, post);
    var vs := match p
      case Cpb => SanitizeCartItemsArray(Cpb, wp, wp.mapDeepSanitize(post))
      case Cpbwoo => SanitizeCartItemsArray(Cpbwoo, wp, Arr(SingleItem(wp, post)));
    assert items == [List(vs)];
    ListItemFails(p, wp, shop, hasCart, vs);
    var atts := Attempts(p, wp, shop, hasCart, items);
    assert atts[0] == Attempt(None, Some("Missing WooCommerce product ID in item #0"));
    assert RunUpTo(atts, 1) == Run([], [], Some("Missing WooCommerce product ID in item #0"));
  }

  /** In CPBWOO's single-item mode that list is even empty. */
  lemma SingleItemModeSeesEmptyItem(wp: Wp, post: Value)
    requires !Post(post, "items").Arr?
    ensures RequestItems(Cpbwoo, wp, post) == [Arr([])]
  {
    var single := SingleItem(wp, post);
    ScalarMapSanitisesToNothing(Cpbwoo, wp, single);
  }

  /* ---------------------------------------------------------------------
     update_cart_item_price
     --------------------------------------------------------------------- */

  /** `$cart_item` as the hooks see it: the custom data passed to add_to_cart,
      followed by WooCommerce's own entries (its product object is not an entry here). */
  function CartItemArray(l: CartLine): Value
  {
    Arr(l.fields + Record(["key", "product_id", "quantity"], [Str(l.key), Str(l.productId), Int(l.quantity)]))
  }

  /** A line carrying both the price field and the plugin's item key. */
  predicate PriceOverridden(p: Plugin, l: CartLine)
  {
    IsSet(CartItemArray(l), StrKey(DataNames(p)[2])) && IsSet(CartItemArray(l), StrKey(DataNames(p)[0]))
  }

  /** A line after update_cart_item_price has seen it. */
  function Repriced(p: Plugin, l: CartLine): CartLine
  {
    if PriceOverridden(p, l) then l.(price := Index(CartItemArray(l), StrKey(DataNames(p)[2]))) else l
  }

  function RepricedLines(p: Plugin, ls: seq<CartLine>): (r: seq<CartLine>)
    ensures |r| == |ls| && forall i :: 0 <= i < |ls| ==> r[i] == Repriced(p, ls[i])
  {
    seq(|ls|, i requires 0 <= i < |ls| => Repriced(p, ls[i]))
  }

  /** update_cart_item_price: a `null` cart is the is_object check failing. */
  method UpdateCartItemPrice(p: Plugin, cart: WcCart?)
    modifies cart
    ensures cart != null ==> cart.lines == RepricedLines(p, old(cart.lines))
  {
    if cart == null {
      return;
    }
    var i := 0;
    while i < |cart.lines|
      invariant 0 <= i <= |cart.lines| == |old(cart.lines)|
      invariant forall j :: 0 <= j < i ==> cart.lines[j] == Repriced(p, old(cart.lines)[j])
      invariant forall j :: i <= j < |cart.lines| ==> cart.lines[j] == old(cart.lines)[j]
    {
      var l := cart.lines[i];
      if PriceOverridden(p, l) {
        cart.SetPrice(i, Index(CartItemArray(l), StrKey(DataNames(p)[2])));
      }
      i := i + 1;
    }
  }

  /** Only the price of a marked line changes, and running the hook again changes nothing. */
  lemma {:induction false} RepriceOnlyPrices(p: Plugin, ls: seq<CartLine>)
    ensures forall i :: 0 <= i < |ls| ==> RepricedLines(p, ls)[i].(price := ls[i].price) == ls[i]
    ensures forall i :: 0 <= i < |ls| && !PriceOverridden(p, ls[i]) ==> RepricedLines(p, ls)[i] == ls[i]
    ensures RepricedLines(p, RepricedLines(p, ls)) == RepricedLines(p, ls)
  {
    var r := RepricedLines(p, ls);
    forall i | 0 <= i < |ls|
      ensures Repriced(p, r[i]) == r[i]
    {
      assert CartItemArray(r[i]) == CartItemArray(ls[i]);
    }
  }

  /** The names the hooks read in a line's array: the custom data names first. */
  lemma {:induction false} LineField(l: CartLine, names: seq<string>, vals: seq<Value>, k: string)
    requires |names| == |vals| && FieldNames(names) && l.fields == Record(names, vals) && NonNumericKey(k)
    requires k !in ["key", "product_id", "quantity"]
    ensures Index(CartItemArray(l), StrKey(k)) == if k in names then vals[IndexOf(names, k)] else Null
  {
    var woo := Record(["key", "product_id", "quantity"], [Str(l.key), Str(l.productId), Int(l.quantity)]);
    GetAppend(l.fields, woo, StrKey(k));
    RecordGet(names, vals, k);
    RecordGet(["key", "product_id", "quantity"], [Str(l.key), Str(l.productId), Int(l.quantity)], k);
  }

  /** The custom data of the line an item adds. */
  lemma AddedLineData(p: Plugin, wp: Wp, shop: Shop, hasCart: bool, i: nat, item: Value)
    requires TryItem(p, wp, shop, hasCart, i, item).line.Some?
    ensures TryItem(p, wp, shop, hasCart, i, item).line.value.fields == CartItemData(p, shop, i, ReadItem(p, wp, item))
  {
  }

  /** A line carrying the custom data of an item has its item key and price set,
      so the price hook sets the line's price to the price posted with the item. */
  lemma DataLineIsRepriced(p: Plugin, shop: Shop, i: nat, r: ItemRequest, l: CartLine)
    requires l.fields == CartItemData(p, shop, i, r) && r.price != Null
    ensures PriceOverridden(p, l) && Repriced(p, l).price == r.price
  {
    var names := DataNames(p);
    var vals := [Str(UniqPrefix(p) + shop.uniqid(i)), Str(r.cpbId), r.price, r.custom];
    LineField(l, names, vals, names[0]);
    LineField(l, names, vals, names[2]);
    assert IndexOf(names, names[0]) == 0;
    assert IndexOf(names, names[2]) == 2;
  }

  /** Every line the handler adds is repriced to the price posted with its item. */
  lemma AddedLineIsRepriced(p: Plugin, wp: Wp, shop: Shop, hasCart: bool, i: nat, item: Value)
    requires TryItem(p, wp, shop, hasCart, i, item).line.Some?
    ensures var l := TryItem(p, wp, shop, hasCart, i, item).line.value;
      PriceOverridden(p, l) && Repriced(p, l).price == ReadItem(p, wp, item).price
  {
    AddedLineData(p, wp, shop, hasCart, i, item);
    DataLineIsRepriced(p, shop, i, ReadItem(p, wp, item), TryItem(p, wp, shop, hasCart, i, item).line.value);
  }
}
