/**
 * Checkout: the checks on the cart and the customer form, and the order
 * message handed to the chat service. The message is built exactly as the
 * page writes it, including its line separators, which are the two
 * characters backslash and `n` rather than a newline.
 */
module Checkout {
  import opened Wrappers
  import opened Seqs
  import opened Text
  import opened CartModel
  import opened CartStore

  /** Why a checkout was refused, in the order the checks are made. */
  datatype CheckoutError = EmptyCart | MissingName | MissingAddress | MissingPhone

  /** The raw values of the checkout form's fields. */
  datatype CheckoutForm = CheckoutForm(
    name: string, address: string, phone: string, latitude: string, longitude: string)

  /** The customer details that go into the message: trimmed texts, coordinates as entered. */
  datatype Customer = Customer(
    name: string, address: string, phone: string, latitude: string, longitude: string)

  const Closing: string := "Mohon konfirmasi pesanan ini. Terima kasih!"

  /**
   * The checks `checkout` makes before building a message: the cart first,
   * then the trimmed name, address and phone, in that order.
   */
  function Validate(lines: seq<CartLine>, form: CheckoutForm): (r: Result<Customer, CheckoutError>)
    ensures r == Failure(EmptyCart) <==> lines == []
    ensures r == Failure(MissingName) <==> lines != [] && IsBlank(form.name)
    ensures r == Failure(MissingAddress) <==> lines != [] && !IsBlank(form.name) && IsBlank(form.address)
    ensures r == Failure(MissingPhone) <==>
      lines != [] && !IsBlank(form.name) && !IsBlank(form.address) && IsBlank(form.phone)
    ensures r.Success? <==>
      lines != [] && !IsBlank(form.name) && !IsBlank(form.address) && !IsBlank(form.phone)
    ensures r.Success? ==>
      r.value == Customer(Trim(form.name), Trim(form.address), Trim(form.phone), form.latitude, form.longitude)
  {
    if |lines| == 0 then Failure(EmptyCart)
    else
      var name, address, phone := Trim(form.name), Trim(form.address), Trim(form.phone);
      if |name| == 0 then Failure(MissingName)
      else if |address| == 0 then Failure(MissingAddress)
      else if |phone| == 0 then Failure(MissingPhone)
      else Success(Customer(name, address, phone, form.latitude, form.longitude))
  }

  // Each parenthesised piece below is one `+=` of the page's message builder.
  // Every `\\n` in these literals is a backslash followed by `n`.

  /** Title and customer block. */
  function OrderHeader(c: Customer): string
  {
    "*PESANAN LENDOM PARFUM*\\n\\n"
    + "*Informasi Pelanggan:*\\n"
    + ("Nama: " + c.name + "\\n")
    + ("No. Telepon: " + c.phone + "\\n")
    + ("Alamat: " + c.address + "\\n")
  }

  /** The map link, written only when both coordinate fields hold something. */
  function LocationLine(latitude: string, longitude: string): (r: string)
    ensures r == "" <==> latitude == "" || longitude == ""
  {
    if latitude != "" && longitude != "" then
      "Lokasi: https://maps.google.com/?q=" + latitude + "," + longitude + "\\n"
    else ""
  }

  const DetailsHeading: string := "\\n*Detail Pesanan:*\\n"

  /** The block for the `n`-th line of the cart. */
  function ItemBlock(n: nat, l: CartLine, formatPrice: int -> string): string
  {
    (DecimalString(n) + ". " + l.name + "\\n")
    + ("   Jumlah: " + NumberString(l.quantity) + "\\n")
    + ("   Harga: " + formatPrice(l.price) + "\\n")
    + ("   Subtotal: " + formatPrice(l.price * l.quantity) + "\\n\\n")
  }

  /**
   * The blocks of `lines` as the loop over the cart writes them, the first
   * numbered `n` and each next one numbered one more.
   */
  function ItemBlocksFrom(lines: seq<CartLine>, n: nat, formatPrice: int -> string): (r: seq<string>)
    ensures |r| == |lines|
  {
    Numbered(lines, n, (m: nat, l: CartLine) => ItemBlock(m, l, formatPrice))
  }

  /** The `k`-th block is that of `lines[k]` under the number `n + k`. */
  lemma ItemBlocksFromAt(lines: seq<CartLine>, n: nat, formatPrice: int -> string, k: nat)
    requires k < |lines|
    ensures ItemBlocksFrom(lines, n, formatPrice)[k] == ItemBlock(n + k, lines[k], formatPrice)
  {
    NumberedAt(lines, n, (m: nat, l: CartLine) => ItemBlock(m, l, formatPrice), k);
  }

  function TotalLine(total: int, formatPrice: int -> string): string
  {
    "*Total: " + formatPrice(total) + "*\\n\\n"
  }

  /** Everything before the first item block. */
  function OrderPreamble(c: Customer): string
  {
    OrderHeader(c) + LocationLine(c.latitude, c.longitude) + DetailsHeading
  }

  /** Everything after the last item block. */
  function OrderTrailer(lines: seq<CartLine>, formatPrice: int -> string): string
  {
    TotalLine(CartTotal(lines), formatPrice) + Closing
  }

  /** The order message for the cart `lines` and customer `c`. */
  function OrderMessage(lines: seq<CartLine>, c: Customer, formatPrice: int -> string): string
  {
    OrderPreamble(c) + Concat(ItemBlocksFrom(lines, 1, formatPrice)) + OrderTrailer(lines, formatPrice)
  }

  lemma SplitAt(a: string, b: string)
    ensures (a + b)[..|a|] == a && (a + b)[|a|..] == b
  {
  }

  /** The message split at the end of the customer block. */
  lemma OrderMessageAroundLocation(lines: seq<CartLine>, c: Customer, formatPrice: int -> string)
    ensures OrderMessage(lines, c, formatPrice) ==
      OrderHeader(c) + (LocationLine(c.latitude, c.longitude)
        + (DetailsHeading + Concat(ItemBlocksFrom(lines, 1, formatPrice)) + OrderTrailer(lines, formatPrice)))
  {
    var head, link := OrderHeader(c), LocationLine(c.latitude, c.longitude);
    var items, trailer := Concat(ItemBlocksFrom(lines, 1, formatPrice)), OrderTrailer(lines, formatPrice);
    FourAppends(head, link, DetailsHeading, items, trailer);
    AppendAssoc(link, DetailsHeading + items, trailer);
    AppendAssoc(link, DetailsHeading, items);
    assert link + DetailsHeading + items + trailer == link + (DetailsHeading + items + trailer);
  }

  /**
   * The map link is the only part of the message that depends on the
   * coordinates: the message is the one without coordinates with the
   * link inserted right after the customer block, and is that message
   * unchanged when either coordinate field is empty.
   */
  lemma LocationLineInsertedAfterCustomer(lines: seq<CartLine>, c: Customer, formatPrice: int -> string)
    ensures var without := OrderMessage(lines, c.(latitude := "", longitude := ""), formatPrice);
      var k := |OrderHeader(c)|;
      k <= |without|
      && OrderMessage(lines, c, formatPrice) == without[..k] + LocationLine(c.latitude, c.longitude) + without[k..]
    ensures c.latitude == "" || c.longitude == "" ==>
      OrderMessage(lines, c, formatPrice) == OrderMessage(lines, c.(latitude := "", longitude := ""), formatPrice)
  {
    var bare := c.(latitude := "", longitude := "");
    var head, link := OrderHeader(c), LocationLine(c.latitude, c.longitude);
    var rest := DetailsHeading + Concat(ItemBlocksFrom(lines, 1, formatPrice)) + OrderTrailer(lines, formatPrice);
    assert OrderHeader(bare) == head;
    assert LocationLine("", "") == "";
    OrderMessageAroundLocation(lines, bare, formatPrice);
    OrderMessageAroundLocation(lines, c, formatPrice);
    assert "" + rest == rest;
    AppendAssoc(head, link, rest);
    SplitAt(head, rest);
  }

  /**
   * Items are written in cart order and numbered from 1: the `k`-th block
   * starts where the blocks before it end, and it is the block of the
   * `k`-th cart line under the number `k + 1`.
   */
  lemma ItemBlockInPlace(lines: seq<CartLine>, c: Customer, formatPrice: int -> string, k: nat)
    requires k < |lines|
    ensures var msg := OrderMessage(lines, c, formatPrice);
      var start := |OrderPreamble(c)| + |Concat(ItemBlocksFrom(lines, 1, formatPrice)[..k])|;
      var block := ItemBlock(k + 1, lines[k], formatPrice);
      start + |block| <= |msg| && msg[start..start + |block|] == block
      && |Concat(ItemBlocksFrom(lines, 1, formatPrice)[..k + 1])| == |Concat(ItemBlocksFrom(lines, 1, formatPrice)[..k])| + |block|
  {
    var blocks := ItemBlocksFrom(lines, 1, formatPrice);
    var preamble, trailer := OrderPreamble(c), OrderTrailer(lines, formatPrice);
    ItemBlocksFromAt(lines, 1, formatPrice, k);
    ConcatPartAt(OrderMessage(lines, c, formatPrice), preamble, blocks, trailer, k);
  }

  /** The block of a line opens with its number and the product name. */
  lemma ItemBlockOpensWithNumberAndName(n: nat, l: CartLine, formatPrice: int -> string)
    ensures var head := DecimalString(n) + ". " + l.name;
      |head| <= |ItemBlock(n, l, formatPrice)| && ItemBlock(n, l, formatPrice)[..|head|] == head
  {
    var head := DecimalString(n) + ". " + l.name;
    var block := ItemBlock(n, l, formatPrice);
    assert block == head + (block[|head|..]);
  }

  /** The message closes with the cart total and the closing sentence. */
  lemma MessageEndsWithTotal(lines: seq<CartLine>, c: Customer, formatPrice: int -> string)
    ensures var msg := OrderMessage(lines, c, formatPrice);
      var tail := "*Total: " + formatPrice(CartTotal(lines)) + "*\\n\\n" + Closing;
      |tail| <= |msg| && msg[|msg| - |tail|..] == tail
  {
    var msg := OrderMessage(lines, c, formatPrice);
    var tail := "*Total: " + formatPrice(CartTotal(lines)) + "*\\n\\n" + Closing;
    var front := OrderPreamble(c) + Concat(ItemBlocksFrom(lines, 1, formatPrice));
    assert msg == front + tail;
  }

  /**
   * `checkout`: refuse with the first failing check, or build the order
   * message. The cart is read and left as it is.
   */
  method PlaceOrder(cart: Cart, form: CheckoutForm, formatPrice: int -> string)
    returns (r: Result<string, CheckoutError>)
    ensures Validate(cart.lines, form).Failure? ==> r == Failure(Validate(cart.lines, form).error)
    ensures Validate(cart.lines, form).Success? ==>
      r == Success(OrderMessage(cart.lines, Validate(cart.lines, form).value, formatPrice))
  {
    var lines := cart.lines;
    if |lines| == 0 {
      return Failure(EmptyCart);
    }
    var name := Trim(form.name);
    var address := Trim(form.address);
    var phone := Trim(form.phone);
    var latitude := form.latitude;
    var longitude := form.longitude;
    if |name| == 0 {
      return Failure(MissingName);
    }
    if |address| == 0 {
      return Failure(MissingAddress);
    }
    if |phone| == 0 {
      return Failure(MissingPhone);
    }
    var c := Customer(name, address, phone, latitude, longitude);
    assert Validate(lines, form) == Success(c);
    var message := ComposeMessage(lines, c, formatPrice);
    r := Success(message);
  }

  lemma AppendAssoc(a: string, b: string, c: string)
    ensures (a + b) + c == a + (b + c)
  {
  }

  lemma FourAppends(m: string, a: string, b: string, c: string, d: string)
    ensures m + a + b + c + d == m + (a + b + c + d)
  {
  }

  /**
   * The message builder of `checkout`, run once the checks have passed:
   * header, customer block, optional map link, one block per cart line in
   * cart order, total and closing line, appended piece by piece.
   */
  method ComposeMessage(lines: seq<CartLine>, c: Customer, formatPrice: int -> string)
    returns (message: string)
    ensures message == OrderMessage(lines, c, formatPrice)
  {
    message := "*PESANAN LENDOM PARFUM*\\n\\n";
    message := message + "*Informasi Pelanggan:*\\n";
    message := message + ("Nama: " + c.name + "\\n");
    message := message + ("No. Telepon: " + c.phone + "\\n");
    message := message + ("Alamat: " + c.address + "\\n");
    assert message == OrderHeader(c);
    if |c.latitude| > 0 && |c.longitude| > 0 {
      message := message + ("Lokasi: https://maps.google.com/?q=" + c.latitude + "," + c.longitude + "\\n");
    }
    assert message == OrderHeader(c) + LocationLine(c.latitude, c.longitude);
    message := message + "\\n*Detail Pesanan:*\\n";
    ghost var preamble := OrderPreamble(c);
    assert message == preamble;

    message := AppendItemBlocks(message, lines, formatPrice);
    ghost var items := message;

    var total := CartTotal(lines);
    var totalLine := "*Total: " + formatPrice(total) + "*\\n\\n";
    message := message + totalLine;
    message := message + Closing;
    assert totalLine + Closing == OrderTrailer(lines, formatPrice);
    AppendAssoc(items, totalLine, Closing);
  }

  /** The loop of `checkout` over the cart: one block per line, numbered from 1. */
  method AppendItemBlocks(start: string, lines: seq<CartLine>, formatPrice: int -> string)
    returns (message: string)
    ensures message == start + Concat(ItemBlocksFrom(lines, 1, formatPrice))
  {
    message := start;
    ghost var blocks := ItemBlocksFrom(lines, 1, formatPrice);
    assert blocks[..0] == [];
    var i := 0;
    while i < |lines|
      invariant 0 <= i <= |lines|
      invariant message == start + Concat(blocks[..i])
    {
      var item := lines[i];
      ghost var soFar := message;
      var numbered := DecimalString(i + 1) + ". " + item.name + "\\n";
      var quantity := "   Jumlah: " + NumberString(item.quantity) + "\\n";
      var price := "   Harga: " + formatPrice(item.price) + "\\n";
      var subtotal := "   Subtotal: " + formatPrice(item.price * item.quantity) + "\\n\\n";
      message := message + numbered;
      message := message + quantity;
      message := message + price;
      message := message + subtotal;
      ItemBlocksFromAt(lines, 1, formatPrice, i);
      assert blocks[i] == ItemBlock(i + 1, item, formatPrice);
      ConcatStep(soFar, start, blocks, i, numbered, quantity, price, subtotal);
      i := i + 1;
    }
    assert blocks[..i] == blocks;
  }
}
