/**
 * The order message sent at checkout: a header, one segment per item in
 * cart order, the grand total, and a customer block that shows only the
 * answers the shopper actually gave. `Message` says what the text is;
 * `Compose` builds it by accumulation, one item at a time.
 *
 * The fixed texts of the message are gathered in a `Wording`; the store's
 * own Spanish texts are `Spanish`. The properties below hold for every
 * wording, so they hold for the store's.
 */
module OrderMessage {
  import opened Items
  import opened Format

  datatype Option<T> = None | Some(value: T)

  /** A prompt answer is printed only when it was neither cancelled (None) nor left empty. */
  predicate Supplied(answer: Option<string>) {
    answer.Some? && answer.value != ""
  }

  datatype Wording = Wording(
    title: string, productsHeading: string,
    itemMark: string, quantityLabel: string, priceLabel: string, subtotalLabel: string, gap: string,
    totalLabel: string, customerHeading: string,
    nameLabel: string, phoneLabel: string, addressLabel: string)

  /** The texts the store uses. Only the name field starts on a new line. */
  const Spanish: Wording := Wording(
    "*Nuevo Pedido - Aceites Motor Premium*", "\n *Productos:*",
    "\n \U{27A1} ", "*Cantidad:* ", "*Precio:* $", "*Subtotal:* $", " ",
    "\n *Total del pedido:* $", "\n *Datos del cliente:*",
    "\n\U{1F464} *Nombre:* ", "\U{1F4F1} *Tel\U{E9}fono:* ", "\U{1F3E0} *Direcci\U{F3}n:* ")

  function Header(w: Wording): string {
    w.title + w.productsHeading
  }

  /** The text for one cart line: name, quantity, unit price and line subtotal. */
  function Segment(w: Wording, x: Item): string {
    w.itemMark + x.name + w.gap
    + w.quantityLabel + NatText(x.quantity) + w.gap
    + w.priceLabel + CentsText(x.price) + w.gap
    + w.subtotalLabel + CentsText(LineTotal(x)) + w.gap
  }

  /** The segments of all lines, in cart order. */
  function Segments(w: Wording, s: seq<Item>): string {
    if s == [] then "" else Segments(w, s[..|s| - 1]) + Segment(w, s[|s| - 1])
  }

  function Field(caption: string, answer: Option<string>): string {
    if Supplied(answer) then caption + answer.value else ""
  }

  function CustomerBlock(w: Wording, name: Option<string>, phone: Option<string>, address: Option<string>): string {
    w.customerHeading + Field(w.nameLabel, name) + Field(w.phoneLabel, phone) + Field(w.addressLabel, address)
  }

  /** The whole order message for the given items and prompt answers. */
  function Message(w: Wording, items: seq<Item>, name: Option<string>, phone: Option<string>, address: Option<string>): string {
    Header(w) + Segments(w, items) + w.totalLabel + CentsText(Total(items)) + CustomerBlock(w, name, phone, address)
  }

  /** Builds the order message piece by piece: header, item segments, total line, customer block. */
  method Compose(w: Wording, items: seq<Item>, name: Option<string>, phone: Option<string>, address: Option<string>)
    returns (message: string)
    ensures message == Message(w, items, name, phone, address)
  {
    message := w.title;
    message := message + w.productsHeading;
    message := AppendSegments(w, message, items);
    message := message + w.totalLabel + CentsText(Total(items));
    message := AppendCustomer(w, message, name, phone, address);
  }

  /** Appends the segment of each cart line, one per loop turn, in cart order. */
  method AppendSegments(w: Wording, before: string, items: seq<Item>) returns (message: string)
    ensures message == before + Segments(w, items)
  {
    message := before;
    var i := 0;
    while i < |items|
      invariant 0 <= i <= |items|
      invariant message == before + Segments(w, items[..i])
    {
      var item := items[i];
      var line := w.itemMark + item.name + w.gap;
      line := line + w.quantityLabel + NatText(item.quantity) + w.gap;
      line := line + w.priceLabel + CentsText(item.price) + w.gap;
      line := line + w.subtotalLabel + CentsText(LineTotal(item)) + w.gap;
      assert line == Segment(w, item);
      SegmentsStep(w, items, i);
      Assoc(before, Segments(w, items[..i]), line);
      message := message + line;
      i := i + 1;
    }
    assert items[..i] == items;
  }

  /** Appends the customer heading, then each answer that was supplied, after its caption. */
  method AppendCustomer(w: Wording, before: string, name: Option<string>, phone: Option<string>, address: Option<string>)
    returns (message: string)
    ensures message == before + CustomerBlock(w, name, phone, address)
  {
    message := before + w.customerHeading;
    ghost var afterHeading := message;
    if Supplied(name) {
      message := message + w.nameLabel + name.value;
    }
    FieldAppended(afterHeading, w.nameLabel, name, message);
    ghost var afterName := message;
    if Supplied(phone) {
      message := message + w.phoneLabel + phone.value;
    }
    FieldAppended(afterName, w.phoneLabel, phone, message);
    ghost var afterPhone := message;
    if Supplied(address) {
      message := message + w.addressLabel + address.value;
    }
    FieldAppended(afterPhone, w.addressLabel, address, message);
    Regroup(before, w.customerHeading, Field(w.nameLabel, name), Field(w.phoneLabel, phone), Field(w.addressLabel, address));
  }

  // ---------------------------------------------------------------------
  // Regrouping concatenations, stated on plain strings

  /** Appending a caption and then an answer is appending the field they form. */
  lemma FieldAppended(before: string, caption: string, answer: Option<string>, after: string)
    requires after == if Supplied(answer) then before + caption + answer.value else before
    ensures after == before + Field(caption, answer)
  {
    if Supplied(answer) {
      Assoc(before, caption, answer.value);
    }
  }

  lemma Regroup(a: string, b: string, c: string, d: string, e: string)
    ensures a + b + c + d + e == a + (b + c + d + e)
  {
  }

  lemma Prefix(a: string, b: string)
    ensures a <= a + b
  {
  }

  lemma Assoc(a: string, b: string, c: string)
    ensures a + b + c == a + (b + c)
  {
  }

  lemma SegmentsStep(w: Wording, items: seq<Item>, i: nat)
    requires i < |items|
    ensures Segments(w, items[..i + 1]) == Segments(w, items[..i]) + Segment(w, items[i])
  {
    assert items[..i + 1][..i] == items[..i];
  }

  // ---------------------------------------------------------------------
  // What the message shows

  lemma {:induction false} SegmentsAppend(w: Wording, a: seq<Item>, b: seq<Item>)
    ensures Segments(w, a + b) == Segments(w, a) + Segments(w, b)
  {
    if b == [] {
      assert a + b == a;
    } else {
      var b' := b[..|b| - 1];
      assert (a + b)[..|a + b| - 1] == a + b';
      assert (a + b)[|a + b| - 1] == b[|b| - 1];
      SegmentsAppend(w, a, b');
      Assoc(Segments(w, a), Segments(w, b'), Segment(w, b[|b| - 1]));
    }
  }

  /** Every cart line has its segment in the message, after the segments of all earlier lines. */
  lemma SegmentsInOrder(w: Wording, items: seq<Item>, k: nat)
    requires k < |items|
    ensures Segments(w, items) == Segments(w, items[..k]) + Segment(w, items[k]) + Segments(w, items[k + 1..])
  {
    assert items == items[..k] + [items[k]] + items[k + 1..];
    SegmentsAppend(w, items[..k] + [items[k]], items[k + 1..]);
    SegmentsAppend(w, items[..k], [items[k]]);
    assert [items[k]][..0] == [];
  }

  /** The message opens with the header, and the segment of line k comes right after those of lines 0 to k-1. */
  lemma MessageLayout(w: Wording, items: seq<Item>, k: nat, name: Option<string>, phone: Option<string>, address: Option<string>)
    requires k < |items|
    ensures Header(w) + Segments(w, items[..k]) + Segment(w, items[k]) <= Message(w, items, name, phone, address)
  {
    var earlier, line, later := Segments(w, items[..k]), Segment(w, items[k]), Segments(w, items[k + 1..]);
    var trailer := w.totalLabel + CentsText(Total(items)) + CustomerBlock(w, name, phone, address);
    assert Segments(w, items) == earlier + line + later by {
      SegmentsInOrder(w, items, k);
    }
    LayoutRegroup(Header(w), earlier, line, later, w.totalLabel, CentsText(Total(items)), CustomerBlock(w, name, phone, address));
    Prefix(Header(w) + earlier + line, later + trailer);
  }

  lemma LayoutRegroup(h: string, p: string, x: string, q: string, t: string, c: string, b: string)
    ensures h + (p + x + q) + t + c + b == (h + p + x) + (q + t + c + b)
  {
  }

  /** The amount printed after the total label reads back as the cart total. */
  lemma TotalReadsBack(w: Wording, items: seq<Item>, name: Option<string>, phone: Option<string>, address: Option<string>)
    ensures var t := CentsText(Total(items));
      Message(w, items, name, phone, address)
        == Header(w) + Segments(w, items) + w.totalLabel + t + CustomerBlock(w, name, phone, address)
      && ParseCents(t) == Total(items)
  {
    CentsTextRoundTrip(Total(items));
  }

  /** The customer block is only its heading exactly when no answer was supplied. */
  lemma CustomerBlockBare(w: Wording, name: Option<string>, phone: Option<string>, address: Option<string>)
    ensures CustomerBlock(w, name, phone, address) == w.customerHeading
        <==> !Supplied(name) && !Supplied(phone) && !Supplied(address)
  {
    var block := CustomerBlock(w, name, phone, address);
    if Supplied(name) || Supplied(phone) || Supplied(address) {
      assert |block| > |w.customerHeading|;
    }
  }

  /** With only a name given, the message ends in the name line and shows no phone or address label. */
  lemma OnlyNameSupplied(w: Wording, items: seq<Item>, name: string, phone: Option<string>, address: Option<string>)
    requires name != "" && !Supplied(phone) && !Supplied(address)
    ensures Message(w, items, Some(name), phone, address)
      == Header(w) + Segments(w, items) + w.totalLabel + CentsText(Total(items)) + w.customerHeading + w.nameLabel + name
  {
  }
}
