/**
 * The checkout button: an empty cart is refused and left alone; otherwise
 * the order message is composed from the cart's items and the shopper's
 * three prompt answers, handed to the messaging channel, and the cart is
 * emptied.
 */
module Checkout {
  import opened Items
  import opened OrderMessage
  import opened Format
  import opened CartStore

  datatype CheckoutError = EmptyCart

  /** What checkout hands on: the message for the channel, or the reason it stopped. */
  datatype Outcome = Sent(message: string) | Refused(error: CheckoutError)

  method Checkout(cart: Cart, name: Option<string>, phone: Option<string>, address: Option<string>)
    returns (outcome: Outcome)
    requires cart.Valid()
    modifies cart
    ensures cart.Valid()
    ensures old(cart.items) == [] ==> outcome == Refused(EmptyCart) && cart.items == old(cart.items)
    ensures old(cart.items) != [] ==>
      outcome == Sent(Message(Spanish, old(cart.items), name, phone, address)) && cart.items == []
    ensures cart.ItemCount() == 0 && cart.CalculateTotal() == 0
  {
    if |cart.items| == 0 {
      return Refused(EmptyCart);
    }
    var message := Compose(Spanish, cart.items, name, phone, address);
    cart.items := [];
    outcome := Sent(message);
  }

  /** A shopping session: two products added, one removed, then checkout with only a name given. */
  method Session() {
    var oil, filter := Item("oil-5w30", "Aceite 5W30", 2500, 2), Item("filter-x", "Filtro X", 850, 1);
    SessionCart(oil, filter);
    var cart := new Cart();
    var ok := cart.AddItem(oil.id, oil.name, oil.price, oil.quantity);
    ok := cart.AddItem(filter.id, filter.name, filter.price, filter.quantity);
    assert cart.items == [oil, filter];
    assert cart.ItemCount() == 3 && cart.CalculateTotal() == 5850;
    cart.RemoveItem(oil.id);
    assert cart.items == [filter] && cart.CalculateTotal() == 850;
    var outcome := Checkout(cart, Some("Juan"), None, Some(""));
    assert outcome == Sent(Message(Spanish, [filter], Some("Juan"), None, Some("")));
    SessionMessage([filter]);
    assert cart.items == [] && cart.ItemCount() == 0;
  }

  /** The cart contents and amounts along the session above. */
  lemma SessionCart(oil: Item, filter: Item)
    requires oil == Item("oil-5w30", "Aceite 5W30", 2500, 2) && filter == Item("filter-x", "Filtro X", 850, 1)
    ensures Add([], oil.id, oil.name, oil.price, oil.quantity) == [oil]
    ensures Add([oil], filter.id, filter.name, filter.price, filter.quantity) == [oil, filter]
    ensures Count([oil, filter]) == 3 && Total([oil, filter]) == 5850
    ensures Without([oil, filter], oil.id) == [filter] && Total([filter]) == 850
  {
    assert oil.id != filter.id by {
      assert oil.id[0] != filter.id[0];
    }
    assert FindIndex([oil], filter.id) == -1;
    assert [oil, filter][..1] == [oil];
    assert Total([oil]) == 5000 && Count([oil]) == 2 by {
      assert [oil][..0] == [];
    }
    assert Total([filter]) == 850 by {
      assert [filter][..0] == [];
    }
    assert Without([oil, filter], oil.id) == [filter] by {
      assert [oil, filter][1..] == [filter];
      assert [filter][1..] == [];
    }
  }

  /** The message for the session above shows the total as "8.50" and, of the customer fields, only the name. */
  lemma SessionMessage(filter: seq<Item>)
    requires filter == [Item("filter-x", "Filtro X", 850, 1)]
    ensures Message(Spanish, filter, Some("Juan"), None, Some(""))
      == Header(Spanish) + Segment(Spanish, filter[0]) + Spanish.totalLabel + "8.50"
         + Spanish.customerHeading + Spanish.nameLabel + "Juan"
  {
    assert Total(filter) == 850;
    assert CentsText(850) == "8.50";
    assert filter[..0] == [];
    assert Segments(Spanish, filter) == Segment(Spanish, filter[0]);
    OnlyNameSupplied(Spanish, filter, "Juan", None, Some(""));
  }
}
