/**
 * The cart object: an ordered sequence of line items that `AddItem` and
 * `RemoveItem` update in place. Each method is tied to the value-level
 * specification in module Items, and keeps the cart invariant (unique ids,
 * every quantity at least one).
 */
module CartStore {
  import opened Items

  class Cart {
    var items: seq<Item>

    ghost predicate Valid()
      reads this
    {
      WellFormed(items)
    }

    constructor ()
      ensures Valid() && items == []
    {
      items := [];
    }

    /** The amount shown as subtotal and total, in cents. */
    function CalculateTotal(): nat
      reads this
    {
      Total(items)
    }

    /** The number shown on the cart badge. */
    function ItemCount(): nat
      reads this
    {
      Count(items)
    }

    /**
     * Adds `quantity` units of a product. A quantity that is not positive is
     * refused and nothing changes; an id already in the cart only has its
     * quantity raised; a new id is appended.
     */
    method AddItem(id: string, name: string, price: nat, quantity: int) returns (added: bool)
      requires Valid()
      modifies this
      ensures Valid()
      ensures added <==> quantity > 0
      ensures items == Add(old(items), id, name, price, quantity)
      ensures ItemCount() == old(ItemCount()) + (if added then quantity else 0)
      ensures var i := FindIndex(old(items), id);
        var unit := if i == -1 then price else old(items)[i].price;
        CalculateTotal() == old(CalculateTotal()) + (if added then unit * quantity else 0)
    {
      if quantity <= 0 {
        return false;
      }
      AddPreservesWellFormed(items, id, name, price, quantity);
      AddCount(items, id, name, price, quantity);
      AddTotal(items, id, name, price, quantity);
      var i := FindIndex(items, id);
      if i != -1 {
        items := items[i := items[i].(quantity := items[i].quantity + quantity)];
      } else {
        items := items + [Item(id, name, price, quantity)];
      }
      added := true;
    }

    /** Drops every item with the given id; an id not in the cart changes nothing. */
    method RemoveItem(id: string)
      requires Valid()
      modifies this
      ensures Valid()
      ensures items == Without(old(items), id)
      ensures FindIndex(items, id) == -1
      ensures FindIndex(old(items), id) == -1 ==> items == old(items)
      ensures var i := FindIndex(old(items), id);
        ItemCount() == old(ItemCount()) - (if i == -1 then 0 else old(items)[i].quantity) &&
        CalculateTotal() == old(CalculateTotal()) - (if i == -1 then 0 else LineTotal(old(items)[i]))
    {
      WithoutPreservesWellFormed(items, id);
      WithoutMembers(items, id);
      RemoveSums(items, id);
      if FindIndex(items, id) == -1 {
        WithoutAbsent(items, id);
      }
      items := Without(items, id);
    }
  }
}
