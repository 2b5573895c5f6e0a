/**
 * The cart's line items as values: the item record, the two aggregates
 * (total and item count), the lookup by id, and the specification of the
 * two operations that change the item sequence (adding and removing).
 * Prices are integer cents.
 */
module Items {

  /** One product in the cart; `name` and `price` are fixed when the item is first added. */
  datatype Item = Item(id: string, name: string, price: nat, quantity: nat)

  /** What one line contributes to the total: price times quantity. */
  function LineTotal(x: Item): nat {
    x.price * x.quantity
  }

  /** The cart total, accumulated from the left as the source's reduce does. */
  function Total(s: seq<Item>): nat {
    if s == [] then 0 else Total(s[..|s| - 1]) + LineTotal(s[|s| - 1])
  }

  /** The item count shown on the cart badge: the sum of all quantities. */
  function Count(s: seq<Item>): nat {
    if s == [] then 0 else Count(s[..|s| - 1]) + s[|s| - 1].quantity
  }

  ghost predicate UniqueIds(s: seq<Item>) {
    forall i, j :: 0 <= i < j < |s| ==> s[i].id != s[j].id
  }

  ghost predicate AllPositive(s: seq<Item>) {
    forall k :: 0 <= k < |s| ==> s[k].quantity >= 1
  }

  /** The cart invariant: ids are unique and no line has quantity zero. */
  ghost predicate WellFormed(s: seq<Item>) {
    UniqueIds(s) && AllPositive(s)
  }

  /** Position of the first item with the given id, or -1 when there is none. */
  function FindIndex(s: seq<Item>, id: string): (r: int)
    ensures -1 <= r < |s|
    ensures r == -1 <==> forall k :: 0 <= k < |s| ==> s[k].id != id
    ensures 0 <= r ==> s[r].id == id && forall k :: 0 <= k < r ==> s[k].id != id
  {
    if s == [] then -1
    else if s[0].id == id then 0
    else
      var r := FindIndex(s[1..], id);
      if r == -1 then -1 else r + 1
  }

  /**
   * The item sequence after adding `quantity` units of a product: nothing
   * changes for a non-positive quantity; an id already present only has its
   * quantity raised; a new id is appended at the end.
   */
  function Add(s: seq<Item>, id: string, name: string, price: nat, quantity: int): seq<Item> {
    if quantity <= 0 then s
    else
      var i := FindIndex(s, id);
      if i == -1 then s + [Item(id, name, price, quantity)]
      else s[i := s[i].(quantity := s[i].quantity + quantity)]
  }

  /** The item sequence with every item of the given id filtered out. */
  function Without(s: seq<Item>, id: string): (r: seq<Item>)
    ensures |r| <= |s|
  {
    if s == [] then []
    else (if s[0].id == id then [] else [s[0]]) + Without(s[1..], id)
  }

  // ---------------------------------------------------------------------
  // Adding

  lemma AddRejectsNonPositive(s: seq<Item>, id: string, name: string, price: nat, quantity: int)
    requires quantity <= 0
    ensures Add(s, id, name, price, quantity) == s
  {
  }

  /** Adding to an id already present raises that item's quantity and touches nothing else. */
  lemma AddExisting(s: seq<Item>, id: string, name: string, price: nat, quantity: int)
    requires quantity > 0 && FindIndex(s, id) >= 0
    ensures var i, r := FindIndex(s, id), Add(s, id, name, price, quantity);
      |r| == |s| &&
      r[i].id == s[i].id && r[i].name == s[i].name && r[i].price == s[i].price &&
      r[i].quantity == s[i].quantity + quantity &&
      forall k :: 0 <= k < |s| && k != i ==> r[k] == s[k]
  {
  }

  /** Adding a new id appends exactly one item and keeps the earlier ones in place. */
  lemma AddNew(s: seq<Item>, id: string, name: string, price: nat, quantity: int)
    requires quantity > 0 && FindIndex(s, id) == -1
    ensures var r := Add(s, id, name, price, quantity);
      |r| == |s| + 1 && r[..|s|] == s && r[|s|] == Item(id, name, price, quantity)
  {
  }

  lemma AddPreservesWellFormed(s: seq<Item>, id: string, name: string, price: nat, quantity: int)
    requires WellFormed(s)
    ensures WellFormed(Add(s, id, name, price, quantity))
  {
    var r := Add(s, id, name, price, quantity);
    if quantity > 0 && FindIndex(s, id) == -1 {
      forall i, j | 0 <= i < j < |r| ensures r[i].id != r[j].id {
        if j == |s| {
          assert r[i] == s[i];
        }
      }
    }
  }

  /** Two adds of the same new id leave one item with the summed quantity and the first name and price. */
  lemma {:induction false} AddTwice(s: seq<Item>, id: string, name1: string, price1: nat, q1: int,
                                    name2: string, price2: nat, q2: int)
    requires FindIndex(s, id) == -1 && q1 > 0 && q2 > 0
    ensures Add(Add(s, id, name1, price1, q1), id, name2, price2, q2) == s + [Item(id, name1, price1, q1 + q2)]
  {
    var s1 := Add(s, id, name1, price1, q1);
    assert s1 == s + [Item(id, name1, price1, q1)];
    assert s1[|s|].id == id;
    forall k | 0 <= k < |s| ensures s1[k] == s[k] { }
    assert FindIndex(s1, id) == |s|;
  }

  /** The count rises by exactly the quantity added, whether the id was present or not. */
  lemma AddCount(s: seq<Item>, id: string, name: string, price: nat, quantity: int)
    ensures Count(Add(s, id, name, price, quantity)) == Count(s) + (if quantity > 0 then quantity else 0)
  {
    var i := FindIndex(s, id);
    var r := Add(s, id, name, price, quantity);
    if quantity > 0 && i == -1 {
      var x := Item(id, name, price, quantity);
      assert r == s + [x];
      assert (s + [x])[..|s|] == s;
    } else if quantity > 0 {
      var x := s[i].(quantity := s[i].quantity + quantity);
      assert r == s[i := x];
      UpdateSums(s, i, x);
    }
  }

  lemma AddTotal(s: seq<Item>, id: string, name: string, price: nat, quantity: int)
    ensures var i := FindIndex(s, id);
      var unit := if i == -1 then price else s[i].price;
      Total(Add(s, id, name, price, quantity)) == Total(s) + (if quantity > 0 then unit * quantity else 0)
  {
    var i := FindIndex(s, id);
    var r := Add(s, id, name, price, quantity);
    if quantity > 0 && i == -1 {
      var x := Item(id, name, price, quantity);
      assert r == s + [x];
      AppendedTotal(s, x);
    } else if quantity > 0 {
      assert r == s[i := s[i].(quantity := s[i].quantity + quantity)];
      RaisedTotal(s, i, quantity);
    }
  }

  lemma AppendedTotal(s: seq<Item>, x: Item)
    ensures Total(s + [x]) == Total(s) + x.price * x.quantity
  {
    assert (s + [x])[..|s|] == s;
  }

  lemma RaisedTotal(s: seq<Item>, i: nat, q: nat)
    requires i < |s|
    ensures Total(s[i := s[i].(quantity := s[i].quantity + q)]) == Total(s) + s[i].price * q
  {
    UpdateSums(s, i, s[i].(quantity := s[i].quantity + q));
    RaisedLineTotal(s[i], q);
  }

  /** Raising a line's quantity by q raises its share of the total by price times q. */
  lemma RaisedLineTotal(x: Item, q: nat)
    ensures LineTotal(x.(quantity := x.quantity + q)) == LineTotal(x) + x.price * q
  {
    var p, a := x.price, x.quantity;
    assert p * (a + q) == p * a + p * q;
  }

  // ---------------------------------------------------------------------
  // Removing

  /** Removing an id that is absent leaves the sequence unchanged. */
  lemma {:induction false} WithoutAbsent(s: seq<Item>, id: string)
    requires FindIndex(s, id) == -1
    ensures Without(s, id) == s
  {
    if s != [] {
      WithoutAbsent(s[1..], id);
    }
  }

  /** The filtered sequence keeps exactly the items whose id differs. */
  lemma {:induction false} WithoutMembers(s: seq<Item>, id: string)
    ensures forall x :: x in Without(s, id) <==> x in s && x.id != id
  {
    if s != [] {
      WithoutMembers(s[1..], id);
      assert s == [s[0]] + s[1..];
    }
  }

  /** Filtering distributes over concatenation: the kept items stay in their original order. */
  lemma {:induction false} WithoutAppend(a: seq<Item>, b: seq<Item>, id: string)
    ensures Without(a + b, id) == Without(a, id) + Without(b, id)
  {
    if a == [] {
      assert a + b == b;
    } else {
      assert (a + b)[0] == a[0];
      assert (a + b)[1..] == a[1..] + b;
      WithoutAppend(a[1..], b, id);
      var head := if a[0].id == id then [] else [a[0]];
      calc {
        Without(a + b, id);
        head + Without(a[1..] + b, id);
        head + (Without(a[1..], id) + Without(b, id));
        (head + Without(a[1..], id)) + Without(b, id);
        Without(a, id) + Without(b, id);
      }
    }
  }

  /** With unique ids, removing a present id cuts out exactly the one item at its position. */
  lemma {:induction false} WithoutPresent(s: seq<Item>, id: string)
    requires UniqueIds(s) && FindIndex(s, id) >= 0
    ensures var i := FindIndex(s, id); Without(s, id) == s[..i] + s[i + 1..]
  {
    var i := FindIndex(s, id);
    var before, x, after := s[..i], s[i], s[i + 1..];
    assert s == before + [x] + after;
    assert FindIndex(before, id) == -1 by {
      assert forall k :: 0 <= k < |before| ==> before[k] == s[k];
    }
    assert FindIndex(after, id) == -1 by {
      forall k | 0 <= k < |after| ensures after[k].id != id {
        assert after[k] == s[i + 1 + k];
      }
    }
    CutOut(before, x, after, id);
  }

  lemma CutOut(before: seq<Item>, x: Item, after: seq<Item>, id: string)
    requires FindIndex(before, id) == -1 && x.id == id && FindIndex(after, id) == -1
    ensures Without(before + [x] + after, id) == before + after
  {
    var front := before + [x];
    assert Without(front, id) == before by {
      WithoutAppend(before, [x], id);
      WithoutAbsent(before, id);
      assert [x][1..] == [];
    }
    assert Without(front + after, id) == before + after by {
      WithoutAppend(front, after, id);
      WithoutAbsent(after, id);
    }
  }

  lemma {:induction false} WithoutPreservesWellFormed(s: seq<Item>, id: string)
    requires WellFormed(s)
    ensures WellFormed(Without(s, id))
  {
    if FindIndex(s, id) == -1 {
      WithoutAbsent(s, id);
    } else {
      WithoutPresent(s, id);
      CutPreservesWellFormed(s, FindIndex(s, id));
    }
  }

  lemma CutPreservesWellFormed(s: seq<Item>, i: nat)
    requires WellFormed(s) && i < |s|
    ensures WellFormed(s[..i] + s[i + 1..])
  {
    var r := s[..i] + s[i + 1..];
    assert forall k :: 0 <= k < |r| ==> r[k] == s[if k < i then k else k + 1];
  }

  /** Removing a present id lowers the count and the total by exactly that item's share. */
  lemma RemoveSums(s: seq<Item>, id: string)
    requires UniqueIds(s)
    ensures var i := FindIndex(s, id);
      var gone := if i == -1 then 0 else s[i].quantity;
      var goneTotal := if i == -1 then 0 else LineTotal(s[i]);
      Count(Without(s, id)) == Count(s) - gone && Total(Without(s, id)) == Total(s) - goneTotal
  {
    var i := FindIndex(s, id);
    if i == -1 {
      WithoutAbsent(s, id);
    } else {
      WithoutPresent(s, id);
      assert s == s[..i] + [s[i]] + s[i + 1..];
      AppendSums(s[..i], [s[i]]);
      AppendSums(s[..i] + [s[i]], s[i + 1..]);
      AppendSums(s[..i], s[i + 1..]);
      assert [s[i]][..0] == [];
    }
  }

  // ---------------------------------------------------------------------
  // Sums

  /** Both sums are additive over concatenation. */
  lemma {:induction false} AppendSums(a: seq<Item>, b: seq<Item>)
    ensures Count(a + b) == Count(a) + Count(b)
    ensures Total(a + b) == Total(a) + Total(b)
  {
    if b != [] {
      var b' := b[..|b| - 1];
      assert (a + b)[..|a + b| - 1] == a + b';
      AppendSums(a, b');
    } else {
      assert a + b == a;
    }
  }

  /** Replacing one item changes each sum by the difference between the new item's share and the old one's. */
  lemma UpdateSums(s: seq<Item>, i: nat, x: Item)
    requires i < |s|
    ensures Count(s[i := x]) == Count(s) - s[i].quantity + x.quantity
    ensures Total(s[i := x]) == Total(s) - LineTotal(s[i]) + LineTotal(x)
  {
    assert s == s[..i] + [s[i]] + s[i + 1..];
    assert s[i := x] == s[..i] + [x] + s[i + 1..];
    AppendSums(s[..i], [s[i]]);
    AppendSums(s[..i] + [s[i]], s[i + 1..]);
    AppendSums(s[..i], [x]);
    AppendSums(s[..i] + [x], s[i + 1..]);
    assert [s[i]][..0] == [] && [x][..0] == [];
  }
}
