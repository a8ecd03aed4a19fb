/** The derived figures of the ingredient page (`InsumoPage`): the low-stock
    list, the total stock value, the number of distinct suppliers, and the
    expired / expiring-soon tests on an expiration date. Instants are
    milliseconds since the epoch; "no date" (the empty string) is `None`. */
module Inventory {
  import opened Optional
  import opened Lists

  datatype Ingredient = Ingredient(
    id: int, name: string, unit: string, unitCost: real, stock: real, minStock: real,
    supplierId: Option<string>, expiration: Option<int>, isActive: bool)

  // ---------------------------------------------------------------------------
  // Low stock.

  /** Stock at or below the minimum counts as low (the alert, the badge and the red figure). */
  predicate IsLowStock(item: Ingredient)
  {
    item.stock <= item.minStock
  }

  /** `insumos.filter((item) => item.stock <= item.minStock)` */
  function LowStockItems(items: seq<Ingredient>): seq<Ingredient>
  {
    Filter(items, IsLowStock)
  }

  /** An item is listed exactly when it is low, equality included, and the list
      keeps the page's order. */
  lemma LowStockItemsSpec(items: seq<Ingredient>)
    ensures forall x :: x in LowStockItems(items) <==> x in items && x.stock <= x.minStock
    ensures IsSubsequence(LowStockItems(items), items)
    ensures |LowStockItems(items)| <= |items|
    ensures forall x :: multiset(LowStockItems(items))[x] ==
              (if x.stock <= x.minStock then multiset(items)[x] else 0)
  {
    FilterIsSubsequence(items, IsLowStock);
  }

  // ---------------------------------------------------------------------------
  // Total value.

  /** `insumos.reduce((acc, item) => acc + item.unitCost * item.stock, 0)`, a left fold. */
  function TotalValue(items: seq<Ingredient>): real
  {
    if items == [] then 0.0
    else TotalValue(items[..|items| - 1]) + items[|items| - 1].unitCost * items[|items| - 1].stock
  }

  /** The total of two lists laid end to end is the sum of their totals. */
  lemma {:induction false} TotalValueAppend(a: seq<Ingredient>, b: seq<Ingredient>)
    ensures TotalValue(a + b) == TotalValue(a) + TotalValue(b)
    decreases |b|
  {
    if b == [] {
      assert a + b == a;
    } else {
      var n := |b| - 1;
      assert (a + b)[..|a + b| - 1] == a + b[..n];
      TotalValueAppend(a, b[..n]);
    }
  }

  /** The total of a single item is that item's stock value; of no item, 0. */
  lemma TotalValueSingle(x: Ingredient)
    ensures TotalValue([]) == 0.0
    ensures TotalValue([x]) == x.unitCost * x.stock
  {
    assert [x][..0] == [];
  }

  /** With non-negative costs and stocks the total is never negative. */
  lemma {:induction false} TotalValueNonNegative(items: seq<Ingredient>)
    requires forall i :: 0 <= i < |items| ==> items[i].unitCost >= 0.0 && items[i].stock >= 0.0
    ensures TotalValue(items) >= 0.0
    decreases |items|
  {
    if items != [] {
      var n := |items| - 1;
      TotalValueNonNegative(items[..n]);
      var last := items[n];
      assert last.unitCost * last.stock >= 0.0;
    }
  }

  // ---------------------------------------------------------------------------
  // Distinct suppliers.

  /** The supplier ids `new Set(insumos.map((item) => item.supplier?.id).filter(Boolean))`
      holds: present and not the empty string. */
  function SupplierIds(items: seq<Ingredient>): set<string>
  {
    if items == [] then {}
    else
      var rest := SupplierIds(items[1..]);
      match items[0].supplierId
      case Some(id) => if id != "" then {id} + rest else rest
      case None => rest
  }

  /** `.size` of that set. */
  function ActiveSuppliers(items: seq<Ingredient>): nat
  {
    |SupplierIds(items)|
  }

  /** An id is counted exactly when it is non-empty and some item names it. */
  lemma {:induction false} SupplierIdsMembers(items: seq<Ingredient>, id: string)
    ensures id in SupplierIds(items) <==>
              id != "" && exists i :: 0 <= i < |items| && items[i].supplierId == Some(id)
    decreases |items|
  {
    if items != [] {
      SupplierIdsMembers(items[1..], id);
      if exists i :: 0 <= i < |items[1..]| && items[1..][i].supplierId == Some(id) {
        var i :| 0 <= i < |items[1..]| && items[1..][i].supplierId == Some(id);
        assert items[i + 1].supplierId == Some(id);
      }
      if exists i :: 0 <= i < |items| && items[i].supplierId == Some(id) {
        var i :| 0 <= i < |items| && items[i].supplierId == Some(id);
        if i > 0 {
          assert items[1..][i - 1].supplierId == Some(id);
        }
      }
    }
  }

  /** At most one supplier per item. */
  lemma {:induction false} ActiveSuppliersBound(items: seq<Ingredient>)
    ensures ActiveSuppliers(items) <= |items|
    decreases |items|
  {
    if items != [] {
      ActiveSuppliersBound(items[1..]);
      var rest := SupplierIds(items[1..]);
      match items[0].supplierId
      case Some(id) =>
        if id != "" {
          assert |{id} + rest| <= |{id}| + |rest|;
        }
      case None =>
    }
  }

  /** Another item from a supplier already counted does not change the count. */
  lemma ActiveSuppliersDuplicate(items: seq<Ingredient>, x: Ingredient)
    requires exists i :: 0 <= i < |items| && items[i].supplierId == x.supplierId
    ensures ActiveSuppliers([x] + items) == ActiveSuppliers(items)
  {
    assert ([x] + items)[1..] == items;
    match x.supplierId
    case Some(id) =>
      if id != "" {
        SupplierIdsMembers(items, id);
        assert {id} + SupplierIds(items) == SupplierIds(items);
      }
    case None =>
  }

  // ---------------------------------------------------------------------------
  // Expiration.

  /** `1000 * 60 * 60 * 24` */
  const DayMs: int := 86400000

  /** `Math.ceil(a / d)` for a positive divisor. */
  function CeilDiv(a: int, d: int): int
    requires d > 0
  {
    -((-a) / d)
  }

  /** `CeilDiv(a, d)` is the least integer `q` with `a <= q * d`. */
  lemma CeilDivBounds(a: int, d: int)
    requires d > 0
    ensures (CeilDiv(a, d) - 1) * d < a <= CeilDiv(a, d) * d
  {
    var q := (-a) / d;
    assert q * d <= -a < q * d + d;
  }

  /** `isExpiringSoon`: whole days left, rounded up, between 1 and 30. */
  predicate IsExpiringSoon(expiration: Option<int>, now: int)
  {
    expiration.Some? &&
    var diffDays := CeilDiv(expiration.value - now, DayMs);
    diffDays <= 30 && diffDays > 0
  }

  /** `isExpired`: the expiration instant is strictly before now. */
  predicate IsExpired(expiration: Option<int>, now: int)
  {
    expiration.Some? && expiration.value < now
  }

  /** Rounding the days up makes "expiring soon" exactly "later than now and
      at most 30 days from now". */
  lemma ExpiringSoonIff(expiration: Option<int>, now: int)
    ensures IsExpiringSoon(expiration, now) <==>
              expiration.Some? && 0 < expiration.value - now <= 30 * DayMs
  {
    if expiration.Some? {
      CeilDivBounds(expiration.value - now, DayMs);
    }
  }

  /** No date is neither expired nor expiring; a date is never both; a date
      exactly at now is neither. */
  lemma ExpiryExclusive(expiration: Option<int>, now: int)
    ensures expiration.None? ==> !IsExpired(expiration, now) && !IsExpiringSoon(expiration, now)
    ensures !(IsExpired(expiration, now) && IsExpiringSoon(expiration, now))
    ensures expiration == Some(now) ==> !IsExpired(expiration, now) && !IsExpiringSoon(expiration, now)
  {
    ExpiringSoonIff(expiration, now);
  }

  /** Once expired an item stays expired; an item expiring soon is not yet
      expired and is expired once 30 days and a millisecond have passed. */
  lemma ExpiryOverTime(expiration: Option<int>, now: int, later: int)
    ensures IsExpired(expiration, now) && now <= later ==> IsExpired(expiration, later)
    ensures IsExpiringSoon(expiration, now) ==>
              !IsExpired(expiration, now) && IsExpired(expiration, now + 30 * DayMs + 1)
  {
    ExpiringSoonIff(expiration, now);
  }

  // ---------------------------------------------------------------------------
  // The page's mock list.

  const Fixture: seq<Ingredient> := [
    Ingredient(1, "Farinha de Trigo Especial", "kg", 4.5, 25.5, 10.0, Some("1"), Some(1723680000000), true),
    Ingredient(2, "Chocolate 70% Cacau", "kg", 28.9, 3.2, 5.0, Some("2"), Some(1734652800000), true),
    Ingredient(3, "Ovos Orgânicos", "dúzia", 8.5, 15.0, 8.0, Some("3"), Some(1721865600000), true),
    Ingredient(4, "Açúcar Cristal", "kg", 3.2, 50.0, 20.0, Some("4"), None, true)
  ]

  /** On the mock list only the chocolate is low, the stock is worth 494.73
      and four suppliers are counted. */
  lemma FixtureFigures()
    ensures LowStockItems(Fixture) == [Fixture[1]]
    ensures TotalValue(Fixture) == 494.73
    ensures ActiveSuppliers(Fixture) == 4
  {
    FixtureLowStock();
    FixtureTotalValue();
    FixtureSuppliers();
  }

  lemma FixtureLowStock()
    ensures LowStockItems(Fixture) == [Fixture[1]]
  {
    assert Fixture[1..][1..][1..][1..] == [];
  }

  lemma FixtureTotalValue()
    ensures TotalValue(Fixture) == 494.73
  {
    assert Fixture[..3][..2][..1][..0] == [];
    assert TotalValue(Fixture[..1]) == 114.75;
    assert Fixture[..3][..2] == Fixture[..2];
    assert TotalValue(Fixture[..2]) == 114.75 + 92.48;
    assert Fixture[..3] == Fixture[..|Fixture| - 1];
    assert TotalValue(Fixture[..3]) == 114.75 + 92.48 + 127.5;
  }

  lemma FixtureSuppliers()
    ensures ActiveSuppliers(Fixture) == 4
  {
    assert Fixture[1..][1..][1..][1..] == [];
    assert SupplierIds(Fixture) == {"1", "2", "3", "4"};
  }
}
