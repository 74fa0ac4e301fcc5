/** The value side of the sale composer: catalog entries, the lines of a
    draft sale, and the list operations the sales page builds them with
    (`find`, `filter`, `map`, append and the `reduce` that totals them).
    Prices, quantities and totals are whole Colombian pesos and units, so
    they are unbounded integers here. */
module OrderLines {

  datatype Option<T> = None | Some(value: T)

  /** A product as the products endpoint returns it. */
  datatype Product = Product(id: int, nombre: string, precio: int, stock: int, estado: string)

  /** A client as the clients endpoint returns it (only the fields the sale form reads). */
  datatype Client = Client(id: int, nombre: string)

  /** One line of a draft sale; `nombre` and `precioUnitario` are copies taken when the line is created. */
  datatype LineItem = LineItem(productoId: int, nombre: string, cantidad: int, precioUnitario: int)

  /** Why an add request was turned down, or the catalog entry it was accepted for. */
  datatype AddOutcome =
    | Accepted(product: Product)
    | InvalidSelection
    | UnknownProduct
    | InsufficientStock(available: int)

  /** The only status the product picker offers. */
  const Disponible: string := "Disponible"

  function ProductId(p: Product): int { p.id }
  function ClientId(c: Client): int { c.id }
  function LineId(l: LineItem): int { l.productoId }

  // ---------------------------------------------------------------------------
  // The array primitives the page uses

  /** `Array.prototype.find` by key: the first element whose key is `id`. */
  function Find<T>(s: seq<T>, key: T -> int, id: int): (r: Option<T>)
    ensures r.None? <==> forall x :: x in s ==> key(x) != id
    ensures r.Some? ==> exists i :: 0 <= i < |s| && s[i] == r.value && key(s[i]) == id &&
                                    forall j :: 0 <= j < i ==> key(s[j]) != id
  {
    if s == [] then None
    else if key(s[0]) == id then Some(s[0])
    else
      var r := Find(s[1..], key, id);
      assert forall x :: x in s ==> x == s[0] || x in s[1..];
      assert r.Some? ==> exists i :: 0 <= i < |s[1..]| && s[1..][i] == r.value && key(s[1..][i]) == id &&
                                     forall j :: 0 <= j < i ==> key(s[1..][j]) != id;
      assert r.Some? ==> exists i :: 1 <= i < |s| && s[i] == r.value && key(s[i]) == id &&
                                     forall j :: 0 <= j < i ==> key(s[j]) != id;
      r
  }

  /** `Array.prototype.filter`: the elements `keep` accepts, in their order. */
  function Filter<T(!new)>(s: seq<T>, keep: T -> bool): (r: seq<T>)
    ensures |r| <= |s|
    ensures forall x :: x in r <==> x in s && keep(x)
  {
    if s == [] then []
    else
      assert forall x :: x in s <==> x == s[0] || x in s[1..];
      (if keep(s[0]) then [s[0]] else []) + Filter(s[1..], keep)
  }

  /** Filtering distributes over concatenation, so it keeps the relative order of what it keeps. */
  lemma {:induction false} FilterConcat<T(!new)>(a: seq<T>, b: seq<T>, keep: T -> bool)
    ensures Filter(a + b, keep) == Filter(a, keep) + Filter(b, keep)
  {
    if a == [] {
      assert a + b == b;
    } else {
      assert (a + b)[1..] == a[1..] + b;
      FilterConcat(a[1..], b, keep);
    }
  }

  /** A filter that rejects nothing returns its input unchanged. */
  lemma {:induction false} FilterKeepsAll<T(!new)>(s: seq<T>, keep: T -> bool)
    requires forall x :: x in s ==> keep(x)
    ensures Filter(s, keep) == s
  {
    if s != [] {
      assert forall x :: x in s[1..] ==> x in s;
      FilterKeepsAll(s[1..], keep);
    }
  }

  // ---------------------------------------------------------------------------
  // The catalog

  /** The products the picker offers: those whose `estado` is exactly `Disponible`. */
  function AvailableProducts(all: seq<Product>): (r: seq<Product>)
    ensures |r| <= |all|
    ensures forall p :: p in r <==> p in all && p.estado == Disponible
  {
    Filter(all, (p: Product) => p.estado == Disponible)
  }

  /** The picker keeps the response's order, which decides the entry `Find` picks when two products share an id. */
  lemma AvailableProductsKeepsOrder(a: seq<Product>, b: seq<Product>)
    ensures AvailableProducts(a + b) == AvailableProducts(a) + AvailableProducts(b)
  {
    FilterConcat(a, b, (p: Product) => p.estado == Disponible);
  }

  /** The checks an add request goes through, in order, before the draft is touched:
      a selection and a quantity of at least 1, a catalog entry for the selection,
      and a requested quantity within that entry's stock. The draft is not an
      input: units already in the draft are not counted against the stock. */
  function ValidateAdd(catalog: seq<Product>, selected: Option<int>, quantity: int): (r: AddOutcome)
    ensures r.InvalidSelection? <==> selected.None? || quantity < 1
    ensures r.UnknownProduct? <==>
      selected.Some? && quantity >= 1 && forall p :: p in catalog ==> p.id != selected.value
    ensures r.InsufficientStock? ==>
      quantity >= 1 && exists p :: p in catalog && selected == Some(p.id) && quantity > p.stock && r.available == p.stock
    ensures r.Accepted? ==>
      r.product in catalog && selected == Some(r.product.id) && 1 <= quantity <= r.product.stock
    ensures (r.Accepted? || r.InsufficientStock?) ==>
      exists i :: 0 <= i < |catalog| && catalog[i].id == selected.value &&
        (r.Accepted? ==> catalog[i] == r.product) && (r.InsufficientStock? ==> r.available == catalog[i].stock) &&
        forall j :: 0 <= j < i ==> catalog[j].id != selected.value
  {
    if selected.None? || quantity < 1 then InvalidSelection
    else match Find(catalog, ProductId, selected.value)
      case None => UnknownProduct
      case Some(p) => if quantity > p.stock then InsufficientStock(p.stock) else Accepted(p)
  }

  // ---------------------------------------------------------------------------
  // Lines of the draft

  /** At most one line per product. */
  ghost predicate UniqueIds(lines: seq<LineItem>) {
    forall i, j :: 0 <= i < j < |lines| ==> lines[i].productoId != lines[j].productoId
  }

  /** What the sale form keeps true of its lines: one line per product, each with at least one unit. */
  ghost predicate WellFormed(lines: seq<LineItem>) {
    UniqueIds(lines) && forall l :: l in lines ==> l.cantidad >= 1
  }

  /** Whether some line is for product `id`. */
  predicate HasLine(lines: seq<LineItem>, id: int)
    ensures HasLine(lines, id) <==> exists i :: 0 <= i < |lines| && lines[i].productoId == id
  {
    exists l :: l in lines && l.productoId == id
  }

  /** `HasLine` is the truth of the page's `find` over the lines: a line exists exactly when `find` returns one. */
  lemma HasLineIsFind(lines: seq<LineItem>, id: int)
    ensures HasLine(lines, id) <==> Find(lines, LineId, id).Some?
  {
  }

  /** A new line for `p`, copying its current name and price. */
  function NewLine(p: Product, quantity: int): (r: LineItem)
    ensures r.productoId == p.id && r.nombre == p.nombre && r.precioUnitario == p.precio
    ensures r.cantidad == quantity && Subtotal(r) == quantity * p.precio
  {
    LineItem(p.id, p.nombre, quantity, p.precio)
  }

  /** The `map` that raises the quantity of every line for product `id` by `quantity`. */
  function MergeQuantity(lines: seq<LineItem>, id: int, quantity: int): (r: seq<LineItem>)
    ensures |r| == |lines|
    ensures forall i :: 0 <= i < |r| ==> r[i].productoId == lines[i].productoId
    ensures forall i :: 0 <= i < |r| && lines[i].productoId != id ==> r[i] == lines[i]
    ensures forall i :: 0 <= i < |r| && lines[i].productoId == id ==>
      r[i].cantidad == lines[i].cantidad + quantity &&
      r[i].nombre == lines[i].nombre && r[i].precioUnitario == lines[i].precioUnitario
  {
    seq(|lines|, i requires 0 <= i < |lines| =>
      if lines[i].productoId == id then lines[i].(cantidad := lines[i].cantidad + quantity) else lines[i])
  }

  /** The lines after an accepted add of `quantity` units of `p`: merged into the
      existing line for `p.id`, or appended as a new line at the end. */
  function AddLine(lines: seq<LineItem>, p: Product, quantity: int): (r: seq<LineItem>)
    ensures !HasLine(lines, p.id) ==> r == lines + [NewLine(p, quantity)]
    ensures HasLine(lines, p.id) ==> |r| == |lines|
    ensures forall i :: 0 <= i < |lines| && lines[i].productoId != p.id ==> r[i] == lines[i]
    ensures HasLine(r, p.id)
    ensures WellFormed(lines) && quantity >= 1 ==> WellFormed(r)
  {
    if HasLine(lines, p.id) then
      var r := MergeQuantity(lines, p.id, quantity);
      assert HasLine(r, p.id) by {
        var x :| x in lines && x.productoId == p.id;
        var i :| 0 <= i < |lines| && lines[i] == x;
        assert r[i] in r;
      }
      r
    else
      var r := lines + [NewLine(p, quantity)];
      assert r[|lines|] in r;
      assert WellFormed(lines) ==> UniqueIds(r) by {
        forall i | 0 <= i < |lines| ensures lines[i].productoId != p.id { assert lines[i] in lines; }
      }
      r
  }

  /** When product `id` already has a line (and it is the only one), merging changes just that line's quantity. */
  lemma MergeUpdatesOneLine(lines: seq<LineItem>, id: int, quantity: int, k: int)
    requires UniqueIds(lines) && 0 <= k < |lines| && lines[k].productoId == id
    ensures MergeQuantity(lines, id, quantity) == lines[k := lines[k].(cantidad := lines[k].cantidad + quantity)]
  {
  }

  /** Adding to a product that has a line: only that line changes, and only its quantity, by exactly `quantity`. */
  lemma AddToExistingLine(lines: seq<LineItem>, p: Product, quantity: int, k: int)
    requires UniqueIds(lines) && 0 <= k < |lines| && lines[k].productoId == p.id
    ensures AddLine(lines, p, quantity) == lines[k := lines[k].(cantidad := lines[k].cantidad + quantity)]
  {
    assert lines[k] in lines;
    MergeUpdatesOneLine(lines, p.id, quantity, k);
  }

  /** Two adds of the same product make one line holding the sum of both requests. */
  lemma AddLineTwice(lines: seq<LineItem>, p: Product, q1: int, q2: int)
    ensures AddLine(AddLine(lines, p, q1), p, q2) == AddLine(lines, p, q1 + q2)
  {
    if !HasLine(lines, p.id) {
      var once := lines + [NewLine(p, q1)];
      assert once[|lines|] in once;
      assert MergeQuantity(once, p.id, q2) == lines + [NewLine(p, q1 + q2)];
    }
  }

  /** `handleRemoveProduct`'s `filter`: every line for product `id` is dropped. */
  function RemoveLines(lines: seq<LineItem>, id: int): (r: seq<LineItem>)
    ensures forall l :: l in r <==> l in lines && l.productoId != id
    ensures !HasLine(r, id)
  {
    Filter(lines, (l: LineItem) => l.productoId != id)
  }

  /** Removing a product that has no line changes nothing. */
  lemma RemoveAbsent(lines: seq<LineItem>, id: int)
    requires !HasLine(lines, id)
    ensures RemoveLines(lines, id) == lines
  {
    FilterKeepsAll(lines, (l: LineItem) => l.productoId != id);
  }

  /** Removing twice is removing once. */
  lemma RemoveIdempotent(lines: seq<LineItem>, id: int)
    ensures RemoveLines(RemoveLines(lines, id), id) == RemoveLines(lines, id)
  {
    RemoveAbsent(RemoveLines(lines, id), id);
  }

  /** Removal works line by line, so the lines it keeps stay in their relative order. */
  lemma RemoveKeepsOrder(a: seq<LineItem>, b: seq<LineItem>, id: int)
    ensures RemoveLines(a + b, id) == RemoveLines(a, id) + RemoveLines(b, id)
  {
    FilterConcat(a, b, (l: LineItem) => l.productoId != id);
  }

  /** Removal keeps the draft well formed. */
  lemma {:induction false} RemovePreservesWellFormed(lines: seq<LineItem>, id: int)
    requires WellFormed(lines)
    ensures WellFormed(RemoveLines(lines, id))
  {
    if lines != [] {
      var tail := lines[1..];
      assert lines == [lines[0]] + tail;
      assert WellFormed(tail) by {
        forall l | l in tail ensures l.cantidad >= 1 { assert l in lines; }
      }
      RemovePreservesWellFormed(tail, id);
      RemoveKeepsOrder([lines[0]], tail, id);
      var rest := RemoveLines(tail, id);
      if lines[0].productoId != id {
        FilterKeepsAll([lines[0]], (l: LineItem) => l.productoId != id);
        var r := [lines[0]] + rest;
        forall j | 0 < j < |r| ensures r[0].productoId != r[j].productoId {
          assert r[j] in rest;
          var k :| 0 <= k < |tail| && tail[k] == r[j];
          assert lines[k + 1] == r[j];
        }
      } else {
        assert Filter([lines[0]], (l: LineItem) => l.productoId != id) == [];
      }
    }
  }

  // ---------------------------------------------------------------------------
  // The total

  /** What one line contributes to the total. */
  function Subtotal(l: LineItem): (r: int)
    ensures l.cantidad >= 0 && l.precioUnitario >= 0 ==> r >= 0
    ensures l.cantidad == 0 || l.precioUnitario == 0 ==> r == 0
  {
    l.cantidad * l.precioUnitario
  }

  /** `calculateTotal`: a left-to-right `reduce` of the subtotals, starting at 0. */
  function Total(lines: seq<LineItem>): (r: int)
    ensures lines == [] ==> r == 0
    ensures |lines| == 1 ==> r == Subtotal(lines[0])
  {
    if lines == [] then 0
    else
      assert |lines| == 1 ==> lines[..0] == [];
      Total(lines[..|lines| - 1]) + Subtotal(lines[|lines| - 1])
  }

  /** With no negative quantities or prices the total is never negative. */
  lemma {:induction false} TotalNonNegative(lines: seq<LineItem>)
    requires forall l :: l in lines ==> l.cantidad >= 0 && l.precioUnitario >= 0
    ensures Total(lines) >= 0
  {
    if lines != [] {
      var last := lines[|lines| - 1];
      assert last in lines;
      assert forall l :: l in lines[..|lines| - 1] ==> l in lines;
      TotalNonNegative(lines[..|lines| - 1]);
      assert Subtotal(last) >= 0;
    }
  }

  /** The total of two runs of lines is the sum of their totals. */
  lemma {:induction false} TotalConcat(a: seq<LineItem>, b: seq<LineItem>)
    ensures Total(a + b) == Total(a) + Total(b)
  {
    if b == [] {
      assert a + b == a;
    } else {
      var c, init := a + b, b[..|b| - 1];
      assert c[..|c| - 1] == a + init;
      assert c[|c| - 1] == b[|b| - 1];
      TotalConcat(a, init);
      assert Total(c) == Total(a + init) + Subtotal(b[|b| - 1]);
    }
  }

  /** Replacing one line changes the total by the difference of the two subtotals. */
  lemma {:induction false} TotalUpdate(lines: seq<LineItem>, k: int, l: LineItem)
    requires 0 <= k < |lines|
    ensures Total(lines[k := l]) == Total(lines) - Subtotal(lines[k]) + Subtotal(l)
  {
    var n := |lines|;
    var u := lines[k := l];
    if k < n - 1 {
      assert u[..n - 1] == lines[..n - 1][k := l];
      TotalUpdate(lines[..n - 1], k, l);
    } else {
      assert u[..n - 1] == lines[..n - 1];
    }
  }

  /** The total does not depend on the order of the lines. */
  lemma {:induction false} TotalPermutation(s: seq<LineItem>, t: seq<LineItem>)
    requires multiset(s) == multiset(t)
    ensures Total(s) == Total(t)
    decreases |s|
  {
    if s != [] {
      var n := |s|;
      var x := s[n - 1];
      assert s == s[..n - 1] + [x];
      assert x in multiset(t);
      var j :| 0 <= j < |t| && t[j] == x;
      var rest := t[..j] + t[j + 1..];
      assert t == t[..j] + [x] + t[j + 1..];
      assert multiset(s) == multiset(s[..n - 1]) + multiset{x};
      assert multiset(t) == multiset(t[..j]) + multiset{x} + multiset(t[j + 1..]);
      assert multiset(rest) == multiset(t[..j]) + multiset(t[j + 1..]);
      assert multiset(s[..n - 1]) == multiset(s) - multiset{x};
      assert multiset(rest) == multiset(t) - multiset{x};
      TotalPermutation(s[..n - 1], rest);
      TotalConcat(t[..j] + [x], t[j + 1..]);
      TotalConcat(t[..j], [x]);
      TotalConcat(t[..j], t[j + 1..]);
      TotalSingle(x);
    }
  }

  /** The total of a single line is its subtotal. */
  lemma TotalSingle(l: LineItem)
    ensures Total([l]) == Subtotal(l)
  {
    assert [l][..0] == [];
  }

  /** Raising a line's quantity by `quantity` raises its subtotal by `quantity` times its unit price. */
  lemma SubtotalGrows(l: LineItem, quantity: int)
    ensures Subtotal(l.(cantidad := l.cantidad + quantity)) == Subtotal(l) + quantity * l.precioUnitario
  {
    assert (l.cantidad + quantity) * l.precioUnitario == l.cantidad * l.precioUnitario + quantity * l.precioUnitario;
  }

  /** Raising one line's quantity by `quantity` raises the total by `quantity` times that line's unit price. */
  lemma TotalGrowLine(lines: seq<LineItem>, k: int, quantity: int)
    requires 0 <= k < |lines|
    ensures Total(lines[k := lines[k].(cantidad := lines[k].cantidad + quantity)])
         == Total(lines) + quantity * lines[k].precioUnitario
  {
    TotalUpdate(lines, k, lines[k].(cantidad := lines[k].cantidad + quantity));
    SubtotalGrows(lines[k], quantity);
  }

  /** Merging into the one line for `p.id` raises the total by the units added times that line's unit price. */
  lemma TotalAfterMerge(lines: seq<LineItem>, p: Product, quantity: int, k: int)
    requires UniqueIds(lines) && 0 <= k < |lines| && lines[k].productoId == p.id
    ensures Total(AddLine(lines, p, quantity)) == Total(lines) + quantity * lines[k].precioUnitario
  {
    AddToExistingLine(lines, p, quantity, k);
    TotalGrowLine(lines, k, quantity);
  }

  /** An accepted add raises the total by the requested units times the unit price of the
      line they land in: the catalog price for a new line, the price copied when the existing
      line was created otherwise. The two agree when that copy still matches the catalog. */
  lemma TotalAfterAdd(lines: seq<LineItem>, p: Product, quantity: int)
    requires UniqueIds(lines)
    ensures !HasLine(lines, p.id) ==> Total(AddLine(lines, p, quantity)) == Total(lines) + quantity * p.precio
    ensures forall k :: 0 <= k < |lines| && lines[k].productoId == p.id ==>
      Total(AddLine(lines, p, quantity)) == Total(lines) + quantity * lines[k].precioUnitario
    ensures (forall l :: l in lines && l.productoId == p.id ==> l.precioUnitario == p.precio) ==>
      Total(AddLine(lines, p, quantity)) == Total(lines) + quantity * p.precio
  {
    if !HasLine(lines, p.id) {
      TotalConcat(lines, [NewLine(p, quantity)]);
      TotalSingle(NewLine(p, quantity));
    } else {
      forall k | 0 <= k < |lines| && lines[k].productoId == p.id
        ensures Total(AddLine(lines, p, quantity)) == Total(lines) + quantity * lines[k].precioUnitario
      {
        TotalAfterMerge(lines, p, quantity, k);
      }
      var x :| x in lines && x.productoId == p.id;
      var k :| 0 <= k < |lines| && lines[k] == x;
      TotalAfterMerge(lines, p, quantity, k);
    }
  }

  /** In a draft with one line per product, the lines before and after product `id`'s line are not for `id`. */
  lemma UniqueSplit(lines: seq<LineItem>, k: int)
    requires UniqueIds(lines) && 0 <= k < |lines|
    ensures !HasLine(lines[..k], lines[k].productoId)
    ensures !HasLine(lines[k + 1..], lines[k].productoId)
  {
    forall x | x in lines[..k] ensures x.productoId != lines[k].productoId {
      var i :| 0 <= i < k && lines[..k][i] == x;
    }
    forall x | x in lines[k + 1..] ensures x.productoId != lines[k].productoId {
      var i :| 0 <= i < |lines| - k - 1 && lines[k + 1..][i] == x;
      assert lines[k + 1 + i] == x;
    }
  }

  /** Removing the one line of product `id` leaves the lines before it followed by the lines after it. */
  lemma RemoveOneLine(lines: seq<LineItem>, id: int, k: int)
    requires UniqueIds(lines) && 0 <= k < |lines| && lines[k].productoId == id
    ensures RemoveLines(lines, id) == lines[..k] + lines[k + 1..]
  {
    var before, line, after := lines[..k], [lines[k]], lines[k + 1..];
    assert lines == before + line + after;
    UniqueSplit(lines, k);
    RemoveKeepsOrder(before + line, after, id);
    RemoveKeepsOrder(before, line, id);
    RemoveAbsent(before, id);
    RemoveAbsent(after, id);
    RemoveOwnLine(lines[k]);
    assert RemoveLines(before + line, id) == before;
  }

  /** A line is removed by its own product id. */
  lemma RemoveOwnLine(l: LineItem)
    ensures RemoveLines([l], l.productoId) == []
  {
    assert forall x :: x in RemoveLines([l], l.productoId) ==> x in [l] && x.productoId != l.productoId;
  }

  /** The total splits around any one line. */
  lemma TotalAround(lines: seq<LineItem>, k: int)
    requires 0 <= k < |lines|
    ensures Total(lines) == Total(lines[..k]) + Subtotal(lines[k]) + Total(lines[k + 1..])
  {
    var before, line, after := lines[..k], [lines[k]], lines[k + 1..];
    assert lines == before + line + after;
    TotalConcat(before + line, after);
    TotalConcat(before, line);
    TotalSingle(lines[k]);
  }

  /** Removing the one line of product `id` lowers the total by that line's subtotal. */
  lemma TotalAfterRemove(lines: seq<LineItem>, id: int, k: int)
    requires UniqueIds(lines) && 0 <= k < |lines| && lines[k].productoId == id
    ensures Total(RemoveLines(lines, id)) == Total(lines) - Subtotal(lines[k])
  {
    RemoveOneLine(lines, id, k);
    TotalAround(lines, k);
    TotalConcat(lines[..k], lines[k + 1..]);
  }

  /** The stock check looks at the requested units only, never at the units already in
      the draft: with 10 in stock, requests of 2, 3 and then 6 units are all accepted
      and leave a single line of 11 units. */
  lemma StockCheckIgnoresDraft()
    ensures var p := Product(1, "Chocolate", 5000, 10, Disponible);
            var afterTwo := AddLine([], p, 2);
            var afterFive := AddLine(afterTwo, p, 3);
            var afterEleven := AddLine(afterFive, p, 6);
            ValidateAdd([p], Some(1), 2) == Accepted(p) && afterTwo == [LineItem(1, "Chocolate", 2, 5000)] &&
            Total(afterTwo) == 10000 &&
            ValidateAdd([p], Some(1), 3) == Accepted(p) && afterFive == [LineItem(1, "Chocolate", 5, 5000)] &&
            Total(afterFive) == 25000 &&
            ValidateAdd([p], Some(1), 6) == Accepted(p) && afterEleven == [LineItem(1, "Chocolate", 11, 5000)] &&
            Total(afterEleven) == 55000 && afterEleven[0].cantidad > p.stock
  {
    var p := Product(1, "Chocolate", 5000, 10, Disponible);
    var afterTwo := AddLine([], p, 2);
    assert afterTwo == [LineItem(1, "Chocolate", 2, 5000)];
    assert HasLine(afterTwo, 1) by { assert afterTwo[0] in afterTwo; }
    AddLineTwice([], p, 2, 3);
    AddLineTwice([], p, 5, 6);
    TotalSingle(LineItem(1, "Chocolate", 2, 5000));
    TotalSingle(LineItem(1, "Chocolate", 5, 5000));
    TotalSingle(LineItem(1, "Chocolate", 11, 5000));
  }
}
