/**
  Carts, checkout, restock and the stock ledger: src/orders/services/cart.service.ts and
  checkout.service.ts, src/orders/mappers/order.mapper.ts, src/products/services/stock.service.ts.
  Each service method is one atomic step; amounts and quantities are whole numbers.
 */
module Checkout {
  import opened Util

  type VariantId = string
  type BrandId = string
  type UserId = string

  /** A variant joined with its product; its stock is kept apart. */
  datatype Variant = Variant(
    sku: string, productName: string, brandId: BrandId, price: int, priceOverride: Option<int>, isActive: bool)

  datatype CartItem = CartItem(variantId: VariantId, quantity: int)

  datatype Line = Line(variantId: VariantId, sku: string, productName: string, brandId: BrandId, unitPrice: int,
      quantity: int)

  datatype Order = Order(buyer: UserId, brandId: BrandId, subtotal: int, items: seq<Line>)

  datatype MovementType = RESTOCK | SALE | ADJUSTMENT | RETURN

  datatype Movement = Movement(variantId: VariantId, kind: MovementType, quantity: int, order: Option<nat>)

  type Stock = map<VariantId, int>

  /** Orders are identified by their position; `opening` remembers the stock each variant was created with. */
  datatype State = State(
    catalog: map<VariantId, Variant>,
    stock: Stock,
    opening: Stock,
    movements: seq<Movement>,
    orders: seq<Order>,
    carts: map<UserId, seq<CartItem>>)
  {
    function Cart(u: UserId): seq<CartItem> {
      if u in carts then carts[u] else []
    }
  }

  datatype Outcome = Done | NotFound | AlreadyExists | NegativeStock | EmptyCart | InsufficientStock

  // ---- lines and their sums ----

  function LineOf(item: CartItem, v: Variant): Line {
    Line(item.variantId, v.sku, v.productName, v.brandId, v.priceOverride.GetOr(v.price), item.quantity)
  }

  function Lines(catalog: map<VariantId, Variant>, items: seq<CartItem>): (lines: seq<Line>)
    requires forall i :: 0 <= i < |items| ==> items[i].variantId in catalog
    ensures |lines| == |items|
    ensures forall i :: 0 <= i < |items| ==> lines[i] == LineOf(items[i], catalog[items[i].variantId])
  {
    seq(|items|, i requires 0 <= i < |items| => LineOf(items[i], catalog[items[i].variantId]))
  }

  function QuantityOf(v: VariantId): Line -> int {
    (l: Line) => if l.variantId == v then l.quantity else 0
  }

  function LineTotal(): Line -> int {
    (l: Line) => l.unitPrice * l.quantity
  }

  function MovedOf(v: VariantId): Movement -> int {
    (m: Movement) => if m.variantId == v then m.quantity else 0
  }

  function SubtotalOf(): Order -> int {
    (o: Order) => o.subtotal
  }

  // ---- grouping by brand, in order of first appearance ----

  function Brands(lines: seq<Line>): seq<BrandId> {
    if lines == [] then [] else
    var before, b := Brands(lines[..|lines| - 1]), lines[|lines| - 1].brandId;
    if b in before then before else before + [b]
  }

  function OfBrand(lines: seq<Line>, b: BrandId): seq<Line> {
    if lines == [] then [] else
    var before, last := OfBrand(lines[..|lines| - 1], b), lines[|lines| - 1];
    if last.brandId == b then before + [last] else before
  }

  /** The lines in the order the transaction visits them. */
  function Regroup(lines: seq<Line>, brands: seq<BrandId>): seq<Line> {
    if brands == [] then [] else
    Regroup(lines, brands[..|brands| - 1]) + OfBrand(lines, brands[|brands| - 1])
  }

  ghost predicate Distinct<T>(xs: seq<T>) {
    forall i, j :: 0 <= i < j < |xs| ==> xs[i] != xs[j]
  }

  lemma {:induction false} BrandsDistinctAndComplete(lines: seq<Line>)
    ensures Distinct(Brands(lines))
    ensures forall b :: b in Brands(lines) <==> exists i :: 0 <= i < |lines| && lines[i].brandId == b
  {
    if lines != [] {
      var n := |lines| - 1;
      BrandsDistinctAndComplete(lines[..n]);
      forall b ensures b in Brands(lines) <==> exists i :: 0 <= i < |lines| && lines[i].brandId == b {
        if b in Brands(lines[..n]) {
          var i :| 0 <= i < n && lines[..n][i].brandId == b;
          assert lines[i].brandId == b;
        }
        if i :| 0 <= i < |lines| && lines[i].brandId == b {
          assert i < n ==> lines[..n][i].brandId == b;
        }
      }
    }
  }

  /** The places where each brand appears first, in the order of the brands. */
  ghost predicate FirstPlaces(brands: seq<BrandId>, lines: seq<Line>, places: seq<nat>) {
    && |places| == |brands|
    && (forall i, j :: 0 <= i < j < |places| ==> places[i] < places[j])
    && forall k :: 0 <= k < |places| ==>
         && places[k] < |lines| && lines[places[k]].brandId == brands[k]
         && forall p: nat :: p < places[k] ==> lines[p].brandId != brands[k]
  }

  /** The keys stand in the order in which their brands first appear. */
  lemma {:induction false} BrandsInOrder(lines: seq<Line>) returns (places: seq<nat>)
    ensures FirstPlaces(Brands(lines), lines, places)
  {
    places := [];
    if lines != [] {
      var n := |lines| - 1;
      BrandsDistinctAndComplete(lines[..n]);
      places := BrandsInOrder(lines[..n]);
      assert forall p :: 0 <= p < n ==> lines[..n][p] == lines[p];
      if lines[n].brandId !in Brands(lines[..n]) {
        assert forall p :: 0 <= p < n ==> lines[..n][p].brandId != lines[n].brandId;
        places := places + [n];
      }
    }
  }

  /** The group is the lines read at the places of that brand, every place once and in order. */
  ghost predicate ReadInOrder(group: seq<Line>, lines: seq<Line>, b: BrandId, places: seq<nat>) {
    && |group| == |places|
    && (forall i, j :: 0 <= i < j < |places| ==> places[i] < places[j])
    && (forall k :: 0 <= k < |places| ==>
          places[k] < |lines| && lines[places[k]].brandId == b && group[k] == lines[places[k]])
    && (forall p: nat :: p < |lines| && lines[p].brandId == b ==> p in places)
  }

  lemma ReadOneMore(group: seq<Line>, lines: seq<Line>, x: Line, b: BrandId, places: seq<nat>)
    requires ReadInOrder(group, lines, b, places) && x.brandId == b
    ensures ReadInOrder(group + [x], lines + [x], b, places + [|lines|])
  {
    var after := places + [|lines|];
    forall p: nat | p < |lines| + 1 && (lines + [x])[p].brandId == b ensures p in after {
      if p < |lines| {
        assert lines[p].brandId == b && p in places;
      } else {
        assert after[|places|] == p;
      }
    }
  }

  lemma SkipOneMore(group: seq<Line>, lines: seq<Line>, x: Line, b: BrandId, places: seq<nat>)
    requires ReadInOrder(group, lines, b, places) && x.brandId != b
    ensures ReadInOrder(group, lines + [x], b, places)
  {
  }

  lemma {:induction false} OfBrandInOrder(lines: seq<Line>, b: BrandId) returns (places: seq<nat>)
    ensures ReadInOrder(OfBrand(lines, b), lines, b, places)
  {
    places := [];
    if lines != [] {
      var n := |lines| - 1;
      var front, last := lines[..n], lines[n];
      places := OfBrandInOrder(front, b);
      assert front + [last] == lines;
      if last.brandId == b {
        ReadOneMore(OfBrand(front, b), front, last, b, places);
        places := places + [n];
      } else {
        SkipOneMore(OfBrand(front, b), front, last, b, places);
      }
    }
  }

  lemma {:induction false} OfBrandIsFilter(lines: seq<Line>, b: BrandId)
    ensures forall l :: l in OfBrand(lines, b) <==> l in lines && l.brandId == b
  {
    if lines != [] {
      var n := |lines| - 1;
      OfBrandIsFilter(lines[..n], b);
      assert lines == lines[..n] + [lines[n]];
    }
  }

  lemma {:induction false} RegroupPush(lines: seq<Line>, x: Line, brands: seq<BrandId>)
    requires Distinct(brands)
    ensures multiset(Regroup(lines + [x], brands)) ==
            multiset(Regroup(lines, brands)) + if x.brandId in brands then multiset{x} else multiset{}
  {
    assert (lines + [x])[..|lines|] == lines;
    if brands != [] {
      var n := |brands| - 1;
      assert brands == brands[..n] + [brands[n]];
      RegroupPush(lines, x, brands[..n]);
    }
  }

  /** Grouping by any list of distinct brands that covers the lines loses and repeats nothing. */
  lemma {:induction false} RegroupKeepsLines(lines: seq<Line>, brands: seq<BrandId>)
    requires Distinct(brands) && forall i :: 0 <= i < |lines| ==> lines[i].brandId in brands
    ensures multiset(Regroup(lines, brands)) == multiset(lines)
  {
    if lines == [] {
      RegroupNothing(brands);
    } else {
      var n := |lines| - 1;
      assert lines == lines[..n] + [lines[n]];
      assert forall i :: 0 <= i < n ==> lines[..n][i] == lines[i];
      RegroupKeepsLines(lines[..n], brands);
      RegroupPush(lines[..n], lines[n], brands);
    }
  }

  lemma {:induction false} RegroupNothing(brands: seq<BrandId>)
    ensures Regroup([], brands) == []
  {
    if brands != [] { RegroupNothing(brands[..|brands| - 1]); }
  }

  // ---- taking stock, line by line ----

  /** The transaction's loop: every line re-checks what the earlier ones left. */
  function Deduct(stock: Stock, lines: seq<Line>): Option<Stock> {
    if lines == [] then Some(stock) else
    var last := lines[|lines| - 1];
    match Deduct(stock, lines[..|lines| - 1])
    case None => None
    case Some(st) =>
      if last.variantId !in st || st[last.variantId] < last.quantity then None
      else Some(st[last.variantId := st[last.variantId] - last.quantity])
  }

  ghost predicate Sellable(stock: Stock, lines: seq<Line>) {
    forall i :: 0 <= i < |lines| ==> lines[i].variantId in stock && lines[i].quantity >= 0
  }

  lemma {:induction false} DeductConcat(stock: Stock, a: seq<Line>, b: seq<Line>)
    ensures Deduct(stock, a + b) == if Deduct(stock, a).None? then None else Deduct(Deduct(stock, a).value, b)
  {
    if b == [] {
      assert a + b == a;
    } else {
      var n := |b| - 1;
      assert (a + b)[..|a + b| - 1] == a + b[..n];
      DeductConcat(stock, a, b[..n]);
    }
  }

  /** The loop succeeds exactly when each variant's total fits, and then takes exactly the totals. */
  lemma {:induction false} DeductIff(stock: Stock, lines: seq<Line>)
    requires Sellable(stock, lines) && forall v :: v in stock ==> stock[v] >= 0
    ensures Deduct(stock, lines).Some? <==> forall v :: v in stock ==> Sum(lines, QuantityOf(v)) <= stock[v]
    ensures Deduct(stock, lines).Some? ==>
              var st := Deduct(stock, lines).value;
              st.Keys == stock.Keys && forall v :: v in stock ==> st[v] == stock[v] - Sum(lines, QuantityOf(v)) >= 0
  {
    if lines != [] {
      var n := |lines| - 1;
      var last := lines[n];
      DeductIff(stock, lines[..n]);
      assert forall v :: Sum(lines, QuantityOf(v)) == Sum(lines[..n], QuantityOf(v)) + QuantityOf(v)(last);
      if Deduct(stock, lines[..n]).None? {
        var v :| v in stock && Sum(lines[..n], QuantityOf(v)) > stock[v];
        assert Sum(lines, QuantityOf(v)) > stock[v];
      } else {
        assert last.variantId in stock;
      }
    }
  }

  ghost predicate OneLinePerVariant(lines: seq<Line>) {
    forall i, j :: 0 <= i < j < |lines| ==> lines[i].variantId != lines[j].variantId
  }

  lemma {:induction false} AbsentVariant(lines: seq<Line>, v: VariantId)
    requires forall i :: 0 <= i < |lines| ==> lines[i].variantId != v
    ensures Sum(lines, QuantityOf(v)) == 0
  {
    if lines != [] {
      assert forall i :: 0 <= i < |lines| - 1 ==> lines[..|lines| - 1][i] == lines[i];
      AbsentVariant(lines[..|lines| - 1], v);
    }
  }

  lemma {:induction false} TotalsFit(stock: Stock, lines: seq<Line>, v: VariantId)
    requires OneLinePerVariant(lines) && v in stock && stock[v] >= 0
    requires forall i :: 0 <= i < |lines| && lines[i].variantId == v ==> lines[i].quantity <= stock[v]
    ensures Sum(lines, QuantityOf(v)) <= stock[v]
  {
    if lines != [] {
      var n := |lines| - 1;
      assert forall i :: 0 <= i < n ==> lines[..n][i] == lines[i];
      if lines[n].variantId == v {
        AbsentVariant(lines[..n], v);
      } else {
        TotalsFit(stock, lines[..n], v);
      }
    }
  }

  /** The check before the transaction suffices, in whatever order the transaction visits the lines. */
  lemma PrecheckSuffices(stock: Stock, lines: seq<Line>, visited: seq<Line>)
    requires Sellable(stock, lines) && OneLinePerVariant(lines) && forall v :: v in stock ==> stock[v] >= 0
    requires forall i :: 0 <= i < |lines| ==> lines[i].quantity <= stock[lines[i].variantId]
    requires multiset(visited) == multiset(lines)
    ensures Deduct(stock, visited).Some?
  {
    forall i | 0 <= i < |visited| ensures visited[i].variantId in stock && visited[i].quantity >= 0 {
      assert visited[i] in multiset(lines);
    }
    forall v | v in stock ensures Sum(visited, QuantityOf(v)) <= stock[v] {
      TotalsFit(stock, lines, v);
      SumPermutation(visited, lines, QuantityOf(v));
    }
    DeductIff(stock, visited);
  }

  // ---- checkout ----

  function OrdersFor(u: UserId, lines: seq<Line>, brands: seq<BrandId>): (r: seq<Order>)
    ensures |r| == |brands|
  {
    if brands == [] then [] else
    var b := brands[|brands| - 1];
    OrdersFor(u, lines, brands[..|brands| - 1]) + [Order(u, b, Sum(OfBrand(lines, b), LineTotal()), OfBrand(lines, b))]
  }

  function Moves(kind: MovementType, sign: int, order: nat, lines: seq<Line>): seq<Movement> {
    if lines == [] then [] else
    var last := lines[|lines| - 1];
    Moves(kind, sign, order, lines[..|lines| - 1]) + [Movement(last.variantId, kind, sign * last.quantity, Some(order))]
  }

  /** The SALE rows of the orders numbered from `first`. */
  function Sales(first: nat, lines: seq<Line>, brands: seq<BrandId>): seq<Movement> {
    if brands == [] then [] else
    Sales(first, lines, brands[..|brands| - 1])
    + Moves(SALE, -1, first + |brands| - 1, OfBrand(lines, brands[|brands| - 1]))
  }

  ghost predicate OrdersInCatalog(s: State) {
    && s.catalog.Keys == s.stock.Keys
    && forall o, i :: 0 <= o < |s.orders| && 0 <= i < |s.orders[o].items| ==>
         s.orders[o].items[i].variantId in s.catalog && s.orders[o].items[i].quantity >= 1
  }

  /** What the foreign keys and the unique constraints of the schema guarantee, and the ledger. */
  ghost predicate Valid(s: State) {
    && s.catalog.Keys == s.stock.Keys == s.opening.Keys
    && (forall u, i :: u in s.carts && 0 <= i < |s.carts[u]| ==>
          s.carts[u][i].variantId in s.catalog && s.carts[u][i].quantity >= 1)
    && (forall u, i, j :: u in s.carts && 0 <= i < j < |s.carts[u]| ==>
          s.carts[u][i].variantId != s.carts[u][j].variantId)
    && OrdersInCatalog(s)
    && (forall i :: 0 <= i < |s.movements| ==> s.movements[i].variantId in s.catalog)
    && Conserved(s)
  }

  /** Every variant's stock is what it opened with plus all its movements, and never negative. */
  ghost predicate Conserved(s: State) {
    forall v :: v in s.stock ==>
      v in s.opening && s.stock[v] == s.opening[v] + Sum(s.movements, MovedOf(v)) && s.stock[v] >= 0
  }

  ghost predicate CartInCatalog(s: State, u: UserId) {
    && s.catalog.Keys == s.stock.Keys
    && forall i :: 0 <= i < |s.Cart(u)| ==> s.Cart(u)[i].variantId in s.catalog
  }

  function CheckoutOf(s: State, u: UserId): (State, Outcome)
    requires CartInCatalog(s, u)
  {
    if s.Cart(u) == [] then (s, EmptyCart) else
    var lines := Lines(s.catalog, s.Cart(u));
    if exists i :: 0 <= i < |lines| && lines[i].quantity > s.stock[lines[i].variantId] then (s, InsufficientStock) else
    var brands := Brands(lines);
    match Deduct(s.stock, Regroup(lines, brands))
    case None => (s, InsufficientStock)
    case Some(stock) =>
      (s.(stock := stock,
          orders := s.orders + OrdersFor(u, lines, brands),
          movements := s.movements + Sales(|s.orders|, lines, brands),
          carts := s.carts[u := []]), Done)
  }

  function Restocked(stock: Stock, lines: seq<Line>): Stock {
    if lines == [] then stock else
    var st, last := Restocked(stock, lines[..|lines| - 1]), lines[|lines| - 1];
    if last.variantId in st then st[last.variantId := st[last.variantId] + last.quantity] else st
  }

  /** An unknown order is ignored. */
  function RestockOf(s: State, order: int): State {
    if !(0 <= order < |s.orders|) then s else
    var items := s.orders[order].items;
    s.(stock := Restocked(s.stock, items), movements := s.movements + Moves(RETURN, 1, order, items))
  }

  // ---- what checkout and restock do to stock, ledger and money ----

  lemma Distribute(a: int, x: int, y: int)
    ensures a * (x + y) == a * x + a * y
  {
  }

  lemma {:induction false} MovesSum(kind: MovementType, sign: int, order: nat, lines: seq<Line>, v: VariantId)
    ensures Sum(Moves(kind, sign, order, lines), MovedOf(v)) == sign * Sum(lines, QuantityOf(v))
  {
    if lines != [] {
      var n := |lines| - 1;
      MovesSum(kind, sign, order, lines[..n], v);
      SumPush(Moves(kind, sign, order, lines[..n]),
              Movement(lines[n].variantId, kind, sign * lines[n].quantity, Some(order)), MovedOf(v));
      Distribute(sign, Sum(lines[..n], QuantityOf(v)), QuantityOf(v)(lines[n]));
    }
  }

  /** What one more order sells is what its lines ask for. */
  lemma SalePush(before: seq<Movement>, told: seq<Line>, order: nat, group: seq<Line>, v: VariantId)
    requires Sum(before, MovedOf(v)) == -Sum(told, QuantityOf(v))
    ensures Sum(before + Moves(SALE, -1, order, group), MovedOf(v)) == -Sum(told + group, QuantityOf(v))
  {
    MovesSum(SALE, -1, order, group, v);
    SumConcat(before, Moves(SALE, -1, order, group), MovedOf(v));
    SumConcat(told, group, QuantityOf(v));
  }

  lemma {:induction false} SalesSum(first: nat, lines: seq<Line>, brands: seq<BrandId>, v: VariantId)
    ensures Sum(Sales(first, lines, brands), MovedOf(v)) == -Sum(Regroup(lines, brands), QuantityOf(v))
  {
    if brands != [] {
      var n := |brands| - 1;
      SalesSum(first, lines, brands[..n], v);
      SalePush(Sales(first, lines, brands[..n]), Regroup(lines, brands[..n]), first + n, OfBrand(lines, brands[n]), v);
    }
  }

  lemma {:induction false} SubtotalsSum(u: UserId, lines: seq<Line>, brands: seq<BrandId>)
    ensures Sum(OrdersFor(u, lines, brands), SubtotalOf()) == Sum(Regroup(lines, brands), LineTotal())
  {
    if brands != [] {
      var n := |brands| - 1;
      SubtotalsSum(u, lines, brands[..n]);
      var o := Order(u, brands[n], Sum(OfBrand(lines, brands[n]), LineTotal()), OfBrand(lines, brands[n]));
      SumPush(OrdersFor(u, lines, brands[..n]), o, SubtotalOf());
      SumConcat(Regroup(lines, brands[..n]), OfBrand(lines, brands[n]), LineTotal());
    }
  }

  lemma {:induction false} RestockedEffect(stock: Stock, lines: seq<Line>)
    requires forall i :: 0 <= i < |lines| ==> lines[i].variantId in stock
    ensures Restocked(stock, lines).Keys == stock.Keys
    ensures forall v :: v in stock ==> Restocked(stock, lines)[v] == stock[v] + Sum(lines, QuantityOf(v))
  {
    if lines != [] {
      var n := |lines| - 1;
      assert forall i :: 0 <= i < n ==> lines[..n][i] == lines[i];
      RestockedEffect(stock, lines[..n]);
      assert forall v :: Sum(lines, QuantityOf(v)) == Sum(lines[..n], QuantityOf(v)) + QuantityOf(v)(lines[n]);
    }
  }

  lemma {:induction false} OrdersForAt(u: UserId, lines: seq<Line>, brands: seq<BrandId>, k: nat)
    requires k < |brands|
    ensures OrdersFor(u, lines, brands)[k] ==
            Order(u, brands[k], Sum(OfBrand(lines, brands[k]), LineTotal()), OfBrand(lines, brands[k]))
  {
    if k < |brands| - 1 {
      OrdersForAt(u, lines, brands[..|brands| - 1], k);
    }
  }

  /** What a checkout needs of the cart and the stock: sellable lines, one per variant. */
  ghost predicate Ready(s: State, u: UserId) {
    && CartInCatalog(s, u)
    && (forall v :: v in s.stock ==> s.stock[v] >= 0)
    && var lines := Lines(s.catalog, s.Cart(u));
       && Sellable(s.stock, lines) && OneLinePerVariant(lines)
       && multiset(Regroup(lines, Brands(lines))) == multiset(lines)
  }

  lemma ValidIsReady(s: State, u: UserId)
    requires Valid(s)
    ensures Ready(s, u)
  {
    CartIsReady(s, u, s.Cart(u));
  }

  lemma CartIsReady(s: State, u: UserId, cart: seq<CartItem>)
    requires cart == s.Cart(u) && s.catalog.Keys == s.stock.Keys
    requires forall v :: v in s.stock ==> s.stock[v] >= 0
    requires forall i :: 0 <= i < |cart| ==> cart[i].variantId in s.catalog && cart[i].quantity >= 1
    requires forall i, j :: 0 <= i < j < |cart| ==> cart[i].variantId != cart[j].variantId
    ensures Ready(s, u)
  {
    RegroupByBrands(Lines(s.catalog, cart));
  }

  lemma RegroupByBrands(lines: seq<Line>)
    ensures multiset(Regroup(lines, Brands(lines))) == multiset(lines)
  {
    BrandsDistinctAndComplete(lines);
    RegroupKeepsLines(lines, Brands(lines));
  }

  ghost predicate EachLineFits(s: State, u: UserId)
    requires CartInCatalog(s, u)
  {
    forall i :: 0 <= i < |s.Cart(u)| ==> s.Cart(u)[i].quantity <= s.stock[s.Cart(u)[i].variantId]
  }

  /**
    A checkout succeeds exactly when the cart holds something and each line alone fits the stock; a failed one
    changes nothing.
   */
  lemma CheckoutSucceedsIff(s: State, u: UserId)
    requires Ready(s, u)
    ensures CheckoutOf(s, u).1 == Done <==> s.Cart(u) != [] && EachLineFits(s, u)
    ensures CheckoutOf(s, u).1 == EmptyCart <==> s.Cart(u) == []
    ensures CheckoutOf(s, u).1 != Done ==> CheckoutOf(s, u).0 == s
  {
    var lines := Lines(s.catalog, s.Cart(u));
    if s.Cart(u) != [] && EachLineFits(s, u) {
      PrecheckSuffices(s.stock, lines, Regroup(lines, Brands(lines)));
    }
  }

  // ---- checkout partitions the cart ----

  datatype CartLine = CartLine(variantId: VariantId, productName: string, sku: string, unitPrice: int, quantity: int,
      lineTotal: int)

  datatype CartResponse = CartResponse(items: seq<CartLine>, total: int)

  function CartLineTotal(): CartLine -> int {
    (l: CartLine) => l.lineTotal
  }

  /** What the cart page shows. */
  function ToCartResponse(catalog: map<VariantId, Variant>, items: seq<CartItem>): CartResponse
    requires forall i :: 0 <= i < |items| ==> items[i].variantId in catalog
  {
    var shown := seq(|items|, i requires 0 <= i < |items| =>
                   var v := catalog[items[i].variantId];
                   var unitPrice := v.priceOverride.GetOr(v.price);
                   CartLine(items[i].variantId, v.productName, v.sku, unitPrice, items[i].quantity,
                       unitPrice * items[i].quantity));
    CartResponse(shown, Sum(shown, CartLineTotal()))
  }

  function AllItems(orders: seq<Order>): seq<Line> {
    if orders == [] then [] else AllItems(orders[..|orders| - 1]) + orders[|orders| - 1].items
  }

  lemma {:induction false} AllItemsIsRegroup(u: UserId, lines: seq<Line>, brands: seq<BrandId>)
    ensures AllItems(OrdersFor(u, lines, brands)) == Regroup(lines, brands)
  {
    if brands != [] {
      var n := |brands| - 1;
      AllItemsIsRegroup(u, lines, brands[..n]);
      assert OrdersFor(u, lines, brands)[..n] == OrdersFor(u, lines, brands[..n]);
    }
  }

  /** One order per brand of the cart, holding exactly the cart's lines of that brand in cart order. */
  lemma OneOrderPerBrand(u: UserId, lines: seq<Line>)
    ensures var orders := OrdersFor(u, lines, Brands(lines));
            && (forall i, j :: 0 <= i < j < |orders| ==> orders[i].brandId != orders[j].brandId)
            && (forall l :: l in lines ==> exists i :: 0 <= i < |orders| && orders[i].brandId == l.brandId)
            && (forall i :: 0 <= i < |orders| ==>
                  && orders[i].buyer == u && orders[i].items == OfBrand(lines, orders[i].brandId) != []
                  && orders[i].subtotal == Sum(orders[i].items, LineTotal()))
  {
    var orders, brands := OrdersFor(u, lines, Brands(lines)), Brands(lines);
    BrandsDistinctAndComplete(lines);
    forall i | 0 <= i < |orders|
      ensures orders[i] == Order(u, brands[i], Sum(OfBrand(lines, brands[i]), LineTotal()), OfBrand(lines, brands[i]))
      ensures OfBrand(lines, brands[i]) != []
    {
      OrdersForAt(u, lines, brands, i);
      assert brands[i] in brands;
      var k :| 0 <= k < |lines| && lines[k].brandId == brands[i];
      OfBrandIsFilter(lines, brands[i]);
      assert lines[k] in OfBrand(lines, brands[i]);
    }
    forall l | l in lines ensures exists i :: 0 <= i < |orders| && orders[i].brandId == l.brandId {
      var k :| 0 <= k < |lines| && lines[k] == l;
      assert lines[k].brandId in brands;
      var b :| 0 <= b < |brands| && brands[b] == l.brandId;
      assert orders[b].brandId == l.brandId;
    }
  }

  /** The new orders' lines are the cart's, nothing lost or repeated; older orders stay and the cart is empty. */
  lemma CheckoutPartitionsCart(s: State, u: UserId)
    requires Ready(s, u) && CheckoutOf(s, u).1 == Done
    ensures var t, lines := CheckoutOf(s, u).0, Lines(s.catalog, s.Cart(u));
            var n := |s.orders|;
            && t.Cart(u) == [] && n <= |t.orders| && t.orders[..n] == s.orders
            && t.orders[n..] == OrdersFor(u, lines, Brands(lines))
            && multiset(AllItems(t.orders[n..])) == multiset(lines)
  {
    var lines := Lines(s.catalog, s.Cart(u));
    AllItemsIsRegroup(u, lines, Brands(lines));
  }

  /** The cart page shows, item by item, the line that a checkout would order, and its price times its quantity. */
  lemma PageShowsLines(catalog: map<VariantId, Variant>, items: seq<CartItem>, i: nat)
    requires i < |items| && forall k :: 0 <= k < |items| ==> items[k].variantId in catalog
    ensures var page, line := ToCartResponse(catalog, items), Lines(catalog, items)[i];
            && |page.items| == |items|
            && page.items[i] == CartLine(line.variantId, line.productName, line.sku, line.unitPrice, line.quantity,
                                         line.unitPrice * line.quantity)
  {
  }

  lemma OrdersTotal(u: UserId, lines: seq<Line>)
    ensures Sum(OrdersFor(u, lines, Brands(lines)), SubtotalOf()) == Sum(lines, LineTotal())
  {
    SubtotalsSum(u, lines, Brands(lines));
    RegroupByBrands(lines);
    SumPermutation(Regroup(lines, Brands(lines)), lines, LineTotal());
  }

  lemma PageTotal(catalog: map<VariantId, Variant>, items: seq<CartItem>)
    requires forall i :: 0 <= i < |items| ==> items[i].variantId in catalog
    ensures ToCartResponse(catalog, items).total == Sum(Lines(catalog, items), LineTotal())
  {
    SumPointwise(ToCartResponse(catalog, items).items, Lines(catalog, items), CartLineTotal(), LineTotal());
  }

  /** What the buyer is charged over all the new orders is the total the cart page showed. */
  lemma CheckoutAgreesWithCartPage(s: State, u: UserId)
    requires Ready(s, u) && CheckoutOf(s, u).1 == Done
    ensures Sum(CheckoutOf(s, u).0.orders[|s.orders|..], SubtotalOf()) == ToCartResponse(s.catalog, s.Cart(u)).total
  {
    CheckoutPartitionsCart(s, u);
    OrdersTotal(u, Lines(s.catalog, s.Cart(u)));
    PageTotal(s.catalog, s.Cart(u));
  }

  // ---- restocking undoes checkout ----

  function RestockAll(s: State, ids: seq<int>): State {
    if ids == [] then s else RestockOf(RestockAll(s, ids[..|ids| - 1]), ids[|ids| - 1])
  }

  function OrderedOf(orders: seq<Order>, v: VariantId): int -> int {
    (id: int) => if 0 <= id < |orders| then Sum(orders[id].items, QuantityOf(v)) else 0
  }

  lemma {:induction false} RestockAllEffect(s: State, ids: seq<int>)
    requires OrdersInCatalog(s)
    ensures var t := RestockAll(s, ids);
            t.stock.Keys == s.stock.Keys && t.catalog == s.catalog && t.orders == s.orders
    ensures forall v :: v in s.stock ==> RestockAll(s, ids).stock[v] == s.stock[v] + Sum(ids, OrderedOf(s.orders, v))
    ensures forall v :: v in s.stock ==>
              Sum(RestockAll(s, ids).movements, MovedOf(v))
                  == Sum(s.movements, MovedOf(v)) + Sum(ids, OrderedOf(s.orders, v))
  {
    if ids != [] {
      var n := |ids| - 1;
      var before := RestockAll(s, ids[..n]);
      RestockAllEffect(s, ids[..n]);
      if 0 <= ids[n] < |s.orders| {
        var items := s.orders[ids[n]].items;
        RestockedEffect(before.stock, items);
        forall v ensures Sum(before.movements + Moves(RETURN, 1, ids[n], items), MovedOf(v)) ==
                         Sum(before.movements, MovedOf(v)) + Sum(items, QuantityOf(v))
        {
          MovesSum(RETURN, 1, ids[n], items, v);
          SumConcat(before.movements, Moves(RETURN, 1, ids[n], items), MovedOf(v));
        }
      }
      forall v ensures Sum(ids, OrderedOf(s.orders, v))
          == Sum(ids[..n], OrderedOf(s.orders, v)) + OrderedOf(s.orders, v)(ids[n]) {}
    }
  }

  function Range(first: int, count: nat): (r: seq<int>)
    ensures |r| == count
  {
    seq(count, i => first + i)
  }

  lemma {:induction false} OrderedByCheckout(orders: seq<Order>, u: UserId, lines: seq<Line>, brands: seq<BrandId>,
      k: nat, v: VariantId)
    requires k <= |brands|
    ensures Sum(Range(|orders|, k), OrderedOf(orders + OrdersFor(u, lines, brands), v))
            == Sum(Regroup(lines, brands[..k]), QuantityOf(v))
  {
    if k != 0 {
      OrderedByCheckout(orders, u, lines, brands, k - 1, v);
      OrdersForAt(u, lines, brands, k - 1);
      assert Range(|orders|, k) == Range(|orders|, k - 1) + [|orders| + k - 1];
      SumPush(Range(|orders|, k - 1), |orders| + k - 1, OrderedOf(orders + OrdersFor(u, lines, brands), v));
      assert brands[..k][..k - 1] == brands[..k - 1];
      SumConcat(Regroup(lines, brands[..k - 1]), OfBrand(lines, brands[k - 1]), QuantityOf(v));
    }
  }

  /** A checkout takes from each variant what its SALE rows say. */
  lemma CheckoutEffect(s: State, u: UserId)
    requires Ready(s, u) && CheckoutOf(s, u).1 == Done
    ensures var t, lines := CheckoutOf(s, u).0, Lines(s.catalog, s.Cart(u));
            && t.stock.Keys == s.stock.Keys
            && forall v :: v in s.stock ==>
                 && t.stock[v] == s.stock[v] - Sum(Regroup(lines, Brands(lines)), QuantityOf(v)) >= 0
                 && Sum(t.movements, MovedOf(v))
                     == Sum(s.movements, MovedOf(v)) - Sum(Regroup(lines, Brands(lines)), QuantityOf(v))
  {
    var t, lines := CheckoutOf(s, u).0, Lines(s.catalog, s.Cart(u));
    var visited, brands := Regroup(lines, Brands(lines)), Brands(lines);
    forall i | 0 <= i < |visited| ensures visited[i].variantId in s.stock && visited[i].quantity >= 0 {
      assert visited[i] in multiset(lines);
    }
    DeductIff(s.stock, visited);
    forall v | v in s.stock ensures Sum(t.movements, MovedOf(v))
        == Sum(s.movements, MovedOf(v)) - Sum(visited, QuantityOf(v)) {
      SalesSum(|s.orders|, lines, brands, v);
      SumConcat(s.movements, Sales(|s.orders|, lines, brands), MovedOf(v));
    }
  }

  // ---- the orders, told by cart and catalog alone ----

  /** The line is this cart item on the catalog's terms: the variant's own price first, else the product's. */
  predicate FromCatalog(catalog: map<VariantId, Variant>, item: CartItem, l: Line)
    requires item.variantId in catalog
  {
    var v := catalog[item.variantId];
    && l.variantId == item.variantId && l.quantity == item.quantity
    && l.sku == v.sku && l.productName == v.productName
    && l.unitPrice == (if v.priceOverride.Some? then v.priceOverride.value else v.price)
  }

  predicate HasVariant(o: Order, v: VariantId) {
    exists l :: l in o.items && l.variantId == v
  }

  /** The orders split the cart by the brands the catalog gives its variants. */
  ghost predicate SplitByBrand(catalog: map<VariantId, Variant>, cart: seq<CartItem>, orders: seq<Order>)
    requires forall i :: 0 <= i < |cart| ==> cart[i].variantId in catalog
  {
    && (forall j, k :: 0 <= j < k < |orders| ==> orders[j].brandId != orders[k].brandId)
    && (forall i :: 0 <= i < |cart| ==>
          exists k :: 0 <= k < |orders| && orders[k].brandId == catalog[cart[i].variantId].brandId)
    && (forall k :: 0 <= k < |orders| ==> HoldsItsBrand(catalog, cart, orders[k]))
  }

  /** A variant of the cart is in the order exactly if it is of the order's brand, and every line is the cart's. */
  ghost predicate HoldsItsBrand(catalog: map<VariantId, Variant>, cart: seq<CartItem>, o: Order)
    requires forall i :: 0 <= i < |cart| ==> cart[i].variantId in catalog
  {
    && o.items != []
    && (forall i :: 0 <= i < |cart| ==>
          (HasVariant(o, cart[i].variantId) <==> catalog[cart[i].variantId].brandId == o.brandId))
    && (forall l :: l in o.items ==> exists i :: 0 <= i < |cart| && FromCatalog(catalog, cart[i], l))
  }

  lemma GroupHoldsItsBrand(catalog: map<VariantId, Variant>, cart: seq<CartItem>, o: Order)
    requires forall i :: 0 <= i < |cart| ==> cart[i].variantId in catalog
    requires forall i, j :: 0 <= i < j < |cart| ==> cart[i].variantId != cart[j].variantId
    requires o.items == OfBrand(Lines(catalog, cart), o.brandId) != []
    ensures HoldsItsBrand(catalog, cart, o)
  {
    var lines := Lines(catalog, cart);
    OfBrandIsFilter(lines, o.brandId);
    forall l | l in o.items
      ensures exists i :: 0 <= i < |cart| && lines[i] == l && FromCatalog(catalog, cart[i], l)
    {
      var i :| 0 <= i < |lines| && lines[i] == l;
      assert FromCatalog(catalog, cart[i], l);
    }
    forall i | 0 <= i < |cart|
      ensures HasVariant(o, cart[i].variantId) <==> catalog[cart[i].variantId].brandId == o.brandId
    {
      assert lines[i] in lines && lines[i].variantId == cart[i].variantId;
      if HasVariant(o, cart[i].variantId) {
        var l :| l in o.items && l.variantId == cart[i].variantId;
        var j :| 0 <= j < |lines| && lines[j] == l;
        assert j == i;
      } else {
        assert lines[i] !in o.items;
      }
    }
  }

  lemma LinesSplitByBrand(catalog: map<VariantId, Variant>, cart: seq<CartItem>, u: UserId)
    requires forall i :: 0 <= i < |cart| ==> cart[i].variantId in catalog
    requires forall i, j :: 0 <= i < j < |cart| ==> cart[i].variantId != cart[j].variantId
    ensures SplitByBrand(catalog, cart, OrdersFor(u, Lines(catalog, cart), Brands(Lines(catalog, cart))))
  {
    var lines := Lines(catalog, cart);
    var orders := OrdersFor(u, lines, Brands(lines));
    OneOrderPerBrand(u, lines);
    forall k | 0 <= k < |orders| ensures HoldsItsBrand(catalog, cart, orders[k]) {
      GroupHoldsItsBrand(catalog, cart, orders[k]);
    }
    forall i | 0 <= i < |cart|
      ensures exists k :: 0 <= k < |orders| && orders[k].brandId == catalog[cart[i].variantId].brandId
    {
      assert lines[i] in lines;
    }
  }

  /**
    What a checkout makes of a cart: one order for each brand the catalog gives its variants, in which exactly the
    variants of that brand stand, each with its number, name, price and quantity.
   */
  lemma OrdersFollowCatalog(s: State, u: UserId)
    requires Ready(s, u) && CheckoutOf(s, u).1 == Done
    ensures SplitByBrand(s.catalog, s.Cart(u), CheckoutOf(s, u).0.orders[|s.orders|..])
  {
    var cart, lines := s.Cart(u), Lines(s.catalog, s.Cart(u));
    CheckoutPartitionsCart(s, u);
    forall i, j | 0 <= i < j < |cart| ensures cart[i].variantId != cart[j].variantId {
      assert lines[i].variantId != lines[j].variantId;
    }
    LinesSplitByBrand(s.catalog, cart, u);
  }

  function AmountOf(v: VariantId): CartItem -> int {
    (item: CartItem) => if item.variantId == v then item.quantity else 0
  }

  /** How much of a variant a user has in the cart. */
  function InCart(s: State, u: UserId, v: VariantId): int {
    Sum(s.Cart(u), AmountOf(v))
  }

  /** A checkout takes from the stock what was in the cart. */
  lemma CheckoutTakesCart(s: State, u: UserId)
    requires Ready(s, u) && CheckoutOf(s, u).1 == Done
    ensures CheckoutOf(s, u).0.stock.Keys == s.stock.Keys
    ensures forall v :: v in s.stock ==> CheckoutOf(s, u).0.stock[v] == s.stock[v] - InCart(s, u, v)
  {
    var lines := Lines(s.catalog, s.Cart(u));
    CheckoutEffect(s, u);
    forall v | v in s.stock ensures CheckoutOf(s, u).0.stock[v] == s.stock[v] - InCart(s, u, v) {
      SumPermutation(Regroup(lines, Brands(lines)), lines, QuantityOf(v));
      SumPointwise(lines, s.Cart(u), QuantityOf(v), AmountOf(v));
    }
  }

  lemma CheckoutKeepsOrders(s: State, u: UserId)
    requires CartInCatalog(s, u) && CheckoutOf(s, u).1 == Done && OrdersInCatalog(s)
    requires CheckoutOf(s, u).0.stock.Keys == s.stock.Keys
    requires forall i :: 0 <= i < |s.Cart(u)| ==> s.Cart(u)[i].quantity >= 1
    ensures OrdersInCatalog(CheckoutOf(s, u).0)
  {
    var t, lines := CheckoutOf(s, u).0, Lines(s.catalog, s.Cart(u));
    forall o, i | 0 <= o < |t.orders| && 0 <= i < |t.orders[o].items|
      ensures t.orders[o].items[i].variantId in t.catalog && t.orders[o].items[i].quantity >= 1
    {
      if o >= |s.orders| {
        OrdersForAt(u, lines, Brands(lines), o - |s.orders|);
        OfBrandIsFilter(lines, t.orders[o].brandId);
        assert t.orders[o].items[i] in lines;
      }
    }
  }

  lemma {:induction false} MovesVariants(kind: MovementType, sign: int, order: nat, lines: seq<Line>,
      known: set<VariantId>)
    requires forall i :: 0 <= i < |lines| ==> lines[i].variantId in known
    ensures forall i :: 0 <= i < |Moves(kind, sign, order, lines)| ==>
              Moves(kind, sign, order, lines)[i].variantId in known
  {
    if lines != [] {
      assert forall i :: 0 <= i < |lines| - 1 ==> lines[..|lines| - 1][i] == lines[i];
      MovesVariants(kind, sign, order, lines[..|lines| - 1], known);
    }
  }

  lemma {:induction false} SalesVariants(first: nat, lines: seq<Line>, brands: seq<BrandId>, known: set<VariantId>)
    requires forall i :: 0 <= i < |lines| ==> lines[i].variantId in known
    ensures forall i :: 0 <= i < |Sales(first, lines, brands)| ==> Sales(first, lines, brands)[i].variantId in known
  {
    if brands != [] {
      var n := |brands| - 1;
      SalesVariants(first, lines, brands[..n], known);
      var group := OfBrand(lines, brands[n]);
      OfBrandIsFilter(lines, brands[n]);
      forall i | 0 <= i < |group| ensures group[i].variantId in known {
        assert group[i] in lines;
      }
      MovesVariants(SALE, -1, first + n, group, known);
    }
  }

  lemma OrderedByNew(orders: seq<Order>, u: UserId, lines: seq<Line>, brands: seq<BrandId>, ids: seq<int>, v: VariantId)
    requires multiset(ids) == multiset(Range(|orders|, |brands|))
    ensures Sum(ids, OrderedOf(orders + OrdersFor(u, lines, brands), v)) == Sum(Regroup(lines, brands), QuantityOf(v))
  {
    SumPermutation(ids, Range(|orders|, |brands|), OrderedOf(orders + OrdersFor(u, lines, brands), v));
    OrderedByCheckout(orders, u, lines, brands, |brands|, v);
    assert brands[..|brands|] == brands;
  }

  function TakenBy(lines: seq<Line>): VariantId -> int {
    (v: VariantId) => Sum(lines, QuantityOf(v))
  }

  lemma RestockCancels(s: State, c: State, ids: seq<int>, taken: VariantId -> int)
    requires OrdersInCatalog(c) && c.stock.Keys == s.stock.Keys
    requires forall v :: v in s.stock ==> c.stock[v] == s.stock[v] - taken(v)
    requires forall v :: v in s.stock ==> Sum(c.movements, MovedOf(v)) == Sum(s.movements, MovedOf(v)) - taken(v)
    requires forall v :: v in s.stock ==> Sum(ids, OrderedOf(c.orders, v)) == taken(v)
    ensures RestockAll(c, ids).stock == s.stock
    ensures forall v :: v in s.stock ==> Sum(RestockAll(c, ids).movements, MovedOf(v)) == Sum(s.movements, MovedOf(v))
  {
    RestockAllEffect(c, ids);
    var t := RestockAll(c, ids);
    assert forall v :: v in s.stock ==> t.stock[v] == s.stock[v];
    assert t.stock == s.stock;
    assert forall v :: v in s.stock ==> Sum(t.movements, MovedOf(v)) == Sum(s.movements, MovedOf(v));
  }

  /** Restocking the orders of one checkout, in any order, gives back the whole stock map and cancels every movement. */
  lemma RestockUndoesCheckout(s: State, u: UserId, ids: seq<int>)
    requires Ready(s, u) && CheckoutOf(s, u).1 == Done && OrdersInCatalog(CheckoutOf(s, u).0)
    requires multiset(ids) == multiset(Range(|s.orders|, |CheckoutOf(s, u).0.orders| - |s.orders|))
    ensures var t := RestockAll(CheckoutOf(s, u).0, ids);
            && t.stock == s.stock
            && forall v :: v in s.stock ==> Sum(t.movements, MovedOf(v)) == Sum(s.movements, MovedOf(v))
  {
    var c, lines := CheckoutOf(s, u).0, Lines(s.catalog, s.Cart(u));
    var taken := TakenBy(Regroup(lines, Brands(lines)));
    CheckoutEffect(s, u);
    forall v | v in s.stock ensures Sum(ids, OrderedOf(c.orders, v)) == taken(v) {
      OrderedByNew(s.orders, u, lines, Brands(lines), ids, v);
    }
    RestockCancels(s, c, ids, taken);
  }

  // ---- every other way stock and carts change, and all runs ----

  datatype Action =
    | CreateVariant(id: VariantId, variant: Variant, stockQuantity: Option<nat>)
    | UpdateVariant(id: VariantId, variant: Variant)   // never touches stock
    | Adjust(id: VariantId, kind: MovementType, quantity: int)
    | AddItem(u: UserId, id: VariantId, quantity: int)
    | UpdateItem(u: UserId, item: nat, quantity: int)
    | RemoveItem(u: UserId, item: nat)
    | ClearCart(u: UserId)
    | CheckOut(u: UserId)
    | Restock(order: int)

  /** The DTOs admit no other quantities. */
  predicate Admitted(a: Action) {
    match a
    case AddItem(_, _, q) => 1 <= q
    case UpdateItem(_, _, q) => 1 <= q
    case _ => true
  }

  function FindItem(items: seq<CartItem>, id: VariantId): (i: nat)
    ensures i <= |items|
    ensures i < |items| ==> items[i].variantId == id
    ensures forall j :: 0 <= j < i ==> items[j].variantId != id
  {
    if items == [] then 0 else
    var i := FindItem(items[..|items| - 1], id);
    if i < |items| - 1 || items[i].variantId == id then i else i + 1
  }

  /** The items with so much more of a variant: in its one item, or in a new one. */
  function Added(items: seq<CartItem>, id: VariantId, quantity: int): seq<CartItem> {
    var i := FindItem(items, id);
    if i < |items| then items[i := CartItem(id, items[i].quantity + quantity)] else items + [CartItem(id, quantity)]
  }

  function Step(s: State, a: Action): (State, Outcome)
    requires Valid(s)
  {
    match a
    case CreateVariant(id, variant, quantity) =>
      if id in s.catalog then (s, AlreadyExists) else
      (s.(catalog := s.catalog[id := variant],
          stock := s.stock[id := quantity.GetOr(0)],
          opening := s.opening[id := quantity.GetOr(0)]), Done)
    case UpdateVariant(id, variant) =>
      if id in s.catalog then (s.(catalog := s.catalog[id := variant]), Done) else (s, NotFound)
    case Adjust(id, kind, quantity) =>
      if id !in s.stock then (s, NotFound) else
      if s.stock[id] + quantity < 0 then (s, NegativeStock) else
      (s.(movements := s.movements + [Movement(id, kind, quantity, None)],
          stock := s.stock[id := s.stock[id] + quantity]), Done)
    case AddItem(u, id, quantity) =>
      if id !in s.catalog || !s.catalog[id].isActive then (s, NotFound) else
      (s.(carts := s.carts[u := Added(s.Cart(u), id, quantity)]), Done)
    case UpdateItem(u, i, quantity) =>
      if i >= |s.Cart(u)| then (s, NotFound) else
      (s.(carts := s.carts[u := s.Cart(u)[i := s.Cart(u)[i].(quantity := quantity)]]), Done)
    case RemoveItem(u, i) =>
      if i >= |s.Cart(u)| then (s, NotFound) else
      (s.(carts := s.carts[u := s.Cart(u)[..i] + s.Cart(u)[i + 1..]]), Done)
    case ClearCart(u) => (s.(carts := s.carts[u := []]), Done)
    case CheckOut(u) => CheckoutOf(s, u)
    case Restock(order) => (RestockOf(s, order), Done)
  }

  lemma CartWrite(s: State, u: UserId, items: seq<CartItem>)
    requires Valid(s)
    requires forall i :: 0 <= i < |items| ==> items[i].variantId in s.catalog && items[i].quantity >= 1
    requires forall i, j :: 0 <= i < j < |items| ==> items[i].variantId != items[j].variantId
    ensures Valid(s.(carts := s.carts[u := items]))
  {
  }

  lemma CommittedIsValid(s: State, t: State, u: UserId)
    requires Valid(s) && t.catalog == s.catalog && t.opening == s.opening && t.carts == s.carts[u := []]
    requires t.stock.Keys == s.stock.Keys && OrdersInCatalog(t) && Conserved(t)
    requires forall i :: 0 <= i < |t.movements| ==> t.movements[i].variantId in t.catalog
    ensures Valid(t)
  {
  }

  lemma CheckoutConserves(s: State, u: UserId)
    requires Ready(s, u) && Conserved(s) && CheckoutOf(s, u).1 == Done
    ensures Conserved(CheckoutOf(s, u).0)
  {
    CheckoutEffect(s, u);
  }

  lemma DoneKeepsValid(s: State, u: UserId)
    requires Valid(s) && Ready(s, u) && CheckoutOf(s, u).1 == Done
    ensures Valid(CheckoutOf(s, u).0)
  {
    var t, lines := CheckoutOf(s, u).0, Lines(s.catalog, s.Cart(u));
    CheckoutEffect(s, u);
    CheckoutConserves(s, u);
    CheckoutKeepsOrders(s, u);
    SalesVariants(|s.orders|, lines, Brands(lines), s.catalog.Keys);
    CommittedIsValid(s, t, u);
  }

  lemma CheckoutKeepsValid(s: State, u: UserId)
    requires Valid(s)
    ensures Valid(CheckoutOf(s, u).0)
  {
    ValidIsReady(s, u);
    CheckoutSucceedsIff(s, u);
    if CheckoutOf(s, u).1 == Done {
      DoneKeepsValid(s, u);
    }
  }

  lemma RestockKeepsValid(s: State, order: int)
    requires Valid(s)
    ensures Valid(RestockOf(s, order))
  {
    if 0 <= order < |s.orders| {
      var items := s.orders[order].items;
      RestockedEffect(s.stock, items);
      MovesVariants(RETURN, 1, order, items, s.catalog.Keys);
      forall v | v in s.stock
        ensures Sum(s.movements + Moves(RETURN, 1, order, items), MovedOf(v))
                == Sum(s.movements, MovedOf(v)) + Sum(items, QuantityOf(v))
        ensures Sum(items, QuantityOf(v)) >= 0
      {
        MovesSum(RETURN, 1, order, items, v);
        SumConcat(s.movements, Moves(RETURN, 1, order, items), MovedOf(v));
        SumNonNegative(items, QuantityOf(v));
      }
      assert Conserved(RestockOf(s, order));
    }
  }

  lemma {:induction false} NothingMoved(movements: seq<Movement>, v: VariantId)
    requires forall i :: 0 <= i < |movements| ==> movements[i].variantId != v
    ensures Sum(movements, MovedOf(v)) == 0
  {
    if movements != [] {
      assert forall i :: 0 <= i < |movements| - 1 ==> movements[..|movements| - 1][i] == movements[i];
      NothingMoved(movements[..|movements| - 1], v);
    }
  }

  lemma CreationKeepsValid(s: State, a: Action)
    requires Valid(s) && a.CreateVariant?
    ensures Valid(Step(s, a).0)
  {
    if a.id !in s.catalog { NothingMoved(s.movements, a.id); }
  }

  lemma MovedPush(movements: seq<Movement>, row: Movement, v: VariantId)
    ensures Sum(movements + [row], MovedOf(v)) ==
            Sum(movements, MovedOf(v)) + if row.variantId == v then row.quantity else 0
  {
    SumPush(movements, row, MovedOf(v));
  }

  lemma AdjustKeepsValid(s: State, a: Action)
    requires Valid(s) && a.Adjust?
    ensures Valid(Step(s, a).0)
  {
    var row := Movement(a.id, a.kind, a.quantity, None);
    forall v ensures Sum(s.movements + [row], MovedOf(v)) ==
                     Sum(s.movements, MovedOf(v)) + if v == a.id then a.quantity else 0
    {
      MovedPush(s.movements, row, v);
    }
  }

  lemma StockStepKeepsValid(s: State, a: Action)
    requires Valid(s) && (a.CreateVariant? || a.UpdateVariant? || a.Adjust?)
    ensures Valid(Step(s, a).0)
  {
    match a
    case CreateVariant(_, _, _) => CreationKeepsValid(s, a);
    case UpdateVariant(_, _) =>
    case Adjust(_, _, _) => AdjustKeepsValid(s, a);
  }

  lemma ItemStepKeepsValid(s: State, a: Action)
    requires Valid(s) && Admitted(a) && (a.AddItem? || a.UpdateItem?)
    ensures Valid(Step(s, a).0)
  {
    CartWrite(s, a.u, if Step(s, a).1 == Done then Step(s, a).0.carts[a.u] else s.Cart(a.u));
  }

  lemma CartStepKeepsValid(s: State, a: Action)
    requires Valid(s) && Admitted(a) && (a.AddItem? || a.UpdateItem? || a.RemoveItem? || a.ClearCart?)
    ensures Valid(Step(s, a).0)
  {
    match a
    case AddItem(_, _, _) => ItemStepKeepsValid(s, a);
    case UpdateItem(_, _, _) => ItemStepKeepsValid(s, a);
    case RemoveItem(u, i) => CartWrite(s, u, if i < |s.Cart(u)| then s.Cart(u)[..i] + s.Cart(u)[i + 1..]
        else s.Cart(u));
    case ClearCart(u) => CartWrite(s, u, []);
  }

  lemma StepKeepsValid(s: State, a: Action)
    requires Valid(s) && Admitted(a)
    ensures Valid(Step(s, a).0)
  {
    match a
    case CreateVariant(_, _, _) => StockStepKeepsValid(s, a);
    case UpdateVariant(_, _) => StockStepKeepsValid(s, a);
    case Adjust(_, _, _) => StockStepKeepsValid(s, a);
    case AddItem(_, _, _) => CartStepKeepsValid(s, a);
    case UpdateItem(_, _, _) => CartStepKeepsValid(s, a);
    case RemoveItem(_, _) => CartStepKeepsValid(s, a);
    case ClearCart(_) => CartStepKeepsValid(s, a);
    case CheckOut(u) => CheckoutKeepsValid(s, u);
    case Restock(order) => RestockKeepsValid(s, order);
  }

  const Init := State(map[], map[], map[], [], [], map[])

  /**
    In every run the ledger balances for every variant, no stock is negative, and every cart has one line per
    variant.
   */
  ghost function Run(acts: seq<Action>): (s: State)
    requires forall i :: 0 <= i < |acts| ==> Admitted(acts[i])
    ensures Valid(s)
    decreases |acts|
  {
    if acts == [] then Init else
    var s := Run(acts[..|acts| - 1]);
    StepKeepsValid(s, acts[|acts| - 1]);
    Step(s, acts[|acts| - 1]).0
  }

  /** Stated for a reader: opening stock plus movements is the stock, at any moment of any run. */
  lemma StockIsLedger(acts: seq<Action>, v: VariantId)
    requires forall i :: 0 <= i < |acts| ==> Admitted(acts[i])
    requires v in Run(acts).stock
    ensures var s := Run(acts); v in s.opening && 0 <= s.stock[v] == s.opening[v] + Sum(s.movements, MovedOf(v))
  {
  }

  // ---- what each step does to carts, catalog and stock ----

  ghost predicate OneItemPerVariant(items: seq<CartItem>) {
    forall j, k :: 0 <= j < k < |items| ==> items[j].variantId != items[k].variantId
  }

  lemma {:induction false} InCartOf(items: seq<CartItem>, i: nat, v: VariantId)
    requires i < |items| && OneItemPerVariant(items)
    ensures Sum(items, AmountOf(v)) ==
            if items[i].variantId == v then items[i].quantity else Sum(items[..i] + items[i + 1..], AmountOf(v))
    ensures items[i].variantId == v ==> Sum(items[..i] + items[i + 1..], AmountOf(v)) == 0
  {
    SplitAround(items, i);
    SumAround(items[..i], items[i], items[i + 1..], AmountOf(v));
    if items[i].variantId == v {
      var rest := items[..i] + items[i + 1..];
      forall k | 0 <= k < |rest| ensures rest[k].variantId != v {
        assert rest[k] == if k < i then items[k] else items[k + 1];
      }
      NotInCart(rest, v);
    }
  }

  lemma {:induction false} NotInCart(items: seq<CartItem>, v: VariantId)
    requires forall k :: 0 <= k < |items| ==> items[k].variantId != v
    ensures Sum(items, AmountOf(v)) == 0
  {
    if items != [] {
      assert forall k :: 0 <= k < |items| - 1 ==> items[..|items| - 1][k] == items[k];
      NotInCart(items[..|items| - 1], v);
    }
  }

  /** What a call leaves of a variant in a cart: adding adds up, updating replaces, and the rest takes it away. */
  ghost function CartAmount(s: State, a: Action, u: UserId, v: VariantId): int
    requires Valid(s)
  {
    var before := InCart(s, u, v);
    match a
    case AddItem(w, id, quantity) =>
      if w == u && id == v && id in s.catalog && s.catalog[id].isActive then before + quantity else before
    case UpdateItem(w, i, quantity) =>
      if w == u && i < |s.Cart(u)| && s.Cart(u)[i].variantId == v then quantity else before
    case RemoveItem(w, i) => if w == u && i < |s.Cart(u)| && s.Cart(u)[i].variantId == v then 0 else before
    case ClearCart(w) => if w == u then 0 else before
    case CheckOut(w) => if w == u && EachLineFits(s, u) then 0 else before
    case _ => before
  }

  lemma AddedAmount(items: seq<CartItem>, id: VariantId, quantity: int, v: VariantId)
    ensures Sum(Added(items, id, quantity), AmountOf(v)) ==
            Sum(items, AmountOf(v)) + if id == v then quantity else 0
  {
    var i := FindItem(items, id);
    if i < |items| {
      SumUpdate(items, i, CartItem(id, items[i].quantity + quantity), AmountOf(v));
    } else {
      SumPush(items, CartItem(id, quantity), AmountOf(v));
    }
  }

  lemma UpdatedAmount(items: seq<CartItem>, i: nat, quantity: int, v: VariantId)
    requires i < |items| && OneItemPerVariant(items)
    ensures Sum(items[i := items[i].(quantity := quantity)], AmountOf(v)) ==
            if items[i].variantId == v then quantity else Sum(items, AmountOf(v))
  {
    InCartOf(items, i, v);
    SumUpdate(items, i, items[i].(quantity := quantity), AmountOf(v));
  }

  lemma CartsAreSingle(s: State, u: UserId)
    requires Valid(s)
    ensures OneItemPerVariant(s.Cart(u))
  {
  }

  lemma AddWrites(s: State, a: Action, u: UserId)
    requires Valid(s) && a.AddItem?
    ensures Step(s, a).0.Cart(u) ==
            if a.u == u && a.id in s.catalog && s.catalog[a.id].isActive then Added(s.Cart(u), a.id, a.quantity)
            else s.Cart(u)
  {
  }

  lemma AddAmountIs(s: State, a: Action, u: UserId, v: VariantId)
    requires Valid(s) && a.AddItem?
    ensures InCart(Step(s, a).0, u, v) == CartAmount(s, a, u, v)
  {
    AddWrites(s, a, u);
    var now := Step(s, a).0.Cart(u);
    assert InCart(Step(s, a).0, u, v) == Sum(now, AmountOf(v));
    assert InCart(s, u, v) == Sum(s.Cart(u), AmountOf(v));
    AddedAmount(s.Cart(u), a.id, a.quantity, v);
  }

  lemma UpdateAmountIs(s: State, a: Action, u: UserId, v: VariantId)
    requires Valid(s) && a.UpdateItem?
    ensures InCart(Step(s, a).0, u, v) == CartAmount(s, a, u, v)
  {
    CartsAreSingle(s, u);
    if a.item < |s.Cart(u)| { UpdatedAmount(s.Cart(u), a.item, a.quantity, v); }
  }

  lemma RemoveWrites(s: State, a: Action, u: UserId)
    requires Valid(s) && a.RemoveItem? && a.item < |s.Cart(u)|
    ensures Step(s, a).0.Cart(u) ==
            if a.u == u then s.Cart(u)[..a.item] + s.Cart(u)[a.item + 1..] else s.Cart(u)
  {
  }

  lemma RemoveAmountIs(s: State, a: Action, u: UserId, v: VariantId)
    requires Valid(s) && a.RemoveItem?
    ensures InCart(Step(s, a).0, u, v) == CartAmount(s, a, u, v)
  {
    CartsAreSingle(s, u);
    if a.item < |s.Cart(u)| {
      InCartOf(s.Cart(u), a.item, v);
      RemoveWrites(s, a, u);
    }
  }

  lemma CheckOutAmountIs(s: State, w: UserId, u: UserId, v: VariantId)
    requires Ready(s, w)
    ensures InCart(CheckoutOf(s, w).0, u, v) == if w == u && EachLineFits(s, u) then 0 else InCart(s, u, v)
  {
    CheckoutSucceedsIff(s, w);
    if CheckoutOf(s, w).1 == Done {
      CheckoutPartitionsCart(s, w);
      assert u != w ==> CheckoutOf(s, w).0.Cart(u) == s.Cart(u);
    }
  }

  /** Every call on the carts, for every user and variant. */
  lemma CartAmountIs(s: State, a: Action, u: UserId, v: VariantId)
    requires Valid(s)
    ensures InCart(Step(s, a).0, u, v) == CartAmount(s, a, u, v)
  {
    match a
    case AddItem(_, _, _) => AddAmountIs(s, a, u, v);
    case UpdateItem(_, _, _) => UpdateAmountIs(s, a, u, v);
    case RemoveItem(_, _) => RemoveAmountIs(s, a, u, v);
    case CheckOut(w) =>
      ValidIsReady(s, w);
      CheckOutAmountIs(s, w, u, v);
    case _ =>
  }

  /** What a call leaves in stock. */
  ghost function StockAmount(s: State, a: Action, v: VariantId): int
    requires Valid(s)
  {
    var before := if v in s.stock then s.stock[v] else 0;
    match a
    case CreateVariant(id, _, quantity) =>
      if id == v && id !in s.catalog && quantity.Some? then quantity.value else before
    case Adjust(id, _, quantity) => if id == v && id in s.catalog && before + quantity >= 0 then before + quantity
        else before
    case CheckOut(u) => if EachLineFits(s, u) then before - InCart(s, u, v) else before
    case Restock(order) => before + if 0 <= order < |s.orders| then Sum(s.orders[order].items, QuantityOf(v)) else 0
    case _ => before
  }

  lemma CheckoutStockIs(s: State, u: UserId, v: VariantId)
    requires Ready(s, u) && v in s.stock
    ensures v in CheckoutOf(s, u).0.stock
    ensures CheckoutOf(s, u).0.stock[v] == s.stock[v] - if EachLineFits(s, u) then InCart(s, u, v) else 0
  {
    CheckoutSucceedsIff(s, u);
    if CheckoutOf(s, u).1 == Done {
      CheckoutTakesCart(s, u);
    }
  }

  lemma RestockStockIs(s: State, order: int, v: VariantId)
    requires OrdersInCatalog(s) && v in s.stock
    ensures v in RestockOf(s, order).stock
    ensures RestockOf(s, order).stock[v] ==
            s.stock[v] + if 0 <= order < |s.orders| then Sum(s.orders[order].items, QuantityOf(v)) else 0
  {
    if 0 <= order < |s.orders| {
      RestockedEffect(s.stock, s.orders[order].items);
    }
  }

  /** Every call, for every variant: nothing else ever touches the stock. */
  lemma StockAmountIs(s: State, a: Action, v: VariantId)
    requires Valid(s) && v in Step(s, a).0.stock
    ensures Step(s, a).0.stock[v] == StockAmount(s, a, v)
  {
    match a
    case CheckOut(u) =>
      ValidIsReady(s, u);
      SameVariants(s, a);
      CheckoutStockIs(s, u, v);
    case Restock(order) =>
      SameVariants(s, a);
      RestockStockIs(s, order, v);
    case _ =>
  }

  lemma SameVariants(s: State, a: Action)
    requires Valid(s) && (a.CheckOut? || a.Restock?)
    ensures Step(s, a).0.stock.Keys == s.stock.Keys
  {
    StepKeepsValid(s, a);
  }

  /** When a call on a cart goes through: what is unknown, inactive or not in the cart is not found. */
  lemma CartCallsIff(s: State, a: Action)
    requires Valid(s) && (a.AddItem? || a.UpdateItem? || a.RemoveItem? || a.ClearCart?)
    ensures var (t, r) := Step(s, a);
            && (r == Done <==>
                  match a
                  case AddItem(_, id, _) => id in s.catalog && s.catalog[id].isActive
                  case UpdateItem(u, i, _) => i < |s.Cart(u)|
                  case RemoveItem(u, i) => i < |s.Cart(u)|
                  case ClearCart(_) => true)
            && (r != Done ==> r == NotFound && t == s)
            && t.(carts := s.carts) == s
  {
  }

  /** When a call on variants and stock goes through, and what it writes besides the stock. */
  lemma VariantCallsIff(s: State, a: Action)
    requires Valid(s) && (a.CreateVariant? || a.UpdateVariant? || a.Adjust?)
    ensures var (t, r) := Step(s, a);
            && (r == Done <==>
                  match a
                  case CreateVariant(id, _, _) => id !in s.catalog
                  case UpdateVariant(id, _) => id in s.catalog
                  case Adjust(id, _, quantity) => id in s.catalog && s.stock[id] + quantity >= 0)
            && (r != Done ==> t == s) && (r == NegativeStock <==> a.Adjust? && a.id in s.catalog && r != Done)
            && (r == AlreadyExists <==> a.CreateVariant? && r != Done)
            && (r == NotFound <==> !a.CreateVariant? && a.id !in s.catalog)
            && t.orders == s.orders && t.carts == s.carts
            && t.catalog == (if r == Done && !a.Adjust? then s.catalog[a.id := a.variant] else s.catalog)
            && t.movements == s.movements
                 + (if r == Done && a.Adjust? then [Movement(a.id, a.kind, a.quantity, None)] else [])
  {
  }

  // ---- orders never change, and every movement of theirs is booked ----

  /** An order stays as it was placed, whatever happens to catalog and prices; only a checkout adds one. */
  lemma OrdersStay(s: State, a: Action)
    requires Valid(s)
    ensures s.orders <= Step(s, a).0.orders
    ensures Step(s, a).0.orders != s.orders ==> a.CheckOut? && Step(s, a).1 == Done
  {
  }

  function BookedFor(kind: MovementType, order: nat, v: VariantId): Movement -> int {
    (m: Movement) => if m.kind == kind && m.order == Some(order) && m.variantId == v then m.quantity else 0
  }

  lemma {:induction false} MovesBooked(kind: MovementType, sign: int, order: nat, lines: seq<Line>,
      booked: MovementType, o: nat, v: VariantId)
    ensures Sum(Moves(kind, sign, order, lines), BookedFor(booked, o, v)) ==
            if booked == kind && o == order then sign * Sum(lines, QuantityOf(v)) else 0
  {
    if lines != [] {
      var n := |lines| - 1;
      MovesBooked(kind, sign, order, lines[..n], booked, o, v);
      SumPush(Moves(kind, sign, order, lines[..n]), Movement(lines[n].variantId, kind, sign * lines[n].quantity,
          Some(order)), BookedFor(booked, o, v));
      Distribute(sign, Sum(lines[..n], QuantityOf(v)), QuantityOf(v)(lines[n]));
    }
  }

  /** What order o gets of a variant, when the first brand's order is number `first`. */
  function GroupAmount(first: nat, lines: seq<Line>, brands: seq<BrandId>, o: nat, v: VariantId): int {
    if first <= o < first + |brands| then Sum(OfBrand(lines, brands[o - first]), QuantityOf(v)) else 0
  }

  lemma GroupPush(first: nat, lines: seq<Line>, brands: seq<BrandId>, o: nat, v: VariantId)
    requires brands != []
    ensures var n := |brands| - 1;
            GroupAmount(first, lines, brands, o, v) == GroupAmount(first, lines, brands[..n], o, v)
              + if o == first + n then Sum(OfBrand(lines, brands[n]), QuantityOf(v)) else 0
  {
    var n := |brands| - 1;
    if first <= o < first + n {
      assert brands[..n][o - first] == brands[o - first];
    }
  }

  lemma SaleBooked(before: seq<Movement>, order: nat, group: seq<Line>, booked: MovementType, o: nat, v: VariantId)
    ensures Sum(before + Moves(SALE, -1, order, group), BookedFor(booked, o, v)) ==
            Sum(before, BookedFor(booked, o, v)) - if booked == SALE && o == order then Sum(group, QuantityOf(v)) else 0
  {
    MovesBooked(SALE, -1, order, group, booked, o, v);
    SumConcat(before, Moves(SALE, -1, order, group), BookedFor(booked, o, v));
  }

  lemma {:induction false} SalesBooked(first: nat, lines: seq<Line>, brands: seq<BrandId>, booked: MovementType,
      o: nat, v: VariantId)
    ensures Sum(Sales(first, lines, brands), BookedFor(booked, o, v)) ==
            if booked == SALE then -GroupAmount(first, lines, brands, o, v) else 0
  {
    if brands != [] {
      var n := |brands| - 1;
      var before, group := Sales(first, lines, brands[..n]), OfBrand(lines, brands[n]);
      calc {
        Sum(Sales(first, lines, brands), BookedFor(booked, o, v));
      ==
        Sum(before + Moves(SALE, -1, first + n, group), BookedFor(booked, o, v));
      == { SaleBooked(before, first + n, group, booked, o, v); }
        Sum(before, BookedFor(booked, o, v))
        - if booked == SALE && o == first + n then Sum(group, QuantityOf(v)) else 0;
      == { SalesBooked(first, lines, brands[..n], booked, o, v); GroupPush(first, lines, brands, o, v); }
        if booked == SALE then -GroupAmount(first, lines, brands, o, v) else 0;
      }
    }
  }

  /** What the ledger says about one order and one variant, of one kind of movement. */
  function Booked(s: State, kind: MovementType, o: nat, v: VariantId): int {
    Sum(s.movements, BookedFor(kind, o, v))
  }

  /** What the orders that a step adds ask for. */
  function NewlyOrdered(s: State, t: State, o: nat, v: VariantId): int {
    if |s.orders| <= o < |t.orders| then Sum(t.orders[o].items, QuantityOf(v)) else 0
  }

  function GivenBack(s: State, a: Action, o: nat, v: VariantId): int {
    if a == Restock(o) && o < |s.orders| then Sum(s.orders[o].items, QuantityOf(v)) else 0
  }

  /** The step books SALE rows for what it orders, RETURN rows for what it gives back, and nothing else on an order. */
  predicate Books(s: State, a: Action, t: State, booked: MovementType, o: nat, v: VariantId) {
    Booked(t, booked, o, v) == Booked(s, booked, o, v)
      - (if booked == SALE then NewlyOrdered(s, t, o, v) else 0)
      + (if booked == RETURN then GivenBack(s, a, o, v) else 0)
  }

  lemma NewGroup(s: State, t: State, u: UserId, lines: seq<Line>, brands: seq<BrandId>, o: nat, v: VariantId)
    requires t.orders == s.orders + OrdersFor(u, lines, brands)
    ensures NewlyOrdered(s, t, o, v) == GroupAmount(|s.orders|, lines, brands, o, v)
  {
    if |s.orders| <= o < |s.orders| + |brands| {
      OrdersForAt(u, lines, brands, o - |s.orders|);
    }
  }

  lemma CheckoutBooks(s: State, u: UserId, booked: MovementType, o: nat, v: VariantId)
    requires Ready(s, u)
    ensures Books(s, CheckOut(u), CheckoutOf(s, u).0, booked, o, v)
  {
    CheckoutSucceedsIff(s, u);
    if CheckoutOf(s, u).1 == Done {
      var lines := Lines(s.catalog, s.Cart(u));
      NewGroup(s, CheckoutOf(s, u).0, u, lines, Brands(lines), o, v);
      SalesBooked(|s.orders|, lines, Brands(lines), booked, o, v);
      SumConcat(s.movements, Sales(|s.orders|, lines, Brands(lines)), BookedFor(booked, o, v));
    }
  }

  lemma RestockBooks(s: State, order: int, booked: MovementType, o: nat, v: VariantId)
    ensures Books(s, Restock(order), RestockOf(s, order), booked, o, v)
  {
    if 0 <= order < |s.orders| {
      var items := s.orders[order].items;
      MovesBooked(RETURN, 1, order, items, booked, o, v);
      SumConcat(s.movements, Moves(RETURN, 1, order, items), BookedFor(booked, o, v));
    }
  }

  lemma AdjustBooks(s: State, a: Action, booked: MovementType, o: nat, v: VariantId)
    requires Valid(s) && a.Adjust?
    ensures Books(s, a, Step(s, a).0, booked, o, v)
  {
    SumPush(s.movements, Movement(a.id, a.kind, a.quantity, None), BookedFor(booked, o, v));
  }

  lemma QuietStep(s: State, a: Action)
    requires Valid(s) && !a.CheckOut? && !a.Restock? && !a.Adjust?
    ensures Step(s, a).0.movements == s.movements && Step(s, a).0.orders == s.orders
  {
  }

  /** What every call writes to the ledger about an order; an adjustment, of whatever kind, is about none. */
  lemma StepBooks(s: State, a: Action, booked: MovementType, o: nat, v: VariantId)
    requires Valid(s)
    ensures Books(s, a, Step(s, a).0, booked, o, v)
  {
    match a
    case CheckOut(u) =>
      ValidIsReady(s, u);
      CheckoutBooks(s, u, booked, o, v);
    case Restock(order) => RestockBooks(s, order, booked, o, v);
    case Adjust(_, _, _) => AdjustBooks(s, a, booked, o, v);
    case _ => QuietStep(s, a);
  }

  /** What an order asks for of a variant. */
  function Ordered(s: State, o: nat, v: VariantId): int {
    if o < |s.orders| then Sum(s.orders[o].items, QuantityOf(v)) else 0
  }

  lemma OrderedStays(s: State, a: Action, o: nat, v: VariantId)
    requires Valid(s)
    ensures o < |s.orders| ==> o < |Step(s, a).0.orders| && Ordered(Step(s, a).0, o, v) == Ordered(s, o, v)
  {
    OrdersStay(s, a);
  }

  /** In every run the SALE rows of an order are its lines. */
  lemma {:induction false} SalesAreOrders(acts: seq<Action>, o: nat, v: VariantId)
    requires forall i :: 0 <= i < |acts| ==> Admitted(acts[i])
    ensures Booked(Run(acts), SALE, o, v) == -Ordered(Run(acts), o, v)
  {
    if acts != [] {
      var n := |acts| - 1;
      SalesAreOrders(acts[..n], o, v);
      OrderedStays(Run(acts[..n]), acts[n], o, v);
      StepBooks(Run(acts[..n]), acts[n], SALE, o, v);
    }
  }

  // ---- the transaction, brand by brand ----

  datatype Written = Written(stock: Stock, movements: seq<Movement>, orders: seq<Order>)

  ghost function Transaction(u: UserId, lines: seq<Line>, brands: seq<BrandId>, first: nat, stock: Stock,
                             movements: seq<Movement>): Option<Written>
  {
    if brands == [] then Some(Written(stock, movements, [])) else
    var n := |brands| - 1;
    var before, group := Transaction(u, lines, brands[..n], first, stock, movements), OfBrand(lines, brands[n]);
    if before == None then None else
    var w := before.value;
    match Deduct(w.stock, group)
    case None => None
    case Some(left) =>
      Some(Written(left, w.movements + Moves(SALE, -1, first + n, group),
                   w.orders + [Order(u, brands[n], Sum(group, LineTotal()), group)]))
  }

  /** Once a prefix of the brands cannot be sold, neither can all of them. */
  lemma {:induction false} TransactionStops(u: UserId, lines: seq<Line>, brands: seq<BrandId>, first: nat, stock: Stock,
                                            movements: seq<Movement>, k: nat)
    requires k <= |brands| && Transaction(u, lines, brands[..k], first, stock, movements) == None
    ensures Transaction(u, lines, brands, first, stock, movements) == None
    decreases |brands| - k
  {
    if k < |brands| {
      assert brands[..k + 1][..k] == brands[..k];
      TransactionStops(u, lines, brands, first, stock, movements, k + 1);
    } else {
      assert brands[..k] == brands;
    }
  }

  lemma Associate<T>(a: seq<T>, b: seq<T>, c: seq<T>)
    ensures (a + b) + c == a + (b + c)
  {
  }

  /** Brand by brand is the same as all the grouped lines in one go. */
  lemma {:induction false} TransactionEffect(u: UserId, lines: seq<Line>, brands: seq<BrandId>, first: nat,
      stock: Stock,
                                             movements: seq<Movement>)
    ensures Transaction(u, lines, brands, first, stock, movements) ==
            match Deduct(stock, Regroup(lines, brands))
            case None => None
            case Some(left) =>
              Some(Written(left, movements + Sales(first, lines, brands), OrdersFor(u, lines, brands)))
  {
    if brands == [] {
      assert movements + [] == movements;
    } else {
      var n := |brands| - 1;
      var group := OfBrand(lines, brands[n]);
      TransactionEffect(u, lines, brands[..n], first, stock, movements);
      DeductConcat(stock, Regroup(lines, brands[..n]), group);
      var before, moves := Sales(first, lines, brands[..n]), Moves(SALE, -1, first + n, group);
      Associate(movements, before, moves);
      assert Regroup(lines, brands) == Regroup(lines, brands[..n]) + group;
      assert Sales(first, lines, brands) == before + moves;
    }
  }

  lemma CheckoutCases(s: State, u: UserId, lines: seq<Line>, fits: bool)
    requires CartInCatalog(s, u) && s.Cart(u) != [] && lines == Lines(s.catalog, s.Cart(u))
    requires fits <==> forall i :: 0 <= i < |lines| ==> lines[i].quantity <= s.stock[lines[i].variantId]
    ensures !fits || Deduct(s.stock, Regroup(lines, Brands(lines))) == None
            ==> CheckoutOf(s, u) == (s, InsufficientStock)
    ensures fits && Deduct(s.stock, Regroup(lines, Brands(lines))).Some? ==>
              CheckoutOf(s, u) ==
              (s.(stock := Deduct(s.stock, Regroup(lines, Brands(lines))).value,
                  orders := s.orders + OrdersFor(u, lines, Brands(lines)),
                  movements := s.movements + Sales(|s.orders|, lines, Brands(lines)),
                  carts := s.carts[u := []]), Done)
  {
  }

  // ---- the services ----

  class Shop {
    var catalog: map<VariantId, Variant>
    var stock: Stock
    ghost var opening: Stock
    var movements: seq<Movement>
    var orders: seq<Order>
    var carts: map<UserId, seq<CartItem>>

    ghost function View(): State
      reads this
    {
      State(catalog, stock, opening, movements, orders, carts)
    }

    constructor ()
      ensures View() == Init && Valid(View())
    {
      catalog, stock, opening, movements, orders, carts := map[], map[], map[], [], [], map[];
    }

    method AddItem(u: UserId, id: VariantId, quantity: int) returns (outcome: Outcome)
      requires Valid(View()) && quantity >= 1
      modifies this`carts
      ensures (View(), outcome) == Step(old(View()), Action.AddItem(u, id, quantity))
    {
      if id !in catalog || !catalog[id].isActive {
        return NotFound;
      }
      if u !in carts {
        carts := carts[u := []];
      }
      var items := carts[u];
      assert items == old(View()).Cart(u);
      var i := FindItem(items, id);
      if i < |items| {
        carts := carts[u := items[i := items[i].(quantity := items[i].quantity + quantity)]];
      } else {
        carts := carts[u := items + [CartItem(id, quantity)]];
      }
      assert carts == old(carts)[u := carts[u]];
      return Done;
    }

    method Adjust(id: VariantId, kind: MovementType, quantity: int) returns (outcome: Outcome)
      requires Valid(View())
      modifies this`movements, this`stock
      ensures (View(), outcome) == Step(old(View()), Action.Adjust(id, kind, quantity))
    {
      if id !in stock {
        return NotFound;
      }
      var newStock := stock[id] + quantity;
      if newStock < 0 {
        return NegativeStock;
      }
      movements := movements + [Movement(id, kind, quantity, None)];
      stock := stock[id := newStock];
      return Done;
    }

    /** The `Map` of the source: keys in insertion order, and the lines pushed under each. */
    method GroupByBrand(lines: seq<Line>) returns (brands: seq<BrandId>, byBrand: map<BrandId, seq<Line>>)
      ensures brands == Brands(lines)
      ensures byBrand.Keys == (set b | b in brands)
      ensures forall b :: b in brands ==> byBrand[b] == OfBrand(lines, b)
    {
      brands, byBrand := [], map[];
      for i := 0 to |lines|
        invariant brands == Brands(lines[..i])
        invariant byBrand.Keys == (set b | b in brands)
        invariant forall b :: b in brands ==> byBrand[b] == OfBrand(lines[..i], b)
        invariant forall b :: b !in brands ==> OfBrand(lines[..i], b) == []
      {
        assert lines[..i + 1][..i] == lines[..i];
        var b := lines[i].brandId;
        if b in byBrand {
          byBrand := byBrand[b := byBrand[b] + [lines[i]]];
        } else {
          brands := brands + [b];
          byBrand := byBrand[b := [lines[i]]];
        }
      }
      assert lines[..|lines|] == lines;
    }

    /** One order's lines inside the transaction: check, decrement, record, line by line. */
    method SellLines(order: nat, lines: seq<Line>, stock0: Stock, movements0: seq<Movement>)
      returns (ok: bool, stock1: Stock, movements1: seq<Movement>)
      ensures ok <==> Deduct(stock0, lines).Some?
      ensures ok ==> Some(stock1) == Deduct(stock0, lines) && movements1 == movements0 + Moves(SALE, -1, order, lines)
    {
      stock1, movements1 := stock0, movements0;
      for j := 0 to |lines|
        invariant Deduct(stock0, lines[..j]) == Some(stock1)
        invariant movements1 == movements0 + Moves(SALE, -1, order, lines[..j])
      {
        assert lines[..j + 1][..j] == lines[..j];
        var line := lines[j];
        if line.variantId !in stock1 || stock1[line.variantId] < line.quantity {
          DeductConcat(stock0, lines[..j + 1], lines[j + 1..]);
          assert lines == lines[..j + 1] + lines[j + 1..];
          return false, stock0, movements0;
        }
        stock1 := stock1[line.variantId := stock1[line.variantId] - line.quantity];
        movements1 := movements1 + [Movement(line.variantId, SALE, -1 * line.quantity, Some(order))];
      }
      assert lines[..|lines|] == lines;
      ok := true;
    }

    method Subtotal(group: seq<Line>) returns (subtotal: int)
      ensures subtotal == Sum(group, LineTotal())
    {
      subtotal := 0;
      for j := 0 to |group|
        invariant subtotal == Sum(group[..j], LineTotal())
      {
        assert group[..j + 1][..j] == group[..j];
        subtotal := subtotal + group[j].unitPrice * group[j].quantity;
      }
      assert group[..|group|] == group;
    }

    /** The body of the transaction, on its own copies of the rows it writes. */
    method SellGroups(u: UserId, ghost lines: seq<Line>, brands: seq<BrandId>, byBrand: map<BrandId, seq<Line>>,
                      first: nat, stock0: Stock, movements0: seq<Movement>)
      returns (ok: bool, stock1: Stock, movements1: seq<Movement>, created: seq<Order>)
      requires forall b :: b in brands ==> b in byBrand && byBrand[b] == OfBrand(lines, b)
      ensures Transaction(u, lines, brands, first, stock0, movements0) ==
              if ok then Some(Written(stock1, movements1, created)) else None
    {
      stock1, movements1, created := stock0, movements0, [];
      for k := 0 to |brands|
        invariant Transaction(u, lines, brands[..k], first, stock0, movements0) ==
                  Some(Written(stock1, movements1, created))
      {
        assert brands[..k + 1][..k] == brands[..k];
        var group := byBrand[brands[k]];
        var subtotal := Subtotal(group);
        ok, stock1, movements1 := SellLines(first + k, group, stock1, movements1);
        if !ok {
          TransactionStops(u, lines, brands, first, stock0, movements0, k + 1);
          return;
        }
        created := created + [Order(u, brands[k], subtotal, group)];
      }
      assert brands[..|brands|] == brands;
      ok := true;
    }

    /** The transaction: its rows are committed together, at the end. */
    method SellByBrand(u: UserId, ghost lines: seq<Line>, brands: seq<BrandId>, byBrand: map<BrandId, seq<Line>>)
      returns (ok: bool)
      requires forall b :: b in brands ==> b in byBrand && byBrand[b] == OfBrand(lines, b)
      modifies this`stock, this`movements, this`orders
      ensures ok <==> Deduct(old(stock), Regroup(lines, brands)).Some?
      ensures ok ==> Some(stock) == Deduct(old(stock), Regroup(lines, brands))
      ensures ok ==> movements == old(movements) + Sales(|old(orders)|, lines, brands)
      ensures ok ==> orders == old(orders) + OrdersFor(u, lines, brands)
      ensures !ok ==> stock == old(stock) && movements == old(movements) && orders == old(orders)
    {
      var stock1, movements1, created;
      TransactionEffect(u, lines, brands, |orders|, stock, movements);
      ok, stock1, movements1, created := SellGroups(u, lines, brands, byBrand, |orders|, stock, movements);
      if ok {
        stock, movements, orders := stock1, movements1, orders + created;
      }
    }

    /** The check before the transaction, line by line. */
    method EachFits(lines: seq<Line>, stock0: Stock) returns (fits: bool)
      requires forall i :: 0 <= i < |lines| ==> lines[i].variantId in stock0
      ensures fits <==> forall i :: 0 <= i < |lines| ==> lines[i].quantity <= stock0[lines[i].variantId]
    {
      for i := 0 to |lines|
        invariant forall j :: 0 <= j < i ==> lines[j].quantity <= stock0[lines[j].variantId]
      {
        if lines[i].quantity > stock0[lines[i].variantId] {
          return false;
        }
      }
      return true;
    }

    method Checkout(u: UserId) returns (outcome: Outcome)
      requires CartInCatalog(View(), u)
      modifies this`stock, this`movements, this`orders, this`carts
      ensures (View(), outcome) == CheckoutOf(old(View()), u)
      ensures outcome != Done ==> View() == old(View())
    {
      if u !in carts || carts[u] == [] {
        return EmptyCart;
      }
      ghost var before := View();
      assert before.Cart(u) == carts[u];
      var lines := Lines(catalog, carts[u]);
      var fits := EachFits(lines, stock);
      CheckoutCases(before, u, lines, fits);
      if !fits {
        return InsufficientStock;
      }
      var brands, byBrand := GroupByBrand(lines);
      var ok := SellByBrand(u, lines, brands, byBrand);
      if !ok {
        return InsufficientStock;
      }
      carts := carts[u := []];
      return Done;
    }

    method RestockOrder(order: int)
      modifies this`stock, this`movements
      ensures View() == RestockOf(old(View()), order)
    {
      if !(0 <= order < |orders|) {
        return;
      }
      var items := orders[order].items;
      for i := 0 to |items|
        invariant stock == Restocked(old(stock), items[..i]) && movements == old(movements)
      {
        assert items[..i + 1][..i] == items[..i];
        if items[i].variantId in stock {
          stock := stock[items[i].variantId := stock[items[i].variantId] + items[i].quantity];
        }
      }
      for i := 0 to |items|
        invariant stock == Restocked(old(stock), items[..|items|])
        invariant movements == old(movements) + Moves(RETURN, 1, order, items[..i])
      {
        assert items[..i + 1][..i] == items[..i];
        movements := movements + [Movement(items[i].variantId, RETURN, 1 * items[i].quantity, Some(order))];
      }
      assert items[..|items|] == items;
    }
  }
}
