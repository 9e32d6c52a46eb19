/** The anonymized payment facts carry the category of the leading item of each order: a loop
    that keeps a running best per order, and a plan that ranks joined rows and takes the first. */
module Category {
  import opened Prelude
  import opened Relational
  import opened KstTime

  datatype Item = Item(orderRef: Option<string>, productId: Option<string>, price: Option<int>, quantity: Option<int>,
      itemId: Option<int>)

  datatype Product = Product(productId: Option<string>, category: Option<string>)

  /** An item that can give its order a category. */
  datatype Candidate = Candidate(orderRef: string, productId: string, category: string, amount: int,
      itemId: Option<int>)

  // ----- The loop -----------------------------------------------------------------------------

  /** Category by product id; a later row replaces an earlier one. */
  function ProductCategories(products: seq<Product>): map<string, string> {
    if products == [] then map[]
    else
      var p := products[|products|-1];
      var rest := ProductCategories(products[..|products|-1]);
      if p.productId.Some? && p.category.Some? then rest[p.productId.value := p.category.value] else rest
  }

  /** `price or 0` times `quantity or 1`: a zero quantity counts as one. */
  function LoopAmount(i: Item): int {
    (if i.price.Some? then i.price.value else 0) * (if i.quantity.Some? && i.quantity.value != 0 then i.quantity.value
        else 1)
  }

  function LoopCandidate(i: Item, categories: map<string, string>): Option<Candidate> {
    if Truthy(i.orderRef) && i.productId.Some? && i.productId.value in categories
    then Some(Candidate(i.orderRef.value, i.productId.value, categories[i.productId.value], LoopAmount(i), i.itemId))
    else None
  }

  /** a takes the lead over b: a larger amount, or the same amount and a smaller item id, any id
      being smaller than none. */
  predicate Leads(a: Candidate, b: Candidate) {
    a.amount > b.amount || (a.amount == b.amount && a.itemId.Some?
        && (b.itemId.None? || a.itemId.value < b.itemId.value))
  }

  /** The running best of one order. */
  function BestFor(items: seq<Item>, categories: map<string, string>, o: string): Option<Candidate> {
    if items == [] then None
    else
      var best := BestFor(items[..|items|-1], categories, o);
      var c := LoopCandidate(items[|items|-1], categories);
      if c.None? || c.value.orderRef != o then best
      else if best.None? || Leads(c.value, best.value) then c
      else best
  }

  method SelectCategories(items: seq<Item>, categories: map<string, string>) returns (result: map<string, string>)
    ensures forall o :: (if o in result then Some(result[o]) else None) == CategoryFor(items, categories, o)
  {
    var bestByOrder: map<string, Candidate> := map[];
    for n := 0 to |items|
      invariant forall o ::
                  (if o in bestByOrder then Some(bestByOrder[o]) else None) == BestFor(items[..n], categories, o)
    {
      assert items[..n+1][..n] == items[..n];
      var item := items[n];
      if !Truthy(item.orderRef) || item.productId.None? || item.productId.value !in categories {
        continue;
      }
      var category := categories[item.productId.value];
      var price := if item.price.Some? then item.price.value else 0;
      var quantity := if item.quantity.Some? && item.quantity.value != 0 then item.quantity.value else 1;
      var lineAmount := price * quantity;
      var candidate := Candidate(item.orderRef.value, item.productId.value, category, lineAmount, item.itemId);
      var order := item.orderRef.value;
      if order !in bestByOrder {
        bestByOrder := bestByOrder[order := candidate];
        continue;
      }
      var current := bestByOrder[order];
      if lineAmount > current.amount {
        bestByOrder := bestByOrder[order := candidate];
        continue;
      }
      if lineAmount == current.amount {
        if item.itemId.Some? && (current.itemId.None? || item.itemId.value < current.itemId.value) {
          bestByOrder := bestByOrder[order := candidate];
        }
      }
    }
    assert items[..|items|] == items;
    result := map o | o in bestByOrder :: bestByOrder[o].category;
  }

  // ----- What the running best is -------------------------------------------------------------

  predicate CandidateAt(items: seq<Item>, categories: map<string, string>, o: string, n: int, c: Candidate) {
    0 <= n < |items| && LoopCandidate(items[n], categories) == Some(c) && c.orderRef == o
  }

  /** c is a candidate of the order and no candidate of the order leads it. */
  ghost predicate Top(items: seq<Item>, categories: map<string, string>, o: string, c: Candidate) {
    && (exists n :: CandidateAt(items, categories, o, n, c))
    && (forall m, q | CandidateAt(items, categories, o, m, q) :: !Leads(q, c))
  }

  /** The running best is a top candidate, and no earlier item holds a top candidate. */
  lemma {:induction false} BestIsFirstTop(items: seq<Item>, categories: map<string, string>, o: string) returns (n: int)
    ensures BestFor(items, categories, o).None? ==> forall m, q :: !CandidateAt(items, categories, o, m, q)
    ensures BestFor(items, categories, o).Some? ==>
              && CandidateAt(items, categories, o, n, BestFor(items, categories, o).value)
              && (forall m, q | CandidateAt(items, categories, o, m, q) ::
                  !Leads(q, BestFor(items, categories, o).value))
              && (forall m, q | m < n && CandidateAt(items, categories, o, m, q) ::
                  Leads(BestFor(items, categories, o).value, q))
  {
    n := 0;
    if items != [] {
      var front, k := items[..|items|-1], |items| - 1;
      var before := BestIsFirstTop(front, categories, o);
      forall m, q | CandidateAt(items, categories, o, m, q) && m < k
        ensures CandidateAt(front, categories, o, m, q)
      {
        assert front[m] == items[m];
      }
      n := if BestFor(items, categories, o) == BestFor(front, categories, o)
          && BestFor(front, categories, o).Some? then before else k;
      if BestFor(front, categories, o).Some? {
        assert items[before] == front[before];
      }
    }
  }

  /** All top candidates of the order have one category. */
  ghost predicate TopAgrees(items: seq<Item>, categories: map<string, string>, o: string) {
    forall c, q | Top(items, categories, o, c) && Top(items, categories, o, q) :: c.category == q.category
  }

  /** Item ids present and distinct within the order. */
  ghost predicate DistinctIds(items: seq<Item>, categories: map<string, string>, o: string) {
    && (forall n, c | CandidateAt(items, categories, o, n, c) :: c.itemId.Some?)
    && (forall n, m, c, q | CandidateAt(items, categories, o, n, c) && CandidateAt(items, categories, o, m, q)
        && c.itemId == q.itemId :: n == m)
  }

  lemma {:induction false} DistinctIdsAgree(items: seq<Item>, categories: map<string, string>, o: string)
    requires DistinctIds(items, categories, o)
    ensures TopAgrees(items, categories, o)
  {
  }

  function CategoryFor(items: seq<Item>, categories: map<string, string>, o: string): Option<string> {
    var best := BestFor(items, categories, o);
    if best.Some? then Some(best.value.category) else None
  }

  lemma {:induction false} BestIsTop(items: seq<Item>, categories: map<string, string>, o: string)
    requires BestFor(items, categories, o).Some?
    ensures Top(items, categories, o, BestFor(items, categories, o).value)
  {
    var n := BestIsFirstTop(items, categories, o);
  }

  /** Candidates, and so tops, do not depend on the order of the items. */
  lemma {:induction false} TopOfReordering(items: seq<Item>, others: seq<Item>, categories: map<string, string>,
                                           o: string, c: Candidate)
    requires multiset(items) == multiset(others)
    ensures Top(items, categories, o, c) ==> Top(others, categories, o, c)
  {
    forall m, q | CandidateAt(others, categories, o, m, q)
      ensures exists n :: CandidateAt(items, categories, o, n, q)
    {
      assert others[m] in multiset(others) && others[m] in items;
      var n :| 0 <= n < |items| && items[n] == others[m];
      assert CandidateAt(items, categories, o, n, q);
    }
    if n :| CandidateAt(items, categories, o, n, c) {
      assert items[n] in multiset(items) && items[n] in others;
      var m :| 0 <= m < |others| && others[m] == items[n];
      assert CandidateAt(others, categories, o, m, c);
    }
  }

  ghost predicate OrderIndependent(items: seq<Item>, categories: map<string, string>, o: string) {
    forall others {:trigger CategoryFor(others, categories, o)} ::
      multiset(others) == multiset(items) ==> CategoryFor(others, categories, o) == CategoryFor(items, categories, o)
  }

  /** The category of an order is the same for every order of the input items exactly when its
      top candidates agree; distinct item ids are enough. */
  lemma {:induction false} CategoryIsOrderIndependentIff(items: seq<Item>, categories: map<string, string>, o: string)
    ensures OrderIndependent(items, categories, o) <==> TopAgrees(items, categories, o)
  {
    if TopAgrees(items, categories, o) {
      forall others | multiset(others) == multiset(items)
        ensures CategoryFor(others, categories, o) == CategoryFor(items, categories, o)
      {
        ReorderedCategory(items, others, categories, o);
      }
    }
    if OrderIndependent(items, categories, o) {
      forall c | Top(items, categories, o, c)
        ensures Some(c.category) == CategoryFor(items, categories, o)
      {
        var others := TopFirst(items, categories, o, c);
        assert CategoryFor(others, categories, o) == Some(c.category);
      }
    }
  }

  lemma {:induction false} ReorderedCategory(items: seq<Item>, others: seq<Item>, categories: map<string, string>,
                                             o: string)
    requires TopAgrees(items, categories, o) && multiset(others) == multiset(items)
    ensures CategoryFor(others, categories, o) == CategoryFor(items, categories, o)
  {
    var n := BestIsFirstTop(items, categories, o);
    var m := BestIsFirstTop(others, categories, o);
    if BestFor(items, categories, o).Some? {
      BestIsTop(items, categories, o);
      TopOfReordering(items, others, categories, o, BestFor(items, categories, o).value);
    }
    if BestFor(others, categories, o).Some? {
      BestIsTop(others, categories, o);
      TopOfReordering(others, items, categories, o, BestFor(others, categories, o).value);
    }
  }

  /** Putting the item of a top candidate first makes the loop choose it. */
  lemma {:induction false} TopFirst(items: seq<Item>, categories: map<string, string>, o: string, c: Candidate)
    returns (others: seq<Item>)
    requires Top(items, categories, o, c)
    ensures multiset(others) == multiset(items)
    ensures BestFor(others, categories, o) == Some(c)
  {
    var n :| CandidateAt(items, categories, o, n, c);
    others := [items[n]] + items[..n] + items[n+1..];
    assert items == items[..n] + [items[n]] + items[n+1..];
    TopOfReordering(items, others, categories, o, c);
    assert CandidateAt(others, categories, o, 0, c);
    var m := BestIsFirstTop(others, categories, o);
    var best := BestFor(others, categories, o).value;
    assert !Leads(best, c);
  }

  // ----- The plan --------------------------------------------------------------------------------

  datatype ProductRow = ProductRow(productId: string, category: string)

  function ProductRows(products: seq<Product>): seq<ProductRow> {
    if products == [] then []
    else
      var p := products[|products|-1];
      ProductRows(products[..|products|-1])
      + if p.productId.Some? && p.category.Some? then [ProductRow(p.productId.value, p.category.value)] else []
  }

  function Prepared(items: seq<Item>): seq<Item> {
    if items == [] then []
    else
      var i := items[|items|-1];
      Prepared(items[..|items|-1]) + if i.orderRef.Some? && i.orderRef.value != "" && i.productId.Some? then [i] else []
  }

  function OnProduct(): (Item, ProductRow) -> bool { (i: Item, p: ProductRow) => i.productId == Some(p.productId) }

  function PlanAmount(i: Item): int {
    (if i.price.Some? then i.price.value else 0) * (if i.quantity.Some? then i.quantity.value else 1)
  }

  function PlanCandidate(): ((Item, ProductRow)) -> Candidate {
    (j: (Item, ProductRow)) =>
      Candidate(if j.0.orderRef.Some? then j.0.orderRef.value else "",
                j.1.productId, j.1.category, PlanAmount(j.0), j.0.itemId)
  }

  function PlanCandidates(joined: seq<(Item, ProductRow)>): seq<Candidate> {
    seq(|joined|, i requires 0 <= i < |joined| => PlanCandidate()(joined[i]))
  }

  /** Amount descending, null item ids last, item id, product id, category ascending. */
  predicate RanksBefore(a: Candidate, b: Candidate) {
    || a.amount > b.amount
    || (a.amount == b.amount && a.itemId.Some? && b.itemId.None?)
    || (a.amount == b.amount && a.itemId.Some? && b.itemId.Some? && a.itemId.value < b.itemId.value)
    || (a.amount == b.amount && a.itemId == b.itemId && StringLess(a.productId, b.productId))
    || (a.amount == b.amount && a.itemId == b.itemId && a.productId == b.productId
        && StringLess(a.category, b.category))
  }

  function OrderOf(): Candidate -> string { (c: Candidate) => c.orderRef }
  function Ranking(): (Candidate, Candidate) -> bool { (a: Candidate, b: Candidate) => RanksBefore(a, b) }

  /** Any table of first-ranked rows the plan may produce. */
  ghost predicate RankedFirst(items: seq<Item>, products: seq<Product>, out: seq<Candidate>) {
    RowNumberOne(PlanCandidates(JoinedItems(items, products)), OrderOf(), Ranking(), out)
  }

  predicate OneCategoryPerProduct(products: seq<Product>) {
    forall i, j | 0 <= i < |products| && 0 <= j < |products| && products[i].productId == products[j].productId
                  && products[i].productId.Some? && products[i].category.Some? && products[j].category.Some? ::
      products[i].category == products[j].category
  }

  /** The loop counts a zero quantity as one piece, the plan as none. */
  predicate SameAmount(i: Item) {
    i.quantity != Some(0) || i.price.None? || i.price == Some(0)
  }

  /** An item has one amount in both forms exactly when its quantity is not zero or it has no price. */
  lemma {:induction false} AmountsAgreeIff(i: Item)
    ensures LoopAmount(i) == PlanAmount(i) <==> SameAmount(i)
  {
  }

  predicate SameAmounts(items: seq<Item>) {
    forall i | 0 <= i < |items| :: SameAmount(items[i])
  }

  lemma {:induction false} ProductRowsAre(products: seq<Product>, p: ProductRow)
    requires OneCategoryPerProduct(products)
    ensures p in ProductRows(products)
            <==> p.productId in ProductCategories(products) && ProductCategories(products)[p.productId] == p.category
    ensures p in ProductRows(products)
            <==> exists i :: 0 <= i < |products| && products[i] == Product(Some(p.productId), Some(p.category))
  {
    if products != [] {
      var front, n := products[..|products|-1], |products| - 1;
      assert forall i | 0 <= i < |front| :: front[i] == products[i];
      ProductRowsAre(front, p);
      if products[n].productId == Some(p.productId) && products[n].category.Some? {
        if p in ProductRows(front) {
          var i :| 0 <= i < |front| && front[i] == Product(Some(p.productId), Some(p.category));
          assert products[i] == Product(Some(p.productId), Some(p.category));
          assert products[n].category == products[i].category;
        }
      }
    }
  }

  lemma {:induction false} PreparedAre(items: seq<Item>, i: Item)
    ensures i in Prepared(items) <==> i in items && Truthy(i.orderRef) && i.productId.Some?
  {
    if items != [] {
      PreparedAre(items[..|items|-1], i);
      assert items == items[..|items|-1] + [items[|items|-1]];
    }
  }

  lemma {:induction false} InnerJoinHas<X, Y>(xs: seq<X>, ys: seq<Y>, on: (X, Y) -> bool, x: X, y: Y)
    ensures (x, y) in InnerJoin(xs, ys, on) <==> x in xs && y in ys && on(x, y)
  {
    if xs != [] {
      var front, last := xs[..|xs|-1], xs[|xs|-1];
      InnerJoinHas(front, ys, on, x, y);
      assert xs == front + [last];
      var row := InnerJoinRow(last, Matches(last, ys, on));
      assert (x, y) in row <==> x == last && y in Matches(last, ys, on) by {
        if x == last && y in Matches(last, ys, on) {
          var k :| 0 <= k < |Matches(last, ys, on)| && Matches(last, ys, on)[k] == y;
          assert row[k] == (x, y);
        }
      }
    }
  }

  function JoinedItems(items: seq<Item>, products: seq<Product>): seq<(Item, ProductRow)> {
    InnerJoin(Prepared(items), ProductRows(products), OnProduct())
  }

  lemma {:induction false} JoinedRowIsCandidate(items: seq<Item>, products: seq<Product>, j: (Item, ProductRow))
    returns (n: int)
    requires OneCategoryPerProduct(products) && SameAmounts(items) && j in JoinedItems(items, products)
    ensures CandidateAt(items, ProductCategories(products), PlanCandidate()(j).orderRef, n, PlanCandidate()(j))
  {
    InnerJoinHas(Prepared(items), ProductRows(products), OnProduct(), j.0, j.1);
    PreparedAre(items, j.0);
    ProductRowsAre(products, j.1);
    n :| 0 <= n < |items| && items[n] == j.0;
    AmountsAgreeIff(items[n]);
  }

  lemma {:induction false} CandidateIsJoinedRow(items: seq<Item>, products: seq<Product>, o: string, n: int,
                                                c: Candidate)
    requires OneCategoryPerProduct(products) && SameAmounts(items)
    requires CandidateAt(items, ProductCategories(products), o, n, c)
    ensures (items[n], ProductRow(c.productId, c.category)) in JoinedItems(items, products)
    ensures PlanCandidate()((items[n], ProductRow(c.productId, c.category))) == c
  {
    var p := ProductRow(c.productId, c.category);
    AmountsAgreeIff(items[n]);
    ProductRowsAre(products, p);
    PreparedAre(items, items[n]);
    InnerJoinHas(Prepared(items), ProductRows(products), OnProduct(), items[n], p);
  }

  ghost predicate IsCandidate(items: seq<Item>, categories: map<string, string>, c: Candidate) {
    exists n :: CandidateAt(items, categories, c.orderRef, n, c)
  }

  /** The plan ranks exactly the loop's candidates. */
  lemma {:induction false} PlanCandidatesAreLoopCandidates(items: seq<Item>, products: seq<Product>, c: Candidate)
    requires OneCategoryPerProduct(products) && SameAmounts(items)
    ensures c in PlanCandidates(JoinedItems(items, products)) <==> IsCandidate(items, ProductCategories(products), c)
  {
    var joined := JoinedItems(items, products);
    var all := PlanCandidates(joined);
    if c in all {
      var k :| 0 <= k < |all| && all[k] == c;
      assert joined[k] in joined && PlanCandidate()(joined[k]) == c;
      var n := JoinedRowIsCandidate(items, products, joined[k]);
      assert CandidateAt(items, ProductCategories(products), c.orderRef, n, c);
    }
    if IsCandidate(items, ProductCategories(products), c) {
      var n :| CandidateAt(items, ProductCategories(products), c.orderRef, n, c);
      CandidateIsJoinedRow(items, products, c.orderRef, n, c);
      var k :| 0 <= k < |joined| && joined[k] == (items[n], ProductRow(c.productId, c.category));
      assert all[k] == c;
    }
  }

  /** A first-ranked row is a top candidate of its order. */
  lemma {:induction false} RankedRowIsTop(items: seq<Item>, products: seq<Product>, out: seq<Candidate>, c: Candidate)
    requires OneCategoryPerProduct(products) && SameAmounts(items) && RankedFirst(items, products, out) && c in out
    ensures Top(items, ProductCategories(products), c.orderRef, c)
  {
    PlanCandidatesAreLoopCandidates(items, products, c);
    forall m, q | CandidateAt(items, ProductCategories(products), c.orderRef, m, q)
      ensures !Leads(q, c)
    {
      PlanCandidatesAreLoopCandidates(items, products, q);
      assert OrderOf()(q) == OrderOf()(c);
      assert !Ranking()(q, c);
    }
  }

  lemma {:induction false} EveryCandidateOrderIsRanked(items: seq<Item>, products: seq<Product>, out: seq<Candidate>,
                                                       n: int, c: Candidate)
    requires OneCategoryPerProduct(products) && SameAmounts(items) && RankedFirst(items, products, out)
    requires CandidateAt(items, ProductCategories(products), c.orderRef, n, c)
    ensures HasKey(out, OrderOf(), c.orderRef)
  {
    PlanCandidatesAreLoopCandidates(items, products, c);
    assert IsCandidate(items, ProductCategories(products), c);
    assert HasKey(out, OrderOf(), OrderOf()(c));
  }

  /** Refinement: where the top candidates of each order agree (as with distinct item ids), the
      plan's first-ranked rows give every order the loop's category, and give no other order one. */
  lemma {:induction false} RankedCategoriesAreLoopCategories(items: seq<Item>, products: seq<Product>,
                                                             out: seq<Candidate>, o: string)
    requires OneCategoryPerProduct(products) && SameAmounts(items) && RankedFirst(items, products, out)
    requires TopAgrees(items, ProductCategories(products), o)
    ensures forall c | c in out && c.orderRef == o ::
            CategoryFor(items, ProductCategories(products), o) == Some(c.category)
    ensures HasKey(out, OrderOf(), o) <==> CategoryFor(items, ProductCategories(products), o).Some?
  {
    var categories := ProductCategories(products);
    var n := BestIsFirstTop(items, categories, o);
    forall c | c in out && c.orderRef == o
      ensures CategoryFor(items, categories, o) == Some(c.category)
    {
      RankedRowIsTop(items, products, out, c);
      var m :| CandidateAt(items, categories, o, m, c);
      BestIsTop(items, categories, o);
    }
    if HasKey(out, OrderOf(), o) {
      var c :| c in out && OrderOf()(c) == o;
    }
    if BestFor(items, categories, o).Some? {
      EveryCandidateOrderIsRanked(items, products, out, n, BestFor(items, categories, o).value);
    }
  }

  lemma {:induction false} RankingIsStrict()
    ensures StrictOrder(Ranking())
  {
    forall a: Candidate
      ensures !RanksBefore(a, a)
    {
      TextOrderIsTotal(a.productId, a.productId);
      TextOrderIsTotal(a.category, a.category);
    }
    forall a: Candidate, b: Candidate, c: Candidate | RanksBefore(a, b) && RanksBefore(b, c)
      ensures RanksBefore(a, c)
    {
      if StringLess(a.productId, b.productId) && StringLess(b.productId, c.productId) {
        TextOrderIsTransitive(a.productId, b.productId, c.productId);
      }
      if StringLess(a.category, b.category) && StringLess(b.category, c.category) {
        TextOrderIsTransitive(a.category, b.category, c.category);
      }
    }
  }

  /** The ranking always has a first row for every order that has a candidate. */
  lemma {:induction false} RankedFirstExists(items: seq<Item>, products: seq<Product>) returns (out: seq<Candidate>)
    ensures RankedFirst(items, products, out)
  {
    RankingIsStrict();
    out := RowNumberOneExists(PlanCandidates(JoinedItems(items, products)), OrderOf(), Ranking());
  }

  /** The plan's category of an order does not depend on the engine, ties of item ids included. */
  lemma {:induction false} PlanCategoryIsDetermined(items: seq<Item>, products: seq<Product>, out: seq<Candidate>,
                                                    other: seq<Candidate>, c: Candidate, d: Candidate)
    requires RankedFirst(items, products, out) && RankedFirst(items, products, other)
    requires c in out && d in other && c.orderRef == d.orderRef
    ensures c == d
  {
    assert !RanksBefore(c, d) && !RanksBefore(d, c);
    TextOrderIsTotal(c.productId, d.productId);
    TextOrderIsTotal(c.category, d.category);
  }

  /** The row that ranks first: no candidate of its order has a larger amount; among equal amounts none has a
      smaller item id, a missing one being last; then product and category decide in text order. */
  lemma {:induction false} FirstRankedIs(items: seq<Item>, products: seq<Product>, out: seq<Candidate>, c: Candidate,
                                         q: Candidate)
    requires RankedFirst(items, products, out) && c in out
    requires q in PlanCandidates(JoinedItems(items, products)) && q.orderRef == c.orderRef
    ensures q.amount <= c.amount
    ensures q.amount == c.amount && q.itemId.Some? ==> c.itemId.Some? && c.itemId.value <= q.itemId.value
    ensures q.amount == c.amount && q.itemId == c.itemId ==> !StringLess(q.productId, c.productId)
    ensures q.amount == c.amount && q.itemId == c.itemId && q.productId == c.productId ==>
              !StringLess(q.category, c.category)
  {
    assert !RanksBefore(q, c);
  }

  // ----- The fact table ------------------------------------------------------------------------------

  datatype OrderEvent = OrderEvent(orderRef: Option<string>, orderSource: Option<string>, userId: Option<string>,
                                   eventDateKst: Option<int>, eventTime: Option<int>, amount: Option<int>)

  datatype Fact = Fact(dateKst: int, userKey: string, amount: Option<int>, category: Option<string>)

  function EventDate(e: OrderEvent): Option<int> {
    if e.eventDateKst.Some? then e.eventDateKst
    else if e.eventTime.Some? then Some(DateKst(e.eventTime.value))
    else None
  }

  /** Whether an event becomes a fact; an absent or empty filter lets every source through. */
  predicate Selected(e: OrderEvent, source: Option<string>) {
    (Truthy(source) ==> e.orderSource == source) && Truthy(e.orderRef) && Truthy(e.userId) && EventDate(e).Some?
  }

  function FactOf(e: OrderEvent, userKey: string -> string, category: Option<string>): Fact
    requires e.userId.Some? && EventDate(e).Some?
  {
    Fact(EventDate(e).value, userKey(e.userId.value), e.amount, category)
  }

  /** One fact per selected event, in order, with the category of its order. */
  function Facts(events: seq<OrderEvent>, source: Option<string>, userKey: string -> string, items: seq<Item>,
                 products: seq<Product>): seq<Fact> {
    if events == [] then []
    else
      var e := events[|events|-1];
      Facts(events[..|events|-1], source, userKey, items, products)
      + if Selected(e, source)
        then [FactOf(e, userKey, CategoryFor(items, ProductCategories(products), e.orderRef.value))]
        else []
  }

  method BuildFacts(events: seq<OrderEvent>, items: seq<Item>, products: seq<Product>, source: Option<string>,
                    userKey: string -> string)
    returns (rows: seq<Fact>)
    ensures rows == Facts(events, source, userKey, items, products)
  {
    var productCategories: map<string, string> := map[];
    for i := 0 to |products|
      invariant productCategories == ProductCategories(products[..i])
    {
      assert products[..i+1][..i] == products[..i];
      if products[i].productId.None? || products[i].category.None? {
        continue;
      }
      productCategories := productCategories[products[i].productId.value := products[i].category.value];
    }
    assert products[..|products|] == products;
    var byOrder := SelectCategories(items, productCategories);
    assert forall o :: (if o in byOrder then Some(byOrder[o]) else None) == CategoryFor(items, productCategories, o);
    rows := [];
    for i := 0 to |events|
      invariant rows == Facts(events[..i], source, userKey, items, products)
    {
      assert events[..i+1][..i] == events[..i];
      var e := events[i];
      if Truthy(source) && e.orderSource != source {
        continue;
      }
      if !Truthy(e.orderRef) || !Truthy(e.userId) {
        continue;
      }
      var eventDate := e.eventDateKst;
      if eventDate.None? && e.eventTime.Some? {
        eventDate := Some(DateKst(e.eventTime.value));
      }
      if eventDate.None? {
        continue;
      }
      var category := if e.orderRef.value in byOrder then Some(byOrder[e.orderRef.value]) else None;
      rows := rows + [Fact(eventDate.value, userKey(e.userId.value), e.amount, category)];
    }
    assert events[..|events|] == events;
  }

  /** The plan's filters, in its own order: source, non-empty order and user, a date. */
  predicate PlanSelected(e: OrderEvent, source: Option<string>) {
    && (source == None || source == Some("") || (e.orderSource.Some? && e.orderSource.value == source.value))
    && e.orderRef.Some? && e.orderRef.value != "" && e.userId.Some? && e.userId.value != ""
    && (e.eventDateKst.Some? || e.eventTime.Some?)
  }

  function SelectedEvents(source: Option<string>): OrderEvent -> bool { (e: OrderEvent) => PlanSelected(e, source) }

  lemma {:induction false} SelectionsAgree(e: OrderEvent, source: Option<string>)
    ensures Selected(e, source) <==> PlanSelected(e, source)
  {
  }

  function OnOrder(): (OrderEvent, Candidate) -> bool {
    (e: OrderEvent, c: Candidate) => e.orderRef == Some(c.orderRef)
  }

  function JoinedCategory(j: (OrderEvent, Option<Candidate>)): Option<string> {
    if j.1.Some? then Some(j.1.value.category) else None
  }

  /** One fact per joined row. */
  function FactPlan(joined: seq<(OrderEvent, Option<Candidate>)>, userKey: string -> string): seq<Fact>
    requires forall j | j in joined :: j.0.userId.Some? && EventDate(j.0).Some?
  {
    seq(|joined|, i requires 0 <= i < |joined| =>
      FactOf(joined[i].0, userKey, JoinedCategory(joined[i])))
  }

  lemma {:induction false} FactsStep(events: seq<OrderEvent>, e: OrderEvent, source: Option<string>,
                                     userKey: string -> string, items: seq<Item>, products: seq<Product>)
    ensures Facts(events + [e], source, userKey, items, products)
            == Facts(events, source, userKey, items, products)
               + if Selected(e, source)
                 then [FactOf(e, userKey, CategoryFor(items, ProductCategories(products), e.orderRef.value))]
                 else []
  {
    assert (events + [e])[..|events|] == events;
  }

  lemma {:induction false} FactsOfSelected(events: seq<OrderEvent>, source: Option<string>, userKey: string -> string,
                                           items: seq<Item>, products: seq<Product>)
    ensures |Facts(events, source, userKey, items, products)| == |Filter(events, SelectedEvents(source))|
    ensures forall i | 0 <= i < |Filter(events, SelectedEvents(source))| ::
              var e := Filter(events, SelectedEvents(source))[i];
              e in Filter(events, SelectedEvents(source)) && Selected(e, source)
              && Facts(events, source, userKey, items, products)[i]
                  == FactOf(e, userKey, CategoryFor(items, ProductCategories(products), e.orderRef.value))
  {
    if events != [] {
      var front, last := events[..|events|-1], events[|events|-1];
      assert events == front + [last];
      FactsOfSelected(front, source, userKey, items, products);
      SelectionsAgree(last, source);
      FilterStep(front, last, SelectedEvents(source));
      FactsStep(front, last, source, userKey, items, products);
    }
  }

  /** The join with the category table neither drops nor repeats an event, and the facts of the
      two forms are the same rows, listed here in the order of the events. */
  lemma {:induction false} FactPlanRefinesLoop(events: seq<OrderEvent>, items: seq<Item>, products: seq<Product>,
                                               out: seq<Candidate>, source: Option<string>, userKey: string -> string)
    requires OneCategoryPerProduct(products) && SameAmounts(items) && RankedFirst(items, products, out)
    requires forall o :: TopAgrees(items, ProductCategories(products), o)
    ensures var joined := LeftJoin(Filter(events, SelectedEvents(source)), out, OnOrder());
            && (forall j | j in joined :: j.0.userId.Some? && EventDate(j.0).Some?)
            && FactPlan(joined, userKey) == Facts(events, source, userKey, items, products)
  {
    var selected := Filter(events, SelectedEvents(source));
    var joined := LeftJoin(selected, out, OnOrder());
    FactsOfSelected(events, source, userKey, items, products);
    forall i | 0 <= i < |selected|
      ensures Unambiguous(selected[i], out, OnOrder())
    {
      forall a, b | 0 <= a < b < |out|
        ensures !(OnOrder()(selected[i], out[a]) && OnOrder()(selected[i], out[b]))
      {
        assert OrderOf()(out[a]) != OrderOf()(out[b]);
      }
    }
    LeftJoinKeepsCountIff(selected, out, OnOrder());
    forall i | 0 <= i < |joined|
      ensures joined[i].0 == selected[i] && selected[i].orderRef.Some?
      ensures JoinedCategory(joined[i]) == CategoryFor(items, ProductCategories(products), selected[i].orderRef.value)
    {
      LeftJoinIsLookup(selected, out, OnOrder(), i);
      assert Selected(selected[i], source);
      RankedCategoriesAreLoopCategories(items, products, out, selected[i].orderRef.value);
      PartnerExistsIff(selected[i], out);
    }
  }

  lemma {:induction false} PartnerExistsIff(e: OrderEvent, out: seq<Candidate>)
    requires e.orderRef.Some?
    ensures HasKey(out, OrderOf(), e.orderRef.value) <==> HasMatch(e, out, OnOrder())
  {
  }
}
