/**
 * The sales ledger: sale records, the per-buyer statistics derived from them,
 * and `SalesManager`, which owns both collections, rebuilds the statistics after
 * every change to the records and empties them when the ledger is cleared; an
 * update with no matching id and an import that does not decode change neither.
 */
module Models {
  import opened Wrappers
  import opened Calendars
  import opened Seqs

  /** A sale's identifier (a `UUID` in the app). */
  type SaleId = nat

  /** One recorded sale: who bought, when, how many eggs and for how much. Quantity
      and price are not validated: zero, negative and empty values are stored as given. */
  datatype Sale = Sale(
    id: SaleId,
    buyerName: string,
    date: Date,
    quantity: int,
    price: real,
    notes: Option<string>)
  {
    /** The egg count expressed in dozens, fractions included. */
    function QuantityInDozens(): (r: real)
      ensures r * 12.0 == quantity as real
    {
      quantity as real / 12.0
    }

    /** The price paid per dozen; 0 for a sale of no (or a negative number of) eggs. */
    function PricePerDozen(): (r: real)
      ensures quantity <= 0 ==> r == 0.0
      ensures quantity > 0 ==> r * QuantityInDozens() == price
    {
      if quantity <= 0 then 0.0 else price / QuantityInDozens()
    }
  }

  /** Per-buyer totals, derived from the sales carrying that buyer's name. */
  datatype Buyer = Buyer(name: string, totalEggsPurchased: int, totalPaid: real)
  {
    function TotalDozensPurchased(): (r: real)
      ensures r * 12.0 == totalEggsPurchased as real
    {
      totalEggsPurchased as real / 12.0
    }
  }

  // Field accessors, passed to the sequence folds and sorts.
  function Price(s: Sale): real { s.price }
  function Quantity(s: Sale): int { s.quantity }
  function Dozens(s: Sale): real { s.QuantityInDozens() }
  function PerDozen(s: Sale): real { s.PricePerDozen() }
  function SaleDate(s: Sale): real { s.date as real }
  function Paid(b: Buyer): real { b.totalPaid }
  function Eggs(b: Buyer): int { b.totalEggsPurchased }
  function Name(b: Buyer): string { b.name }

  /** Sum of the prices (`reduce(0) { $0 + $1.price }`). */
  function TotalPrice(sales: seq<Sale>): real { SumReal(sales, Price) }

  /** Sum of the egg counts (`reduce(0) { $0 + $1.quantity }`). */
  function TotalQuantity(sales: seq<Sale>): int { SumInt(sales, Quantity) }

  /** Sum of the dozens (`reduce(0.0) { $0 + $1.quantityInDozens }`). */
  function TotalDozens(sales: seq<Sale>): real { SumReal(sales, Dozens) }

  /** Summing dozens sale by sale gives the summed egg count divided by twelve. */
  lemma {:induction false} TotalDozensIsEggsOverTwelve(sales: seq<Sale>)
    ensures TotalDozens(sales) * 12.0 == TotalQuantity(sales) as real
    decreases |sales|
  {
    if sales != [] {
      TotalDozensIsEggsOverTwelve(sales[..|sales| - 1]);
      assert Dozens(sales[|sales| - 1]) * 12.0 == Quantity(sales[|sales| - 1]) as real;
    }
  }

  /** Swift's `Int` division by 12, which truncates toward zero: the number of
      complete dozens, with the sign of the egg count. */
  function WholeDozens(eggs: int): (r: int)
    ensures eggs >= 0 ==> 0 <= r && 12 * r <= eggs < 12 * r + 12
    ensures eggs < 0 ==> r <= 0 && 12 * r - 12 < eggs <= 12 * r
  {
    if eggs >= 0 then eggs / 12 else -((-eggs) / 12)
  }

  /** The sales dated at or after `start`, in ledger order (no upper bound). */
  function Since(sales: seq<Sale>, start: Date): (r: seq<Sale>)
    ensures forall x :: x in r <==> x in sales && x.date >= start
  {
    Filter(sales, AtOrAfter(start))
  }

  /** The filter condition `$0.date >= start`. */
  function AtOrAfter(start: Date): Sale -> bool {
    (s: Sale) => s.date >= start
  }

  /** The distinct buyer names occurring in `sales`. */
  function Names(sales: seq<Sale>): set<string> {
    set s | s in sales :: s.buyerName
  }

  /** The names carried by a list of buyers. */
  function BuyerNames(buyers: seq<Buyer>): set<string> {
    set b | b in buyers :: b.name
  }

  /** The sales whose buyer name equals `name` exactly (case-sensitive), in ledger order. */
  function SalesOf(sales: seq<Sale>, name: string): seq<Sale> {
    Filter(sales, BoughtBy(name))
  }

  /** The filter condition `$0.buyerName == name`. */
  function BoughtBy(name: string): Sale -> bool {
    (s: Sale) => s.buyerName == name
  }

  /** The filter condition `isDate($0.date, inSameDayAs: date)`. */
  function OnSameDay(cal: Calendar, date: Date): Sale -> bool {
    (s: Sale) => cal.sameDay(s.date, date)
  }

  /** Filtering by date keeps ledger order: the sales of a concatenation are the sales
      of each part, in turn. */
  lemma SinceKeepsOrder(a: seq<Sale>, b: seq<Sale>, start: Date)
    ensures Since(a + b, start) == Since(a, start) + Since(b, start)
  {
    FilterConcat(a, b, AtOrAfter(start));
  }

  /** A window that every sale precedes is empty, and one that no sale precedes is the
      whole ledger. */
  lemma SinceNoneOrAll(sales: seq<Sale>, start: Date)
    ensures (forall x :: x in sales ==> x.date < start) ==> Since(sales, start) == []
    ensures (forall x :: x in sales ==> x.date >= start) ==> Since(sales, start) == sales
  {
    if forall x :: x in sales ==> x.date < start {
      FilterKeepsNone(sales, AtOrAfter(start));
    }
    if forall x :: x in sales ==> x.date >= start {
      FilterKeepsAll(sales, AtOrAfter(start));
    }
  }

  /** The statistics of one buyer: egg and price sums over that buyer's sales. */
  function BuyerFor(sales: seq<Sale>, name: string): Buyer {
    Buyer(name, TotalQuantity(SalesOf(sales, name)), TotalPrice(SalesOf(sales, name)))
  }

  /** `buyers` is what `updateBuyerStats` derives from `sales`: one entry per distinct
      buyer name and no other, each carrying that name's quantity and price sums,
      ordered by amount paid, largest first (ties in any order). */
  predicate IsBuyerStats(sales: seq<Sale>, buyers: seq<Buyer>) {
    && BuyerNames(buyers) == Names(sales)
    && DistinctBy(buyers, Name)
    && (forall b :: b in buyers ==> b == BuyerFor(sales, b.name))
    && SortedDesc(buyers, Paid)
  }

  lemma NamesAppend(sales: seq<Sale>, x: Sale)
    ensures Names(sales + [x]) == Names(sales) + {x.buyerName}
  {
  }

  /** Appending one sale adds its quantity and price to its buyer's sums and to no other. */
  lemma SalesOfAppend(sales: seq<Sale>, x: Sale, n: string)
    ensures TotalQuantity(SalesOf(sales + [x], n))
      == TotalQuantity(SalesOf(sales, n)) + (if x.buyerName == n then x.quantity else 0)
    ensures TotalPrice(SalesOf(sales + [x], n))
      == TotalPrice(SalesOf(sales, n)) + (if x.buyerName == n then x.price else 0.0)
  {
    assert (sales + [x])[..|sales|] == sales;
    var before := SalesOf(sales, n);
    if x.buyerName == n {
      assert SalesOf(sales + [x], n) == before + [x];
      assert (before + [x])[..|before|] == before;
    } else {
      assert SalesOf(sales + [x], n) == before;
    }
  }

  /** A name with no sales has zero sums. */
  lemma SalesOfAbsent(sales: seq<Sale>, name: string)
    requires name !in Names(sales)
    ensures SalesOf(sales, name) == []
    ensures TotalQuantity(SalesOf(sales, name)) == 0 && TotalPrice(SalesOf(sales, name)) == 0.0
  {
    FilterKeepsNone(sales, BoughtBy(name));
  }

  /** The dictionary `updateBuyerStats` accumulates holds, for each name seen in `prefix`,
      that name's egg and price sums over `prefix`. */
  predicate StatsSoFar(prefix: seq<Sale>, stats: map<string, (int, real)>) {
    stats.Keys == Names(prefix) && SumsSoFar(prefix, stats)
  }

  predicate SumsSoFar(prefix: seq<Sale>, stats: map<string, (int, real)>) {
    forall n :: n in stats ==>
      stats[n] == (TotalQuantity(SalesOf(prefix, n)), TotalPrice(SalesOf(prefix, n)))
  }

  /** The dictionary the accumulation loop of `updateBuyerStats` builds over `records`:
      each sale adds its quantity and price to its buyer's entry, starting from zeros. */
  function StatsOf(records: seq<Sale>): map<string, (int, real)>
    decreases |records|
  {
    if records == [] then map[]
    else Accumulate(StatsOf(records[..|records| - 1]), records[|records| - 1])
  }

  /** One iteration of that loop: `x`'s quantity and price added to its buyer's entry
      (`buyerStats[name] ?? (0, 0.0)`). */
  function Accumulate(stats: map<string, (int, real)>, x: Sale): map<string, (int, real)> {
    var current := if x.buyerName in stats then stats[x.buyerName] else (0, 0.0);
    stats[x.buyerName := (current.0 + x.quantity, current.1 + x.price)]
  }

  /** The accumulated dictionary holds, for every name in the ledger and no other, that
      name's egg and price sums. */
  lemma {:induction false} StatsOfCorrect(records: seq<Sale>)
    ensures StatsSoFar(records, StatsOf(records))
    decreases |records|
  {
    if records != [] {
      var init, x := records[..|records| - 1], records[|records| - 1];
      var stats := StatsOf(init);
      StatsOfCorrect(init);
      StatsStep(init, x, stats);
      SplitLast(records);
    }
  }

  /** One iteration of the accumulation loop, for the sale `x` after `prefix`, keeps `StatsSoFar`. */
  lemma StatsStep(prefix: seq<Sale>, x: Sale, stats: map<string, (int, real)>)
    requires StatsSoFar(prefix, stats)
    ensures StatsSoFar(prefix + [x], Accumulate(stats, x))
  {
    var current := if x.buyerName in stats then stats[x.buyerName] else (0, 0.0);
    var next := stats[x.buyerName := (current.0 + x.quantity, current.1 + x.price)];
    assert Accumulate(stats, x) == next;
    NamesAppend(prefix, x);
    assert next.Keys == Names(prefix + [x]);
    SumsStep(prefix, x, stats, current, next);
  }

  /** The sums part of `StatsStep`: `current` is the entry read (or zeros), `next` the
      dictionary written. */
  lemma SumsStep(prefix: seq<Sale>, x: Sale, stats: map<string, (int, real)>,
                 current: (int, real), next: map<string, (int, real)>)
    requires SumsSoFar(prefix, stats)
    requires x.buyerName !in stats ==> x.buyerName !in Names(prefix)
    requires current == if x.buyerName in stats then stats[x.buyerName] else (0, 0.0)
    requires next == stats[x.buyerName := (current.0 + x.quantity, current.1 + x.price)]
    ensures SumsSoFar(prefix + [x], next)
  {
    if x.buyerName !in stats {
      SalesOfAbsent(prefix, x.buyerName);
    }
    forall n | n in next
      ensures next[n] == (TotalQuantity(SalesOf(prefix + [x], n)), TotalPrice(SalesOf(prefix + [x], n)))
    {
      SalesOfAppend(prefix, x, n);
    }
  }

  /** The buyers listed so far from the accumulated dictionary: one per name already
      taken out of `pending`, each with that name's sums. */
  predicate ListedSoFar(sales: seq<Sale>, stats: map<string, (int, real)>, listed: seq<Buyer>, pending: set<string>) {
    && SumsSoFar(sales, stats)
    && pending <= stats.Keys
    && BuyerNames(listed) == stats.Keys - pending
    && DistinctBy(listed, Name)
    && forall b :: b in listed ==> b == BuyerFor(sales, b.name)
  }

  /** Listing one more dictionary entry keeps `ListedSoFar`. */
  lemma ListStep(sales: seq<Sale>, stats: map<string, (int, real)>, listed: seq<Buyer>, pending: set<string>, name: string)
    requires ListedSoFar(sales, stats, listed, pending) && name in pending
    ensures ListedSoFar(sales, stats, listed + [Buyer(name, stats[name].0, stats[name].1)], pending - {name})
  {
    var b := Buyer(name, stats[name].0, stats[name].1);
    var next := listed + [b];
    assert BuyerNames(next) == BuyerNames(listed) + {name};
    assert forall c :: c in listed ==> c.name != name;
    assert DistinctBy(next, Name);
    assert forall c :: c in next ==> c == BuyerFor(sales, c.name);
  }

  /** Sorting a correct but unordered list of buyer statistics yields the statistics. */
  lemma SortedStatsAreStats(sales: seq<Sale>, unordered: seq<Buyer>, buyers: seq<Buyer>)
    requires BuyerNames(unordered) == Names(sales)
    requires DistinctBy(unordered, Name)
    requires forall b :: b in unordered ==> b == BuyerFor(sales, b.name)
    requires multiset(buyers) == multiset(unordered) && SortedDesc(buyers, Paid)
    ensures IsBuyerStats(sales, buyers)
  {
    DistinctByPermutation(unordered, buyers, Name);
    assert forall b :: b in buyers <==> b in unordered by {
      forall b ensures b in buyers <==> b in unordered {
        assert b in buyers <==> b in multiset(buyers);
      }
    }
    assert BuyerNames(buyers) == BuyerNames(unordered);
  }

  /** Taking the last buyer off a distinctly named list leaves a distinctly named list
      that does not contain its name. */
  lemma DistinctLast(buyers: seq<Buyer>)
    requires buyers != [] && DistinctBy(buyers, Name)
    ensures DistinctBy(buyers[..|buyers| - 1], Name)
    ensures buyers[|buyers| - 1].name !in BuyerNames(buyers[..|buyers| - 1])
    ensures BuyerNames(buyers) == BuyerNames(buyers[..|buyers| - 1]) + {buyers[|buyers| - 1].name}
  {
    var init, last := buyers[..|buyers| - 1], buyers[|buyers| - 1];
    SplitLast(buyers);
    forall b | b in init ensures b.name != last.name {
      var k :| 0 <= k < |init| && init[k] == b;
      assert buyers[k] == b;
    }
  }

  /** A list of buyers with distinct names has as many names as entries. */
  lemma {:induction false} DistinctNamesCount(buyers: seq<Buyer>)
    requires DistinctBy(buyers, Name)
    ensures |BuyerNames(buyers)| == |buyers|
    decreases |buyers|
  {
    if buyers != [] {
      DistinctLast(buyers);
      DistinctNamesCount(buyers[..|buyers| - 1]);
    }
  }

  /** The statistics hold exactly one buyer per distinct name in the ledger, and are
      empty exactly when the ledger is. */
  lemma OneBuyerPerName(sales: seq<Sale>, buyers: seq<Buyer>)
    requires IsBuyerStats(sales, buyers)
    ensures |buyers| == |Names(sales)|
    ensures forall i, j :: 0 <= i < j < |buyers| ==> buyers[i].name != buyers[j].name
    ensures buyers == [] <==> sales == []
  {
    DistinctNamesCount(buyers);
    if sales != [] {
      assert sales[0].buyerName in Names(sales);
    }
  }

  /** The statistics are determined by the ledger: two lists that both satisfy
      `IsBuyerStats` hold the same buyers and differ at most in the order of ties. */
  lemma BuyerStatsUnique(sales: seq<Sale>, b1: seq<Buyer>, b2: seq<Buyer>)
    requires IsBuyerStats(sales, b1) && IsBuyerStats(sales, b2)
    ensures |b1| == |b2|
    ensures forall b :: b in b1 <==> b in b2
  {
    OneBuyerPerName(sales, b1);
    OneBuyerPerName(sales, b2);
    forall b | b in b1 ensures b in b2 {
      assert b.name in BuyerNames(b2);
      var c :| c in b2 && c.name == b.name;
    }
    forall b | b in b2 ensures b in b1 {
      assert b.name in BuyerNames(b1);
      var c :| c in b1 && c.name == b.name;
    }
  }

  /** The sales whose buyer is one of `names`. */
  function SalesIn(sales: seq<Sale>, names: set<string>): seq<Sale> {
    Filter(sales, (s: Sale) => s.buyerName in names)
  }

  /** The last sale of a ledger is in the sums of a selection exactly when its buyer is selected. */
  lemma SalesInLast(sales: seq<Sale>, names: set<string>)
    requires sales != []
    ensures TotalQuantity(SalesIn(sales, names)) == TotalQuantity(SalesIn(sales[..|sales| - 1], names))
      + (if sales[|sales| - 1].buyerName in names then sales[|sales| - 1].quantity else 0)
    ensures TotalPrice(SalesIn(sales, names)) == TotalPrice(SalesIn(sales[..|sales| - 1], names))
      + (if sales[|sales| - 1].buyerName in names then sales[|sales| - 1].price else 0.0)
  {
    var x := sales[|sales| - 1];
    var before := SalesIn(sales[..|sales| - 1], names);
    if x.buyerName in names {
      assert SalesIn(sales, names) == before + [x];
      assert (before + [x])[..|before|] == before;
    } else {
      assert SalesIn(sales, names) == before;
    }
  }

  /** The last sale of a ledger is in its buyer's sums and in no other. */
  lemma SalesOfLast(sales: seq<Sale>, n: string)
    requires sales != []
    ensures TotalQuantity(SalesOf(sales, n)) == TotalQuantity(SalesOf(sales[..|sales| - 1], n))
      + (if sales[|sales| - 1].buyerName == n then sales[|sales| - 1].quantity else 0)
    ensures TotalPrice(SalesOf(sales, n)) == TotalPrice(SalesOf(sales[..|sales| - 1], n))
      + (if sales[|sales| - 1].buyerName == n then sales[|sales| - 1].price else 0.0)
  {
    var x := sales[|sales| - 1];
    var before := SalesOf(sales[..|sales| - 1], n);
    if x.buyerName == n {
      assert SalesOf(sales, n) == before + [x];
      assert (before + [x])[..|before|] == before;
    } else {
      assert SalesOf(sales, n) == before;
    }
  }

  /** Adding one more name to the selection adds exactly that name's sales to the sums. */
  lemma {:induction false} SalesInAddName(sales: seq<Sale>, names: set<string>, n: string)
    requires n !in names
    ensures TotalPrice(SalesIn(sales, names + {n})) == TotalPrice(SalesIn(sales, names)) + TotalPrice(SalesOf(sales, n))
    ensures TotalQuantity(SalesIn(sales, names + {n})) == TotalQuantity(SalesIn(sales, names)) + TotalQuantity(SalesOf(sales, n))
    decreases |sales|
  {
    if sales == [] {
      assert SalesIn(sales, names + {n}) == [] && SalesIn(sales, names) == [] && SalesOf(sales, n) == [];
    } else {
      SalesInAddName(sales[..|sales| - 1], names, n);
      SalesInLast(sales, names + {n});
      SalesInLast(sales, names);
      SalesOfLast(sales, n);
    }
  }

  /** Summing a list of correct, distinctly named buyer entries gives the sums over
      those buyers' sales. */
  lemma {:induction false} BuyerSums(sales: seq<Sale>, buyers: seq<Buyer>)
    requires DistinctBy(buyers, Name)
    requires forall b :: b in buyers ==> b == BuyerFor(sales, b.name)
    ensures SumReal(buyers, Paid) == TotalPrice(SalesIn(sales, BuyerNames(buyers)))
    ensures SumInt(buyers, Eggs) == TotalQuantity(SalesIn(sales, BuyerNames(buyers)))
    decreases |buyers|
  {
    if buyers == [] {
      FilterKeepsNone(sales, (s: Sale) => s.buyerName in BuyerNames(buyers));
    } else {
      var init, last := buyers[..|buyers| - 1], buyers[|buyers| - 1];
      DistinctLast(buyers);
      assert last in buyers;
      BuyerSums(sales, init);
      SalesInAddName(sales, BuyerNames(init), last.name);
    }
  }

  /** The buyers' totals account for the whole ledger: their amounts paid add up to the
      sum of all prices and their egg counts to the sum of all quantities. */
  lemma BuyersAccountForAllSales(sales: seq<Sale>, buyers: seq<Buyer>)
    requires IsBuyerStats(sales, buyers)
    ensures SumReal(buyers, Paid) == TotalPrice(sales)
    ensures SumInt(buyers, Eggs) == TotalQuantity(sales)
  {
    BuyerSums(sales, buyers);
    FilterKeepsAll(sales, (s: Sale) => s.buyerName in BuyerNames(buyers));
  }

  /** The first position whose sale has identifier `id` (`firstIndex(where:)`). */
  function FirstIndexOf(sales: seq<Sale>, id: SaleId): (r: Option<nat>)
    ensures r.Some? ==> r.value < |sales| && sales[r.value].id == id
    ensures r.Some? ==> forall j :: 0 <= j < r.value ==> sales[j].id != id
    ensures r.None? ==> forall j :: 0 <= j < |sales| ==> sales[j].id != id
    decreases |sales|
  {
    if sales == [] then None
    else if sales[0].id == id then Some(0)
    else match FirstIndexOf(sales[1..], id)
      case None => None
      case Some(k) => Some(k + 1)
  }

  /** The ledger without the sales carrying identifier `id` (`removeAll { $0.id == id }`). */
  function WithoutId(sales: seq<Sale>, id: SaleId): (r: seq<Sale>)
    ensures forall x :: x in r <==> x in sales && x.id != id
    ensures (forall x :: x in sales ==> x.id != id) ==> r == sales
  {
    var keep := (s: Sale) => s.id != id;
    if forall x :: x in sales ==> x.id != id then
      FilterKeepsAll(sales, keep);
      Filter(sales, keep)
    else
      Filter(sales, keep)
  }

  /** The ledger without the sales of buyer `name` (`removeAll { $0.buyerName == name }`). */
  function WithoutBuyer(sales: seq<Sale>, name: string): (r: seq<Sale>)
    ensures forall x :: x in r <==> x in sales && x.buyerName != name
    ensures name !in Names(sales) ==> r == sales
  {
    var keep := (s: Sale) => s.buyerName != name;
    if name !in Names(sales) then
      FilterKeepsAll(sales, keep);
      Filter(sales, keep)
    else
      Filter(sales, keep)
  }

  /** The first loop of `updateBuyerStats`: one pass over the records that adds each
      sale's quantity and price into its buyer's dictionary entry. */
  method AccumulateStats(records: seq<Sale>) returns (buyerStats: map<string, (int, real)>)
    ensures buyerStats == StatsOf(records)
    ensures StatsSoFar(records, buyerStats)
  {
    buyerStats := map[];
    for i := 0 to |records|
      invariant buyerStats == StatsOf(records[..i])
    {
      var sale := records[i];
      var current := if sale.buyerName in buyerStats then buyerStats[sale.buyerName] else (0, 0.0);
      assert records[..i + 1][..i] == records[..i];
      buyerStats := buyerStats[sale.buyerName := (current.0 + sale.quantity, current.1 + sale.price)];
    }
    assert records[..|records|] == records;
    StatsOfCorrect(records);
  }

  /** The dictionary-to-array step of `updateBuyerStats`: one `Buyer` per dictionary
      entry, in the dictionary's (unspecified) order. */
  method ListStats(records: seq<Sale>, buyerStats: map<string, (int, real)>) returns (listed: seq<Buyer>)
    requires SumsSoFar(records, buyerStats)
    ensures ListedSoFar(records, buyerStats, listed, {})
  {
    listed := [];
    var pending := buyerStats.Keys;
    while pending != {}
      invariant ListedSoFar(records, buyerStats, listed, pending)
      decreases pending
    {
      var name :| name in pending;
      ListStep(records, buyerStats, listed, pending, name);
      listed := listed + [Buyer(name, buyerStats[name].0, buyerStats[name].1)];
      pending := pending - {name};
    }
  }

  /** The ledger. `sales` is the record of truth; `buyers` is a cache that each
      mutator changing `sales` rebuilds from it and `ClearAllData` empties. An update
      with no matching id and an import that does not decode change neither field. */
  class SalesManager {
    var sales: seq<Sale>
    var buyers: seq<Buyer>

    /** The cache agrees with the records. */
    ghost predicate Valid()
      reads this
    {
      IsBuyerStats(sales, buyers)
    }

    /** Start-up (`init` / `loadData`): each collection is what storage held, or empty when
        it was missing or could not be decoded; buyers are regenerated from the sales
        when sales exist but no buyers were stored. */
    constructor Load(savedSales: Option<seq<Sale>>, savedBuyers: Option<seq<Buyer>>)
      ensures sales == savedSales.GetOr([])
      ensures sales != [] && savedBuyers.GetOr([]) == [] ==> Valid()
      ensures sales == [] || savedBuyers.GetOr([]) != [] ==> buyers == savedBuyers.GetOr([])
    {
      sales := savedSales.GetOr([]);
      buyers := savedBuyers.GetOr([]);
      new;
      if sales != [] && buyers == [] {
        UpdateBuyerStats();
      }
    }

    /** Rebuilds `buyers` from `sales`: sums per name into a dictionary, lists the
        dictionary in whatever order it yields, then sorts by amount paid. */
    method UpdateBuyerStats()
      modifies this
      ensures sales == old(sales)
      ensures Valid()
    {
      var records := sales;
      var buyerStats := AccumulateStats(records);
      var unordered := ListStats(records, buyerStats);
      buyers := SortDesc(unordered, Paid);
      SortedStatsAreStats(records, unordered, buyers);
    }

    /** `addSale`: appends the record, then rebuilds the statistics. */
    method AddSale(sale: Sale)
      modifies this
      ensures sales == old(sales) + [sale]
      ensures Valid()
    {
      sales := sales + [sale];
      UpdateBuyerStats();
    }

    /** `deleteSale`: removes every record with the sale's identifier, then rebuilds. */
    method DeleteSale(sale: Sale)
      modifies this
      ensures sales == WithoutId(old(sales), sale.id)
      ensures Valid()
    {
      sales := WithoutId(sales, sale.id);
      UpdateBuyerStats();
    }

    /** `updateSale`: replaces the first record with the sale's identifier and rebuilds;
        with no such record, nothing changes. */
    method UpdateSale(sale: Sale)
      modifies this
      ensures FirstIndexOf(old(sales), sale.id).None? ==> sales == old(sales) && buyers == old(buyers)
      ensures FirstIndexOf(old(sales), sale.id).Some? ==>
        sales == old(sales)[FirstIndexOf(old(sales), sale.id).value := sale] && Valid()
    {
      var index := FirstIndexOf(sales, sale.id);
      if index.Some? {
        sales := sales[index.value := sale];
        UpdateBuyerStats();
      }
    }

    /** `deleteCustomer`: removes every record of the named buyer, then rebuilds. */
    method DeleteCustomer(customerName: string)
      modifies this
      ensures sales == WithoutBuyer(old(sales), customerName)
      ensures Valid()
    {
      sales := WithoutBuyer(sales, customerName);
      UpdateBuyerStats();
    }

    /** `clearAllData`: empties both collections. */
    method ClearAllData()
      modifies this
      ensures sales == [] && buyers == []
      ensures Valid()
    {
      sales := [];
      buyers := [];
    }

    /** `importData`, given the outcome of decoding the blob: on failure reports false and
        changes nothing; on success replaces the whole ledger (no merge) and rebuilds. */
    method ImportData(imported: Option<seq<Sale>>) returns (ok: bool)
      modifies this
      ensures ok == imported.Some?
      ensures !ok ==> sales == old(sales) && buyers == old(buyers)
      ensures ok ==> sales == imported.value && Valid()
    {
      if imported.None? {
        return false;
      }
      sales := imported.value;
      UpdateBuyerStats();
      return true;
    }

    /** `todaySales`: the records on the same calendar day as the start of today. */
    function TodaySales(cal: Calendar, now: Date): (r: seq<Sale>)
      reads this
      ensures forall x :: x in r <==> x in sales && cal.sameDay(x.date, cal.startOfDay(now))
    {
      Filter(sales, OnSameDay(cal, cal.startOfDay(now)))
    }

    /** `todayIncome`: today's income and that of every other day make up the ledger's
        income, and a day without sales has none. */
    function TodayIncome(cal: Calendar, now: Date): (r: real)
      reads this
      ensures r + TotalPrice(Filter(sales, Not(OnSameDay(cal, cal.startOfDay(now))))) == TotalPrice(sales)
      ensures (forall x :: x in sales ==> !cal.sameDay(x.date, cal.startOfDay(now))) ==> r == 0.0
    {
      var today := OnSameDay(cal, cal.startOfDay(now));
      FilterPartitionReal(sales, today, Price);
      TotalPrice(TodaySales(cal, now))
    }

    /** `todayDozens`: the complete dozens among today's eggs (truncating `Int` division). */
    function TodayDozens(cal: Calendar, now: Date): (r: int)
      reads this
      ensures var eggs := TotalQuantity(TodaySales(cal, now));
        (eggs >= 0 ==> 0 <= r && 12 * r <= eggs < 12 * r + 12)
        && (eggs < 0 ==> r <= 0 && 12 * r - 12 < eggs <= 12 * r)
    {
      WholeDozens(TotalQuantity(TodaySales(cal, now)))
    }

    /** `monthlyIncome`: income since the start of the current month (or since `now`
        when the calendar has no month start). With the income of the earlier sales it
        makes up the ledger's; it is 0 when every sale is earlier, and the ledger's
        income when none is. */
    function MonthlyIncome(cal: Calendar, now: Date): (r: real)
      reads this
      ensures var start := cal.StartOf(Month, now);
        && r + TotalPrice(Filter(sales, Not(AtOrAfter(start)))) == TotalPrice(sales)
        && ((forall x :: x in sales ==> x.date < start) ==> r == 0.0)
        && ((forall x :: x in sales ==> x.date >= start) ==> r == TotalPrice(sales))
    {
      var start := cal.StartOf(Month, now);
      FilterPartitionReal(sales, AtOrAfter(start), Price);
      SinceNoneOrAll(sales, start);
      TotalPrice(Since(sales, start))
    }

    /** `monthlyDozens`: the complete dozens sold since the start of the current month. */
    function MonthlyDozens(cal: Calendar, now: Date): (r: int)
      reads this
      ensures var eggs := TotalQuantity(Since(sales, cal.StartOf(Month, now)));
        (eggs >= 0 ==> 0 <= r && 12 * r <= eggs < 12 * r + 12)
        && (eggs < 0 ==> r <= 0 && 12 * r - 12 < eggs <= 12 * r)
    {
      WholeDozens(TotalQuantity(Since(sales, cal.StartOf(Month, now))))
    }
  }
}
