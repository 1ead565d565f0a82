/**
 * The dashboard's figures: the revenue fold over the customers'
 * `totalSpendings`, and the defaults for counts and recent lists when a
 * response lacks them. Responses are the parsed API bodies.
 */
module Dashboard {
  import opened Base
  import opened Js

  /** The callback reads `customer.totalSpendings`, which throws for a null or undefined customer. */
  predicate NoNullish(customers: seq<Value>) {
    forall i :: 0 <= i < |customers| ==> !IsNullish(customers[i])
  }

  /** `parseInt(customer.totalSpendings, 10)`, or 0 when that is NaN. */
  function Contribution(customer: Value): int {
    ParseInt(ToStr(Get(customer, "totalSpendings"))).GetOr(0)
  }

  /** `xs.reduce((sum, x) => sum + f(x), sum)`: a left fold with a running sum. */
  function Reduce(f: Value -> int, sum: int, xs: seq<Value>): int
    decreases xs
  {
    if xs == [] then sum else Reduce(f, sum + f(xs[0]), xs[1..])
  }

  /** Reference definition: the plain sum of `f` over `xs`. */
  function SumBy(f: Value -> int, xs: seq<Value>): int {
    if xs == [] then 0 else f(xs[0]) + SumBy(f, xs[1..])
  }

  lemma {:induction false} ReduceIsSum(f: Value -> int, sum: int, xs: seq<Value>)
    ensures Reduce(f, sum, xs) == sum + SumBy(f, xs)
    decreases xs
  {
    if xs != [] {
      ReduceIsSum(f, sum + f(xs[0]), xs[1..]);
    }
  }

  lemma {:induction false} SumByAppend(f: Value -> int, xs: seq<Value>, x: Value)
    ensures SumBy(f, xs + [x]) == SumBy(f, xs) + f(x)
  {
    if xs != [] {
      assert (xs + [x])[1..] == xs[1..] + [x];
      SumByAppend(f, xs[1..], x);
    }
  }

  lemma {:induction false} SumByNonNegative(f: Value -> int, xs: seq<Value>)
    requires forall i :: 0 <= i < |xs| ==> f(xs[i]) >= 0
    ensures SumBy(f, xs) >= 0
  {
    if xs != [] {
      assert f(xs[0]) >= 0;
      SumByNonNegative(f, xs[1..]);
    }
  }

  /** The source's revenue: the fold of the contributions, starting from 0. */
  function Revenue(customers: seq<Value>): int
    requires NoNullish(customers)
  {
    Reduce(Contribution, 0, customers)
  }

  /** The sum of the customers' contributions. */
  function Sum(customers: seq<Value>): int {
    SumBy(Contribution, customers)
  }

  /** The fold computes the sum of the contributions. */
  lemma RevenueIsSum(customers: seq<Value>)
    requires NoNullish(customers)
    ensures Revenue(customers) == Sum(customers)
  {
    ReduceIsSum(Contribution, 0, customers);
  }

  /** One more customer adds exactly its contribution. */
  lemma RevenueAppend(customers: seq<Value>, c: Value)
    requires NoNullish(customers) && !IsNullish(c)
    ensures NoNullish(customers + [c])
    ensures Revenue(customers + [c]) == Revenue(customers) + Contribution(c)
  {
    assert NoNullish(customers + [c]);
    RevenueIsSum(customers);
    RevenueIsSum(customers + [c]);
    SumByAppend(Contribution, customers, c);
  }

  /** Revenue is non-negative when no customer contributes a negative amount. */
  lemma RevenueNonNegative(customers: seq<Value>)
    requires NoNullish(customers)
    requires forall i :: 0 <= i < |customers| ==> Contribution(customers[i]) >= 0
    ensures Revenue(customers) >= 0
  {
    RevenueIsSum(customers);
    SumByNonNegative(Contribution, customers);
  }

  /** A numeric `totalSpendings` contributes itself; an absent one contributes 0. */
  lemma ContributionOfNumber(customer: Value, n: int)
    requires Get(customer, "totalSpendings") == Num(n)
    ensures Contribution(customer) == n
  {
    ParseIntToString(n);
  }

  lemma ContributionOfMissing(customer: Value)
    requires IsNullish(Get(customer, "totalSpendings"))
    ensures Contribution(customer) == 0
  {
    ParseIntOfNonNumeric(ToStr(Get(customer, "totalSpendings")));
  }

  /**
   * `list?.reduce(…, 0) || 0` for the value `list`: 0 when it is null or
   * undefined; a TypeError (None) when it is not an array, since it has no
   * `reduce`, or when one of its entries is null or undefined.
   */
  function RevenueOfList(list: Value): (r: Option<int>)
    ensures IsNullish(list) ==> r == Some(0)
    ensures !IsNullish(list) && !list.Arr? ==> r.None?
    ensures list.Arr? ==> (r.Some? <==> NoNullish(list.items))
    ensures list.Arr? && NoNullish(list.items) ==> r == Some(Sum(list.items))
  {
    if IsNullish(list) then Some(0)
    else if !list.Arr? || !NoNullish(list.items) then None
    else
      RevenueIsSum(list.items);
      Some(Revenue(list.items))
  }

  /** The source's `totalCustomersRes.data?.data?.reduce(…)`. */
  function TotalRevenue(body: Value): Option<int>
    requires !IsNullish(body)
  {
    RevenueOfList(OptRead(Get(body, "data"), "data"))
  }

  /**
   * The customer list is `body.data` (an array), so `body.data.data` is
   * undefined and the revenue is always 0, whatever the customers spent.
   */
  lemma RevenueIgnoresCustomerList(body: Value)
    requires !IsNullish(body) && Get(body, "data").Arr?
    ensures TotalRevenue(body) == Some(0)
  {
  }

  /** One customer who spent 250: the source reports 0. */
  lemma RevenueExample()
    ensures var customer := Obj(map["totalSpendings" := Num(250)]);
            var body := Obj(map["data" := Arr([customer])]);
            TotalRevenue(body) == Some(0) && IntendedTotalRevenue(body) == Some(250)
  {
    var customer := Obj(map["totalSpendings" := Num(250)]);
    var body := Obj(map["data" := Arr([customer])]);
    assert Get(body, "data") == Arr([customer]);
    RevenueIgnoresCustomerList(body);
    assert NoNullish([customer]);
    IntendedRevenueSumsCustomers(body);
    ContributionOfNumber(customer, 250);
    assert [customer][1..] == [];
    assert Sum([customer]) == Contribution(customer) + SumBy(Contribution, []);
  }

  /** The evidently intended reading: the revenue of the list `body.data`. */
  function IntendedTotalRevenue(body: Value): Option<int>
    requires !IsNullish(body)
  {
    RevenueOfList(Get(body, "data"))
  }

  /** Read from the customer list, the revenue is the sum of the contributions; no list gives 0. */
  lemma IntendedRevenueSumsCustomers(body: Value)
    requires !IsNullish(body)
    ensures IsNullish(Get(body, "data")) ==> IntendedTotalRevenue(body) == Some(0)
    ensures Get(body, "data").Arr? && NoNullish(Get(body, "data").items) ==>
      IntendedTotalRevenue(body) == Some(Sum(Get(body, "data").items))
  {
  }

  /** The six API bodies the page fetches. */
  datatype Responses = Responses(
    customersRes: Value, ordersRes: Value, campaignsRes: Value,
    totalCustomersRes: Value, totalOrdersRes: Value, totalCampaignsRes: Value)

  datatype Stats = Stats(
    customers: Value, orders: Value, campaigns: Value, revenue: int,
    recentCustomers: Value, recentOrders: Value)

  datatype Outcome = Loaded(stats: Stats) | LoadFailed

  const LoadFailedText := "Failed to load dashboard data"

  /** Every body read without optional chaining must not be null or undefined. */
  predicate Readable(r: Responses) {
    !IsNullish(r.customersRes) && !IsNullish(r.ordersRes) && !IsNullish(r.totalCustomersRes)
    && !IsNullish(r.totalOrdersRes) && !IsNullish(r.totalCampaignsRes)
  }

  /**
   * The statistics shown for readable bodies and a revenue: each count
   * `count || 0`, each recent list `data || []`.
   */
  function StatsOf(r: Responses, revenue: int): Stats {
    Stats(Or(Get(r.totalCustomersRes, "count"), Num(0)),
          Or(Get(r.totalOrdersRes, "count"), Num(0)),
          Or(Get(r.totalCampaignsRes, "count"), Num(0)),
          revenue,
          Or(Get(r.customersRes, "data"), Arr([])),
          Or(Get(r.ordersRes, "data"), Arr([])))
  }

  /**
   * One run of the page's loader, as written. `fetched` is None when a
   * request fails. A read from a null body or a revenue TypeError also
   * fails the load.
   */
  function Load(fetched: Option<Responses>): (out: Outcome)
    ensures fetched.None? ==> out == LoadFailed
    ensures fetched.Some? && !Readable(fetched.value) ==> out == LoadFailed
    ensures fetched.Some? && Readable(fetched.value) ==>
      var r := fetched.value;
      (out.Loaded? <==> TotalRevenue(r.totalCustomersRes).Some?)
      && (out.Loaded? ==> out.stats == StatsOf(r, TotalRevenue(r.totalCustomersRes).value))
  {
    if fetched.None? || !Readable(fetched.value) then LoadFailed
    else
      var r := fetched.value;
      match TotalRevenue(r.totalCustomersRes)
      case None => LoadFailed
      case Some(revenue) => Loaded(StatsOf(r, revenue))
  }

  /** The loader with the revenue read from the customer list itself. */
  function IntendedLoad(fetched: Option<Responses>): (out: Outcome)
    ensures fetched.None? ==> out == LoadFailed
    ensures fetched.Some? && !Readable(fetched.value) ==> out == LoadFailed
    ensures fetched.Some? && Readable(fetched.value) ==>
      var r := fetched.value;
      (out.Loaded? <==> IntendedTotalRevenue(r.totalCustomersRes).Some?)
      && (out.Loaded? ==> out.stats == StatsOf(r, IntendedTotalRevenue(r.totalCustomersRes).value))
  {
    if fetched.None? || !Readable(fetched.value) then LoadFailed
    else
      var r := fetched.value;
      match IntendedTotalRevenue(r.totalCustomersRes)
      case None => LoadFailed
      case Some(revenue) => Loaded(StatsOf(r, revenue))
  }

  /**
   * As written, a customer body holding a list always loads with revenue 0,
   * even a list with a null entry; the corrected loader loads exactly when
   * no entry is null, with the sum of the contributions.
   */
  lemma LoadOfCustomerList(r: Responses)
    requires Readable(r) && Get(r.totalCustomersRes, "data").Arr?
    ensures Load(Some(r)).Loaded? && Load(Some(r)).stats.revenue == 0
    ensures var items := Get(r.totalCustomersRes, "data").items;
      (IntendedLoad(Some(r)).Loaded? <==> NoNullish(items))
      && (IntendedLoad(Some(r)).Loaded? ==> IntendedLoad(Some(r)).stats.revenue == Sum(items))
  {
    RevenueIgnoresCustomerList(r.totalCustomersRes);
  }

  /** When both loaders succeed, they show the same statistics apart from the revenue. */
  lemma LoadsDifferOnlyInRevenue(r: Responses)
    requires Load(Some(r)).Loaded? && IntendedLoad(Some(r)).Loaded?
    ensures IntendedLoad(Some(r)).stats == Load(Some(r)).stats.(revenue := IntendedLoad(Some(r)).stats.revenue)
  {
  }

  /** A missing or falsy count shows as 0, and a missing or falsy recent list as []. */
  lemma LoadDefaults(r: Responses)
    requires Load(Some(r)).Loaded?
    ensures var s := Load(Some(r)).stats;
      (!Truthy(Get(r.totalCustomersRes, "count")) ==> s.customers == Num(0))
      && (!Truthy(Get(r.totalOrdersRes, "count")) ==> s.orders == Num(0))
      && (!Truthy(Get(r.totalCampaignsRes, "count")) ==> s.campaigns == Num(0))
      && (!Truthy(Get(r.customersRes, "data")) ==> s.recentCustomers == Arr([]))
      && (!Truthy(Get(r.ordersRes, "data")) ==> s.recentOrders == Arr([]))
  {
  }

  /** Every shown count is truthy or exactly 0. */
  lemma LoadedCountsNeverFalsy(r: Responses)
    requires Load(Some(r)).Loaded?
    ensures var s := Load(Some(r)).stats;
      (Truthy(s.customers) || s.customers == Num(0))
      && (Truthy(s.orders) || s.orders == Num(0))
      && (Truthy(s.campaigns) || s.campaigns == Num(0))
  {
  }

  /** The recent-campaigns body is fetched but never read. */
  lemma LoadIgnoresRecentCampaigns(r: Responses, v: Value)
    ensures Load(Some(r)) == Load(Some(r.(campaignsRes := v)))
  {
  }

  /** A customer body without a list shows revenue 0. */
  lemma MissingListGivesZeroRevenue(r: Responses)
    requires Readable(r) && IsNullish(Get(r.totalCustomersRes, "data"))
    ensures Load(Some(r)).Loaded? && Load(Some(r)).stats.revenue == 0
  {
  }
}
