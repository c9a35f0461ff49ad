/**
 * Aggregating a runtime's token usage by date and by model (packages/views/runtimes/utils.ts). Costs are
 * integers in units of 10^-8 dollar: prices per million tokens have two decimals, so nothing is lost.
 */
module RuntimeUsage {
  import opened Prelude
  import opened Sorting
  import opened Grouping

  datatype Usage = Usage(date: string, model: string, provider: string,
                         input: nat, output: nat, cacheRead: nat, cacheWrite: nat)

  /** Prices in hundredths of a dollar per million tokens. */
  datatype Pricing = Pricing(input: nat, output: nat, cacheRead: nat, cacheWrite: nat)

  const MODEL_PRICING: seq<(string, Pricing)> := [
    ("claude-haiku-4-5", Pricing(100, 500, 10, 125)),
    ("claude-sonnet-4-5", Pricing(300, 1500, 30, 375)),
    ("claude-sonnet-4-6", Pricing(300, 1500, 30, 375)),
    ("claude-opus-4-5", Pricing(500, 2500, 50, 625)),
    ("claude-opus-4-6", Pricing(500, 2500, 50, 625))]

  const UNITS_PER_CENT: int := 1_000_000

  predicate StartsWith(s: string, prefix: string) {
    prefix <= s
  }

  /** The first entry of `table` whose name satisfies the test: the name itself, or a prefix of it. */
  function Lookup(table: seq<(string, Pricing)>, model: string, exact: bool): Option<Pricing> {
    if table == [] then None
    else if (if exact then table[0].0 == model else StartsWith(model, table[0].0)) then Some(table[0].1)
    else Lookup(table[1..], model, exact)
  }

  function PricingOf(model: string): Option<Pricing> {
    OrElse(Lookup(MODEL_PRICING, model, true), Lookup(MODEL_PRICING, model, false))
  }

  function CostAt(u: Usage, p: Pricing): nat {
    u.input * p.input + u.output * p.output + u.cacheRead * p.cacheRead + u.cacheWrite * p.cacheWrite
  }

  function CostOf(u: Usage): nat {
    var p := PricingOf(u.model);
    if p.Some? then CostAt(u, p.value) else 0
  }

  method EstimateCost(u: Usage) returns (cost: nat)
    ensures cost == CostOf(u)
  {
    var pricing := Lookup(MODEL_PRICING, u.model, true);
    if pricing.None? {
      var k := 0;
      while k < |MODEL_PRICING|
        invariant 0 <= k <= |MODEL_PRICING|
        invariant pricing.None? && Lookup(MODEL_PRICING[k..], u.model, false) == Lookup(MODEL_PRICING, u.model, false)
      {
        if StartsWith(u.model, MODEL_PRICING[k].0) {
          pricing := Some(MODEL_PRICING[k].1);
          break;
        }
        assert MODEL_PRICING[k..][1..] == MODEL_PRICING[k + 1..];
        k := k + 1;
      }
    }
    if pricing.None? { return 0; }
    cost := CostAt(u, pricing.value);
  }

  lemma {:induction false} LookupExact(table: seq<(string, Pricing)>, model: string, exact: bool)
    ensures Lookup(table, model, exact).Some? ==> exists k :: 0 <= k < |table| && StartsWith(model, table[k].0)
                                                              && Lookup(table, model, exact) == Some(table[k].1)
    ensures !exact && Lookup(table, model, exact).None? ==> forall k :: 0 <= k < |table| ==> !StartsWith(model, table[k].0)
  {
    if table != [] {
      var rest := table[1..];
      LookupExact(rest, model, exact);
      assert forall k :: 0 <= k < |rest| ==> rest[k] == table[k + 1];
      assert forall k :: 1 <= k < |table| ==> table[k] == rest[k - 1];
    }
  }

  /** No name in the table begins another one, so at most one begins the model's. */
  lemma PrefixUnique(model: string, j: nat, k: nat)
    requires j < |MODEL_PRICING| && k < |MODEL_PRICING|
    requires StartsWith(model, MODEL_PRICING[j].0) && StartsWith(model, MODEL_PRICING[k].0)
    ensures j == k
  {
    var a, b := MODEL_PRICING[j].0, MODEL_PRICING[k].0;
    assert model[7] == a[7] == b[7];
    assert |model| > 16 ==> (|a| > 16 ==> model[16] == a[16]) && (|b| > 16 ==> model[16] == b[16]);
    assert |a| > 14 && |b| > 14 && model[14] == a[14] == b[14];
  }

  /**
   * The cost is the one at the prices of the only entry whose name begins the model's, whichever of the
   * two look-ups finds it and in whatever order the table stands; and nothing if there is none.
   */
  lemma CostOfExact(u: Usage)
    ensures forall k :: 0 <= k < |MODEL_PRICING| && StartsWith(u.model, MODEL_PRICING[k].0) ==>
              CostOf(u) == CostAt(u, MODEL_PRICING[k].1)
    ensures (forall k :: 0 <= k < |MODEL_PRICING| ==> !StartsWith(u.model, MODEL_PRICING[k].0)) ==> CostOf(u) == 0
  {
    LookupExact(MODEL_PRICING, u.model, true);
    LookupExact(MODEL_PRICING, u.model, false);
    forall j, k | 0 <= j < |MODEL_PRICING| && 0 <= k < |MODEL_PRICING|
                  && StartsWith(u.model, MODEL_PRICING[j].0) && StartsWith(u.model, MODEL_PRICING[k].0)
      ensures j == k
    {
      PrefixUnique(u.model, j, k);
    }
  }

  // ----- the quantities -----

  function DateOf(): Usage -> string { (u: Usage) => u.date }
  function InputOf(): Usage -> int { (u: Usage) => u.input }
  function OutputOf(): Usage -> int { (u: Usage) => u.output }
  function CacheReadOf(): Usage -> int { (u: Usage) => u.cacheRead }
  function CacheWriteOf(): Usage -> int { (u: Usage) => u.cacheWrite }
  function TokensOf(): Usage -> int { (u: Usage) => u.input + u.output + u.cacheRead + u.cacheWrite }
  function UnitsOf(): Usage -> int { (u: Usage) => CostOf(u) }

  /** `u.model || u.provider` */
  function ModelOf(): Usage -> string {
    (u: Usage) => if u.model != "" then u.model else u.provider
  }

  datatype DailyTokens = DailyTokens(date: string, input: int, output: int, cacheRead: int, cacheWrite: int)
  datatype DailyCost = DailyCost(date: string, cents: int)
  datatype ModelShare = ModelShare(model: string, tokens: int, units: int)

  function TokensRow(usage: seq<Usage>, date: string): DailyTokens {
    DailyTokens(date,
                SumBy(usage, DateOf(), date, InputOf()), SumBy(usage, DateOf(), date, OutputOf()),
                SumBy(usage, DateOf(), date, CacheReadOf()), SumBy(usage, DateOf(), date, CacheWriteOf()))
  }

  function DayUnits(usage: seq<Usage>, date: string): int {
    SumBy(usage, DateOf(), date, UnitsOf())
  }

  /** `Math.round(cost * 100)`: halves go up. */
  function RoundToCents(units: int): int {
    (units + UNITS_PER_CENT / 2) / UNITS_PER_CENT
  }

  function ModelRow(usage: seq<Usage>, model: string): ModelShare {
    ModelShare(model, SumBy(usage, ModelOf(), model, TokensOf()), SumBy(usage, ModelOf(), model, UnitsOf()))
  }

  function TokensRowOf(usage: seq<Usage>): string -> DailyTokens { (d: string) => TokensRow(usage, d) }
  function CostRowOf(usage: seq<Usage>): string -> DailyCost { (d: string) => DailyCost(d, RoundToCents(DayUnits(usage, d))) }
  function ModelRowOf(usage: seq<Usage>): string -> ModelShare { (k: string) => ModelRow(usage, k) }

  /** Sort keys; `rank` is the locale's collation order of the dates. */
  function TokensByDate(rank: string -> int): DailyTokens -> int { (r: DailyTokens) => rank(r.date) }
  function CostByDate(rank: string -> int): DailyCost -> int { (r: DailyCost) => rank(r.date) }
  function ByTokensDown(): ModelShare -> int { (r: ModelShare) => -r.tokens }

  function TokensTable(usage: seq<Usage>, rank: string -> int): seq<DailyTokens> {
    SortBy(Rows(KeysBy(usage, DateOf()), TokensRowOf(usage)), TokensByDate(rank))
  }

  function CostTable(usage: seq<Usage>, rank: string -> int): seq<DailyCost> {
    SortBy(Rows(KeysBy(usage, DateOf()), CostRowOf(usage)), CostByDate(rank))
  }

  function ModelTable(usage: seq<Usage>): seq<ModelShare> {
    SortBy(Rows(KeysBy(usage, ModelOf()), ModelRowOf(usage)), ByTokensDown())
  }

  // ----- the implementation -----

  /** The three maps, each with its insertion order. */
  datatype Maps = Maps(dates: seq<string>, tokens: map<string, DailyTokens>, units: map<string, int>,
                       models: seq<string>, shares: map<string, ModelShare>)

  ghost predicate DatesAggregate(dates: seq<string>, tokens: map<string, DailyTokens>, units: map<string, int>, usage: seq<Usage>) {
    && dates == KeysBy(usage, DateOf())
    && (forall d :: d in tokens <==> d in dates) && (forall d :: d in units <==> d in dates)
    && (forall d :: d in tokens ==> tokens[d] == TokensRow(usage, d))
    && (forall d :: d in units ==> units[d] == DayUnits(usage, d))
  }

  ghost predicate ModelsAggregate(models: seq<string>, shares: map<string, ModelShare>, usage: seq<Usage>) {
    && models == KeysBy(usage, ModelOf())
    && (forall k :: k in shares <==> k in models)
    && (forall k :: k in shares ==> shares[k] == ModelRow(usage, k))
  }

  /** `existing` with one more usage record. */
  function AddTokens(existing: DailyTokens, u: Usage): DailyTokens {
    DailyTokens(existing.date, existing.input + u.input, existing.output + u.output,
                existing.cacheRead + u.cacheRead, existing.cacheWrite + u.cacheWrite)
  }

  function AddShare(existing: ModelShare, u: Usage, cost: int): ModelShare {
    ModelShare(existing.model, existing.tokens + (u.input + u.output + u.cacheRead + u.cacheWrite), existing.units + cost)
  }

  method Collect(usage: seq<Usage>) returns (m: Maps)
    ensures DatesAggregate(m.dates, m.tokens, m.units, usage) && ModelsAggregate(m.models, m.shares, usage)
  {
    m := Maps([], map[], map[], [], map[]);
    for n := 0 to |usage|
      invariant DatesAggregate(m.dates, m.tokens, m.units, usage[..n]) && ModelsAggregate(m.models, m.shares, usage[..n])
    {
      var u := usage[n];
      assert usage[..n + 1] == usage[..n] + [u];
      var existing := if u.date in m.tokens then m.tokens[u.date] else DailyTokens(u.date, 0, 0, 0, 0);
      var cost := EstimateCost(u);
      var dayCost := (if u.date in m.units then m.units[u.date] else 0) + cost;
      var modelName := if u.model != "" then u.model else u.provider;
      var share := if modelName in m.shares then m.shares[modelName] else ModelShare(modelName, 0, 0);
      DatesPush(m.dates, m.tokens, m.units, usage[..n], u, AddTokens(existing, u), dayCost);
      ModelsPush(m.models, m.shares, usage[..n], u, AddShare(share, u, cost));
      m := Maps(if u.date in m.tokens then m.dates else m.dates + [u.date],
                m.tokens[u.date := AddTokens(existing, u)], m.units[u.date := dayCost],
                if modelName in m.shares then m.models else m.models + [modelName],
                m.shares[modelName := AddShare(share, u, cost)]);
    }
    assert usage[..|usage|] == usage;
  }

  lemma SumPush(before: seq<Usage>, u: Usage, key: Usage -> string, k: string, val: Usage -> int)
    ensures SumBy(before + [u], key, k, val) == SumBy(before, key, k, val) + if key(u) == k then val(u) else 0
  {
    assert (before + [u])[..|before|] == before;
  }

  lemma TokensRowPush(before: seq<Usage>, u: Usage, d: string)
    ensures TokensRow(before + [u], d) == if u.date == d then AddTokens(TokensRow(before, d), u) else TokensRow(before, d)
    ensures DayUnits(before + [u], d) == DayUnits(before, d) + if u.date == d then CostOf(u) else 0
  {
    SumPush(before, u, DateOf(), d, InputOf());
    SumPush(before, u, DateOf(), d, OutputOf());
    SumPush(before, u, DateOf(), d, CacheReadOf());
    SumPush(before, u, DateOf(), d, CacheWriteOf());
    SumPush(before, u, DateOf(), d, UnitsOf());
  }

  lemma ModelRowPush(before: seq<Usage>, u: Usage, k: string)
    ensures ModelRow(before + [u], k)
            == if ModelOf()(u) == k then AddShare(ModelRow(before, k), u, CostOf(u)) else ModelRow(before, k)
  {
    SumPush(before, u, ModelOf(), k, TokensOf());
    SumPush(before, u, ModelOf(), k, UnitsOf());
  }

  lemma KeysPush(before: seq<Usage>, u: Usage, key: Usage -> string)
    ensures KeysBy(before + [u], key)
            == if key(u) in KeysBy(before, key) then KeysBy(before, key) else KeysBy(before, key) + [key(u)]
  {
    assert (before + [u])[..|before|] == before;
  }

  lemma DatesPush(dates: seq<string>, tokens: map<string, DailyTokens>, units: map<string, int>, before: seq<Usage>,
                  u: Usage, row: DailyTokens, dayCost: int)
    requires DatesAggregate(dates, tokens, units, before)
    requires row == AddTokens(if u.date in tokens then tokens[u.date] else DailyTokens(u.date, 0, 0, 0, 0), u)
    requires dayCost == (if u.date in units then units[u.date] else 0) + CostOf(u)
    ensures DatesAggregate(if u.date in tokens then dates else dates + [u.date],
                           tokens[u.date := row], units[u.date := dayCost], before + [u])
  {
    KeysPush(before, u, DateOf());
    AbsentDay(before, u.date);
    forall d ensures TokensRow(before + [u], d) == if u.date == d then AddTokens(TokensRow(before, d), u) else TokensRow(before, d) {
      TokensRowPush(before, u, d);
    }
    forall d ensures DayUnits(before + [u], d) == DayUnits(before, d) + if u.date == d then CostOf(u) else 0 {
      TokensRowPush(before, u, d);
    }
  }

  lemma ModelsPush(models: seq<string>, shares: map<string, ModelShare>, before: seq<Usage>, u: Usage, share: ModelShare)
    requires ModelsAggregate(models, shares, before)
    requires var k := ModelOf()(u);
      share == AddShare(if k in shares then shares[k] else ModelShare(k, 0, 0), u, CostOf(u))
    ensures var k := ModelOf()(u);
      ModelsAggregate(if k in shares then models else models + [k], shares[k := share], before + [u])
  {
    KeysPush(before, u, ModelOf());
    AbsentModel(before, ModelOf()(u));
    forall k ensures ModelRow(before + [u], k)
                     == if ModelOf()(u) == k then AddShare(ModelRow(before, k), u, CostOf(u)) else ModelRow(before, k) {
      ModelRowPush(before, u, k);
    }
  }

  lemma AbsentDay(usage: seq<Usage>, date: string)
    ensures date !in KeysBy(usage, DateOf()) ==>
              TokensRow(usage, date) == DailyTokens(date, 0, 0, 0, 0) && DayUnits(usage, date) == 0
  {
    KeysExact(usage, DateOf(), date);
    if date !in KeysBy(usage, DateOf()) {
      SumByAbsent(usage, DateOf(), date, InputOf());
      SumByAbsent(usage, DateOf(), date, OutputOf());
      SumByAbsent(usage, DateOf(), date, CacheReadOf());
      SumByAbsent(usage, DateOf(), date, CacheWriteOf());
      SumByAbsent(usage, DateOf(), date, UnitsOf());
    }
  }

  lemma AbsentModel(usage: seq<Usage>, model: string)
    ensures model !in KeysBy(usage, ModelOf()) ==> ModelRow(usage, model) == ModelShare(model, 0, 0)
  {
    KeysExact(usage, ModelOf(), model);
    if model !in KeysBy(usage, ModelOf()) {
      SumByAbsent(usage, ModelOf(), model, TokensOf());
      SumByAbsent(usage, ModelOf(), model, UnitsOf());
    }
  }

  method AggregateByDate(usage: seq<Usage>, rank: string -> int)
    returns (dailyTokens: seq<DailyTokens>, dailyCost: seq<DailyCost>, modelDist: seq<ModelShare>)
    ensures dailyTokens == TokensTable(usage, rank)
    ensures dailyCost == CostTable(usage, rank)
    ensures modelDist == ModelTable(usage)
  {
    var m := Collect(usage);
    dailyTokens, dailyCost, modelDist := [], [], [];
    for k := 0 to |m.dates|
      invariant dailyTokens == Rows(m.dates[..k], TokensRowOf(usage))
      invariant dailyCost == Rows(m.dates[..k], CostRowOf(usage))
    {
      assert m.dates[..k + 1][..k] == m.dates[..k] && m.dates[k] in m.dates;
      dailyTokens := dailyTokens + [m.tokens[m.dates[k]]];
      dailyCost := dailyCost + [DailyCost(m.dates[k], RoundToCents(m.units[m.dates[k]]))];
    }
    for k := 0 to |m.models|
      invariant modelDist == Rows(m.models[..k], ModelRowOf(usage))
    {
      assert m.models[..k + 1][..k] == m.models[..k] && m.models[k] in m.models;
      modelDist := modelDist + [m.shares[m.models[k]]];
    }
    assert m.dates[..|m.dates|] == m.dates && m.models[..|m.models|] == m.models;
    dailyTokens := SortBy(dailyTokens, TokensByDate(rank));
    dailyCost := SortBy(dailyCost, CostByDate(rank));
    modelDist := SortBy(modelDist, ByTokensDown());
  }

  // ----- conservation -----

  function RowTokens(): DailyTokens -> int { (r: DailyTokens) => r.input + r.output + r.cacheRead + r.cacheWrite }
  function ShareTokens(): ModelShare -> int { (r: ModelShare) => r.tokens }
  function ShareUnits(): ModelShare -> int { (r: ModelShare) => r.units }
  function RowCents(): DailyCost -> int { (r: DailyCost) => r.cents }

  lemma {:induction false} TotalAsParts(usage: seq<Usage>)
    ensures Total(usage, TokensOf())
            == Total(usage, InputOf()) + Total(usage, OutputOf()) + Total(usage, CacheReadOf()) + Total(usage, CacheWriteOf())
  {
    if usage != [] { TotalAsParts(usage[..|usage| - 1]); }
  }

  lemma {:induction false} TokensRowsTotal(usage: seq<Usage>, dates: seq<string>)
    ensures Total(Rows(dates, TokensRowOf(usage)), RowTokens())
            == SumOfGroups(usage, DateOf(), dates, InputOf()) + SumOfGroups(usage, DateOf(), dates, OutputOf())
               + SumOfGroups(usage, DateOf(), dates, CacheReadOf()) + SumOfGroups(usage, DateOf(), dates, CacheWriteOf())
  {
    if dates != [] {
      TokensRowsTotal(usage, dates[..|dates| - 1]);
      RowsTotalPush(dates, TokensRowOf(usage), RowTokens());
    }
  }

  lemma {:induction false} ModelRowsTotal(usage: seq<Usage>, models: seq<string>)
    ensures Total(Rows(models, ModelRowOf(usage)), ShareTokens()) == SumOfGroups(usage, ModelOf(), models, TokensOf())
    ensures Total(Rows(models, ModelRowOf(usage)), ShareUnits()) == SumOfGroups(usage, ModelOf(), models, UnitsOf())
  {
    if models != [] {
      ModelRowsTotal(usage, models[..|models| - 1]);
      RowsTotalPush(models, ModelRowOf(usage), ShareTokens());
      RowsTotalPush(models, ModelRowOf(usage), ShareUnits());
    }
  }

  /** `error`, in cost units, is at most half a cent for each of `days` days. */
  predicate HalfCentPerDay(error: int, days: nat) {
    -(days * (UNITS_PER_CENT / 2)) <= error <= days * (UNITS_PER_CENT / 2)
  }

  lemma RoundingError(units: int)
    ensures HalfCentPerDay(RoundToCents(units) * UNITS_PER_CENT - units, 1)
  {
  }

  lemma ErrorsAdd(a: int, b: int, m: nat, n: nat)
    requires HalfCentPerDay(a, m) && HalfCentPerDay(b, n)
    ensures HalfCentPerDay(a + b, m + n)
  {
  }

  /** What the rounded rows of `dates` claim more than their exact cost. */
  function RoundingOf(usage: seq<Usage>, dates: seq<string>): int {
    Total(Rows(dates, CostRowOf(usage)), RowCents()) * UNITS_PER_CENT - SumOfGroups(usage, DateOf(), dates, UnitsOf())
  }

  lemma {:induction false} RoundingBound(usage: seq<Usage>, dates: seq<string>)
    ensures HalfCentPerDay(RoundingOf(usage, dates), |dates|)
  {
    if dates != [] {
      var init, units := dates[..|dates| - 1], DayUnits(usage, dates[|dates| - 1]);
      RoundingBound(usage, init);
      RoundingError(units);
      RowsTotalPush(dates, CostRowOf(usage), RowCents());
      var error := RoundToCents(units) * UNITS_PER_CENT - units;
      ErrorsAdd(RoundingOf(usage, init), error, |init|, 1);
      assert RoundingOf(usage, dates) == RoundingOf(usage, init) + error;
    }
  }

  /** All tokens are counted exactly once by date. */
  lemma TokensByDateConserved(usage: seq<Usage>, rank: string -> int)
    ensures Total(TokensTable(usage, rank), RowTokens()) == Total(usage, TokensOf())
  {
    var days := KeysBy(usage, DateOf());
    TotalSort(Rows(days, TokensRowOf(usage)), TokensByDate(rank), RowTokens());
    TokensRowsTotal(usage, days);
    TotalAsParts(usage);
    GroupingConserves(usage, DateOf(), InputOf());
    GroupingConserves(usage, DateOf(), OutputOf());
    GroupingConserves(usage, DateOf(), CacheReadOf());
    GroupingConserves(usage, DateOf(), CacheWriteOf());
  }

  /** All tokens are counted exactly once by model, and the model costs add up to the exact total. */
  lemma ModelsConserved(usage: seq<Usage>)
    ensures Total(ModelTable(usage), ShareTokens()) == Total(usage, TokensOf())
    ensures Total(ModelTable(usage), ShareUnits()) == Total(usage, UnitsOf())
  {
    var models := KeysBy(usage, ModelOf());
    TotalSort(Rows(models, ModelRowOf(usage)), ByTokensDown(), ShareTokens());
    TotalSort(Rows(models, ModelRowOf(usage)), ByTokensDown(), ShareUnits());
    ModelRowsTotal(usage, models);
    GroupingConserves(usage, ModelOf(), TokensOf());
    GroupingConserves(usage, ModelOf(), UnitsOf());
  }

  /** The rounded daily costs together miss the exact total by at most half a cent per day. */
  lemma DailyCostBound(usage: seq<Usage>, rank: string -> int)
    ensures HalfCentPerDay(Total(CostTable(usage, rank), RowCents()) * UNITS_PER_CENT - Total(usage, UnitsOf()),
                           |KeysBy(usage, DateOf())|)
  {
    var days := KeysBy(usage, DateOf());
    TotalSort(Rows(days, CostRowOf(usage)), CostByDate(rank), RowCents());
    GroupingConserves(usage, DateOf(), UnitsOf());
    RoundingBound(usage, days);
  }

  function TokensDate(): DailyTokens -> string { (r: DailyTokens) => r.date }
  function CostDate(): DailyCost -> string { (r: DailyCost) => r.date }
  function ShareModel(): ModelShare -> string { (r: ModelShare) => r.model }

  /** The daily tables list each date of the input once, in order, with exactly that date's sums. */
  lemma DailyTablesExact(usage: seq<Usage>, rank: string -> int)
    ensures var t := TokensTable(usage, rank);
      && SortedBy(t, TokensByDate(rank)) && DistinctBy(t, TokensDate())
      && forall r :: r in t <==> HasKey(usage, DateOf(), r.date) && r == TokensRow(usage, r.date)
    ensures var c := CostTable(usage, rank);
      && SortedBy(c, CostByDate(rank)) && DistinctBy(c, CostDate())
      && forall r :: r in c <==> HasKey(usage, DateOf(), r.date) && r.cents == RoundToCents(DayUnits(usage, r.date))
  {
    TableExact(usage, DateOf(), TokensRowOf(usage), TokensDate(), TokensByDate(rank));
    TableExact(usage, DateOf(), CostRowOf(usage), CostDate(), CostByDate(rank));
  }

  /** The model table lists each model once, the largest first, with exactly its tokens and cost. */
  lemma ModelTableExact(usage: seq<Usage>)
    ensures var t := ModelTable(usage);
      && SortedBy(t, ByTokensDown()) && DistinctBy(t, ShareModel())
      && forall r :: r in t <==> HasKey(usage, ModelOf(), r.model) && r == ModelRow(usage, r.model)
  {
    TableExact(usage, ModelOf(), ModelRowOf(usage), ShareModel(), ByTokensDown());
  }

  // ----- by values -----

  lemma CostByEntry(u: Usage, k: nat)
    requires k < |MODEL_PRICING| && StartsWith(u.model, MODEL_PRICING[k].0)
    ensures CostOf(u) == CostAt(u, MODEL_PRICING[k].1)
  {
    CostOfExact(u);
  }

  /**
   * The cost of a record in units of 10^-8 dollar, price list and all: input, output, cache reads and cache
   * writes, each at its own price per million tokens.
   */
  lemma CostsInFull(u: Usage)
    ensures StartsWith(u.model, "claude-haiku-4-5") ==>
              CostOf(u) == 100 * u.input + 500 * u.output + 10 * u.cacheRead + 125 * u.cacheWrite
    ensures StartsWith(u.model, "claude-sonnet-4-5") ==>
              CostOf(u) == 300 * u.input + 1500 * u.output + 30 * u.cacheRead + 375 * u.cacheWrite
    ensures StartsWith(u.model, "claude-sonnet-4-6") ==>
              CostOf(u) == 300 * u.input + 1500 * u.output + 30 * u.cacheRead + 375 * u.cacheWrite
    ensures StartsWith(u.model, "claude-opus-4-5") ==>
              CostOf(u) == 500 * u.input + 2500 * u.output + 50 * u.cacheRead + 625 * u.cacheWrite
    ensures StartsWith(u.model, "claude-opus-4-6") ==>
              CostOf(u) == 500 * u.input + 2500 * u.output + 50 * u.cacheRead + 625 * u.cacheWrite
  {
    if StartsWith(u.model, "claude-haiku-4-5") { CostByEntry(u, 0); }
    if StartsWith(u.model, "claude-sonnet-4-5") { CostByEntry(u, 1); }
    if StartsWith(u.model, "claude-sonnet-4-6") { CostByEntry(u, 2); }
    if StartsWith(u.model, "claude-opus-4-5") { CostByEntry(u, 3); }
    if StartsWith(u.model, "claude-opus-4-6") { CostByEntry(u, 4); }
  }

  /** One more record, column by column: it is counted in the row of its date and in no other. */
  lemma DayRowColumns(before: seq<Usage>, u: Usage, d: string)
    ensures TokensRow([], d) == DailyTokens(d, 0, 0, 0, 0) && DayUnits([], d) == 0
    ensures var r, s := TokensRow(before, d), TokensRow(before + [u], d);
      && s.date == d
      && s.input == r.input + (if u.date == d then u.input else 0)
      && s.output == r.output + (if u.date == d then u.output else 0)
      && s.cacheRead == r.cacheRead + (if u.date == d then u.cacheRead else 0)
      && s.cacheWrite == r.cacheWrite + (if u.date == d then u.cacheWrite else 0)
    ensures DayUnits(before + [u], d) == DayUnits(before, d) + (if u.date == d then CostOf(u) else 0)
  {
    TokensRowPush(before, u, d);
  }

  /** The same for the row of its model, or of its provider if the model has no name. */
  lemma ModelRowColumns(before: seq<Usage>, u: Usage, k: string)
    ensures ModelRow([], k) == ModelShare(k, 0, 0)
    ensures var r, s := ModelRow(before, k), ModelRow(before + [u], k);
      var counted := k == if u.model != "" then u.model else u.provider;
      && s.model == k
      && s.tokens == r.tokens + (if counted then u.input + u.output + u.cacheRead + u.cacheWrite else 0)
      && s.units == r.units + (if counted then CostOf(u) else 0)
  {
    ModelRowPush(before, u, k);
  }

  /** A day's cost is shown to the nearest cent, a half going up; a cent is a million units. */
  lemma CentsShown(units: int)
    ensures 2 * (units - 1_000_000 * RoundToCents(units)) < 1_000_000
    ensures -1_000_000 <= 2 * (units - 1_000_000 * RoundToCents(units))
  {
  }

  /** The rows of the tables in their order. */
  lemma TablesInOrder(usage: seq<Usage>, rank: string -> int)
    ensures var t := TokensTable(usage, rank); forall i, j :: 0 <= i < j < |t| ==> rank(t[i].date) <= rank(t[j].date)
    ensures var c := CostTable(usage, rank); forall i, j :: 0 <= i < j < |c| ==> rank(c[i].date) <= rank(c[j].date)
    ensures var m := ModelTable(usage); forall i, j :: 0 <= i < j < |m| ==> m[i].tokens >= m[j].tokens
  {
    DailyTablesExact(usage, rank);
    ModelTableExact(usage);
    var t, c, m := TokensTable(usage, rank), CostTable(usage, rank), ModelTable(usage);
    assert forall i, j :: 0 <= i < j < |t| ==> TokensByDate(rank)(t[i]) <= TokensByDate(rank)(t[j]);
    assert forall i, j :: 0 <= i < j < |c| ==> CostByDate(rank)(c[i]) <= CostByDate(rank)(c[j]);
    assert forall i, j :: 0 <= i < j < |m| ==> ByTokensDown()(m[i]) <= ByTokensDown()(m[j]);
  }
}
