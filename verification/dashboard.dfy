/** The four analytics handlers of the dashboard controller, with the database
    read, the request form and the clock as parameters: the cards, the
    income/profit charts, the per-category quantities and the forecasts. */
module Dashboard {
  import opened Records
  import opened Sums
  import opened Aggregation
  import opened TimeSeries
  import opened Percent
  import opened Comparison
  import opened Forecast
  import opened Prediction

  /** The payload of `getCardData`. */
  datatype Card = Card(
    transactionTotal: nat,
    transactionTotalPercentage: string,
    incomeTotal: real,
    incomeTotalPercentage: string,
    profitTotal: real,
    profitTotalPercentage: string,
    bestSellerCategory: string)

  /** `bestSellerCategory` names the first category of largest quantity sold in the period. */
  predicate IsBestSeller(name: string, period: seq<Transaction>, cats: seq<Category>) {
    exists k :: 0 <= k < |cats| && name == cats[k].name
      && (forall j :: 0 <= j < |cats| ==> CategoryQtyIn(period, cats[j].id) <= CategoryQtyIn(period, cats[k].id))
      && (forall j :: 0 <= j < k ==> CategoryQtyIn(period, cats[j].id) < CategoryQtyIn(period, cats[k].id))
  }

  /** `categories.sort((a, b) => b.qty - a.qty)[0].dataValues.name` after the
      quantities are attached: the best-selling category, or the failed read of
      `dataValues` on the missing first element when there are no categories. */
  method BestSeller(period: seq<Transaction>, cats: seq<Category>) returns (r: Result<string>)
    ensures r.Failure? <==> |cats| == 0
    ensures r.Failure? ==> r.error == ReadOfUndefined("dataValues")
    ensures r.Success? ==> IsBestSeller(r.value, period, cats)
  {
    var quantities := CategoryQuantities(period, cats);
    var sorted := SortByQtyDesc(quantities);
    if |sorted| == 0 {
      assert |multiset(sorted)| == |multiset(quantities)|;
      return Failure(ReadOfUndefined("dataValues"));
    }
    assert |quantities| > 0 by {
      assert |multiset(sorted)| == |multiset(quantities)|;
    }
    var k := FirstMaxIndex(quantities);
    assert sorted[0] == quantities[k] by {
      SortedHeadIsFirstMax(quantities);
    }
    FirstMaxIsBestSeller(period, cats, quantities);
    r := Success(sorted[0].category.name);
  }

  /** The category at the first maximum of the attached quantities is the best seller. */
  lemma {:induction false} FirstMaxIsBestSeller(period: seq<Transaction>, cats: seq<Category>, quantities: seq<CategoryQty>)
    requires |quantities| == |cats| > 0
    requires forall i :: 0 <= i < |cats| ==> quantities[i] == CategoryQty(cats[i], CategoryQtyIn(period, cats[i].id))
    ensures IsBestSeller(quantities[FirstMaxIndex(quantities)].category.name, period, cats)
  {
    var k := FirstMaxIndex(quantities);
    assert quantities[k].category == cats[k];
    forall j | 0 <= j < |cats|
      ensures CategoryQtyIn(period, cats[j].id) <= CategoryQtyIn(period, cats[k].id)
    {
      assert quantities[j].qty <= quantities[k].qty;
    }
    forall j | 0 <= j < k
      ensures CategoryQtyIn(period, cats[j].id) < CategoryQtyIn(period, cats[k].id)
    {
      assert quantities[j].qty < quantities[k].qty;
    }
  }

  /** `getCardData`: counts, income and profit of the completed transactions in
      `[start, end]`, each with its change against the window just before, and
      the best-selling category. With no categories the handler fails. */
  method GetCardData(txs: seq<Transaction>, cats: seq<Category>, cal: Calendar, start: Day, end: Day)
    returns (r: Result<Card>)
    ensures r.Failure? <==> |cats| == 0
    ensures r.Failure? ==> r.error == ReadOfUndefined("dataValues")
    ensures r.Success? ==>
      var current := CurrentPeriod(txs, cal, start, end);
      var prior := PriorPeriod(txs, cal, start, end);
      && r.value.transactionTotal == |current|
      && r.value.transactionTotalPercentage == Percentage(Length(current), Length(prior))
      && r.value.incomeTotal == Sum(current, TxWeight(Total))
      && r.value.incomeTotalPercentage == Percentage(Sum(current, TxWeight(Total)), Sum(prior, TxWeight(Total)))
      && r.value.profitTotal == Sum(current, TxWeight(TotalProfit))
      && r.value.profitTotalPercentage == Percentage(Sum(current, TxWeight(TotalProfit)), Sum(prior, TxWeight(TotalProfit)))
      && IsBestSeller(r.value.bestSellerCategory, current, cats)
  {
    var current := CurrentPeriod(txs, cal, start, end);
    var prior := PriorPeriod(txs, cal, start, end);
    var best := BestSeller(current, cats);

    var transactionTotal := |current|;
    var transactionTotalPercentage := Percentage(Length(current), Length(prior));

    var incomeTotal := Sum(current, TxWeight(Total));
    var incomeTotalBefore := Sum(prior, TxWeight(Total));
    var incomeTotalPercentage := Percentage(incomeTotal, incomeTotalBefore);

    var profitTotal := Sum(current, TxWeight(TotalProfit));
    var profitTotalBefore := Sum(prior, TxWeight(TotalProfit));
    var profitTotalPercentage := Percentage(profitTotal, profitTotalBefore);

    if best.Failure? {
      return Failure(best.error);
    }
    r := Success(Card(transactionTotal, transactionTotalPercentage, incomeTotal, incomeTotalPercentage,
                      profitTotal, profitTotalPercentage, best.value));
  }

  /** The two charts of `getIncomeProfitData`. */
  datatype IncomeProfit = IncomeProfit(dataIncome: seq<Point>, dataProfit: seq<Point>)

  /** `getIncomeProfitData`: with no category names, the transactions' own total
      and profit per day; otherwise the order items' total and profit over the
      listed categories per day. */
  method GetIncomeProfitData(txs: seq<Transaction>, cal: Calendar, names: seq<string>) returns (r: IncomeProfit)
    ensures |names| == 0 ==> r == IncomeProfit(Buckets(txs, cal, TxWeight(Total)), Buckets(txs, cal, TxWeight(TotalProfit)))
    ensures |names| > 0 ==> r == IncomeProfit(Buckets(txs, cal, NamesWeight(ItemTotal, names)),
                                              Buckets(txs, cal, NamesWeight(Profit, names)))
  {
    if |names| == 0 {
      var dataIncome := DataTimeSeries(txs, cal, Total);
      var dataProfit := DataTimeSeries(txs, cal, TotalProfit);
      r := IncomeProfit(dataIncome, dataProfit);
    } else {
      var dataIncome := DataTimeSeriesFilter(txs, cal, ItemTotal, names);
      var dataProfit := DataTimeSeriesFilter(txs, cal, Profit, names);
      r := IncomeProfit(dataIncome, dataProfit);
    }
  }

  /** One entry of `getCategoryData`: a category's name and its quantity sold. */
  datatype NamedQty = NamedQty(name: string, qty: real)

  function NamedQtyValue(n: NamedQty): real {
    n.qty
  }

  /** `getCategoryData`: every category, in order, with the quantity sold in the
      completed transactions of `[start, end]`; when the categories partition the
      sold items, the quantities add up to every unit sold in the period. */
  method GetCategoryData(txs: seq<Transaction>, cats: seq<Category>, cal: Calendar, start: Day, end: Day)
    returns (r: seq<NamedQty>)
    ensures |r| == |cats|
    ensures forall i :: 0 <= i < |cats| ==>
              r[i] == NamedQty(cats[i].name, CategoryQtyIn(CurrentPeriod(txs, cal, start, end), cats[i].id))
    ensures CoversItems(CurrentPeriod(txs, cal, start, end), cats) ==>
              Sum(r, NamedQtyValue) == Sum(CurrentPeriod(txs, cal, start, end), AllItemsWeight(Qty))
  {
    var current := CurrentPeriod(txs, cal, start, end);
    var quantities := CategoryQuantities(current, cats);
    r := seq(|quantities|, i requires 0 <= i < |quantities| => NamedQty(quantities[i].category.name, quantities[i].qty));
    if CoversItems(current, cats) {
      CategoryQuantitiesConserve(current, cats, quantities);
      SumPointwise(r, NamedQtyValue, quantities, QtyValue);
    }
  }

  /** The charts `getPredictionData` forecasts: income, then one per category. */
  datatype Chart = IncomeChart | CategoryChart(name: string)

  /** What a chart adds up per day. */
  function ChartWeight(c: Chart): Transaction -> real {
    match c
    case IncomeChart => TxWeight(Total)
    case CategoryChart(name) => NamesWeight(Qty, [name])
  }

  /** The actual points and the forecast of one chart. */
  datatype ChartForecast = ChartForecast(actual: seq<Point>, forecasting: seq<Point>)

  /** What `getPredictionData` shows for one chart: the actual points cut from
      its daily series and the three forecasts trained on that series. */
  function ExpectedForecast(txs: seq<Transaction>, cal: Calendar, c: Chart, regress: Regressor): ChartForecast {
    var series := Buckets(txs, cal, ChartWeight(c));
    ChartForecast(ActualSeries(series), ForecastPoints(Rollout(TrainingSeries(series), regress, Rounds), cal.today))
  }

  /** One chart of `getPredictionData`: its daily series, the actual points cut
      from it, and the forecast, which fails when fewer than three days have
      passed since the epoch. */
  method ChartPrediction(txs: seq<Transaction>, cal: Calendar, c: Chart, regress: Regressor) returns (r: Result<ChartForecast>)
    ensures r.Failure? <==> cal.today < EpochDay + Window
    ensures r.Failure? ==> r.error == InvalidArrayLength(TrainingLength(cal.today) - Window)
    ensures r.Success? ==> r.value == ExpectedForecast(txs, cal, c, regress)
  {
    var series;
    match c {
      case IncomeChart =>
        series := DataTimeSeries(txs, cal, Total);
      case CategoryChart(name) =>
        series := DataCategoryTimeSeries(txs, cal, name);
    }
    var actual := ActualSeries(series);
    var train := TrainingSeries(series);
    TrainingSeriesShape(txs, cal, ChartWeight(c));
    var forecasting := RandomForestModel(train, cal.today, regress);
    if forecasting.Failure? {
      return Failure(forecasting.error);
    }
    r := Success(ChartForecast(actual, forecasting.value));
  }

  /** The payload of `getPredictionData`: income, then the six forecast categories. */
  datatype PredictionData = PredictionData(
    income: ChartForecast,
    freebase: ChartForecast,
    saltnic: ChartForecast,
    pod: ChartForecast,
    mod: ChartForecast,
    coil: ChartForecast,
    accessories: ChartForecast)

  /** `getPredictionData`: every chart's actual points and forecast, in the
      order the handler computes them. The income forecast runs first, and it
      fails exactly when fewer than three days have passed since the epoch; every
      training series has one value per day since then, so once it succeeds the
      six category forecasts succeed too. */
  method GetPredictionData(txs: seq<Transaction>, cal: Calendar, regress: Regressor) returns (r: Result<PredictionData>)
    ensures r.Failure? <==> cal.today < EpochDay + Window
    ensures r.Failure? ==> r.error == InvalidArrayLength(TrainingLength(cal.today) - Window)
    ensures r.Success? ==>
      && r.value.income == ExpectedForecast(txs, cal, IncomeChart, regress)
      && r.value.freebase == ExpectedForecast(txs, cal, CategoryChart("Freebase"), regress)
      && r.value.saltnic == ExpectedForecast(txs, cal, CategoryChart("Saltnic"), regress)
      && r.value.pod == ExpectedForecast(txs, cal, CategoryChart("Pod"), regress)
      && r.value.mod == ExpectedForecast(txs, cal, CategoryChart("Mod"), regress)
      && r.value.coil == ExpectedForecast(txs, cal, CategoryChart("Coil"), regress)
      && r.value.accessories == ExpectedForecast(txs, cal, CategoryChart("Accessories"), regress)
  {
    var income := ChartPrediction(txs, cal, IncomeChart, regress);
    if income.Failure? {
      return Failure(income.error);
    }
    var freebase := ChartPrediction(txs, cal, CategoryChart("Freebase"), regress);
    var saltnic := ChartPrediction(txs, cal, CategoryChart("Saltnic"), regress);
    var pod := ChartPrediction(txs, cal, CategoryChart("Pod"), regress);
    var mod := ChartPrediction(txs, cal, CategoryChart("Mod"), regress);
    var coil := ChartPrediction(txs, cal, CategoryChart("Coil"), regress);
    var accessories := ChartPrediction(txs, cal, CategoryChart("Accessories"), regress);
    assert freebase.Success? && saltnic.Success? && pod.Success? && mod.Success? && coil.Success? && accessories.Success?;
    r := Success(PredictionData(income.value, freebase.value, saltnic.value, pod.value, mod.value, coil.value,
                                accessories.value));
  }

  /** The days `lo, lo + 1, ...`, `n` of them, each with its bucket. */
  function DailyTotals(txs: seq<Transaction>, cal: Calendar, w: Transaction -> real, lo: Day, n: nat): (r: seq<real>)
    ensures |r| == n
  {
    seq(n, j requires 0 <= j < n => DayTotal(txs, cal, lo + j, w))
  }

  /** What a chart of `getPredictionData` means once a week has passed: the eight
      days ending today with their buckets, and three forecasts dated today and
      the two days after, so the first forecast shares its day with the last
      actual point; forecast `k` is what the forest predicts from the
      buckets of every day from the epoch to yesterday followed by the forecasts
      before it. */
  lemma {:induction false} ExpectedForecastMeaning(txs: seq<Transaction>, cal: Calendar, c: Chart, regress: Regressor)
    requires cal.today >= EpochDay + 7
    ensures var f := ExpectedForecast(txs, cal, c, regress);
      && |f.actual| == 8
      && (forall k :: 0 <= k < 8 ==>
            f.actual[k] == Point(cal.today - 7 + k, DayTotal(txs, cal, cal.today - 7 + k, ChartWeight(c))))
      && |f.forecasting| == Rounds
      && (forall k :: 0 <= k < Rounds ==> f.forecasting[k].x == cal.today + k)
      && f.forecasting[0].x == f.actual[7].x
      && (forall k :: 0 <= k < Rounds ==>
            f.forecasting[k].y == Predict(DailyTotals(txs, cal, ChartWeight(c), EpochDay, cal.today - EpochDay)
                                          + Values(f.forecasting)[..k], regress))
  {
    var w := ChartWeight(c);
    var series := Buckets(txs, cal, w);
    var f := ExpectedForecast(txs, cal, c, regress);
    ActualSeriesWeek(txs, cal, w);
    TrainingSeriesShape(txs, cal, w);
    var train := TrainingSeries(series);
    assert train == DailyTotals(txs, cal, w, EpochDay, cal.today - EpochDay);
    RolloutFeedsBack(train, regress, Rounds);
  }

  /** The training values stop one day short of the forecasts: the last of them
      is yesterday's bucket, and the first forecast is dated today. */
  lemma {:induction false} ForecastFollowsTraining(txs: seq<Transaction>, cal: Calendar, w: Transaction -> real)
    requires cal.today >= EpochDay + Window
    ensures |TrainingSeries(Buckets(txs, cal, w))| == cal.today - EpochDay
    ensures TrainingSeries(Buckets(txs, cal, w))[cal.today - EpochDay - 1] == DayTotal(txs, cal, cal.today - 1, w)
  {
    TrainingSeriesShape(txs, cal, w);
  }
}
