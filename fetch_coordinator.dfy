/**
 * The fetch coordinator of the HTTP server (`server/src/stockdata.rs`): one
 * `StockDataState` shared by the `/init`, `/close`, `/fetch`, `/status`,
 * `/price` and `/data` handlers. The browser client and the ChromeDriver
 * process are represented by presence flags; what the driver reports
 * (whether a client could be created, whether closing failed, what a price
 * scrape returned) is passed in. The background task spawned by `/fetch` is
 * the separate method `CompleteFetch`. Times are milliseconds.
 */
module FetchCoordinator {
  import opened Wrappers
  import opened StockRecord

  /** How a handler answers: the HTTP status class and its body or error text. */
  datatype Reply<+T> = Done(body: T) | BadRequest(message: string) | ServerFailure(message: string) | NotFound(message: string)

  const AlreadyInitialised: string := "WebDriver已经初始化"
  const InitSucceeded: string := "WebDriver初始化成功"
  const InitFailedPrefix: string := "WebDriver初始化失败: "
  const CloseWhileFetching: string := "数据抓取正在进行中, 无法关闭WebDriver"
  const NotInitialised: string := "WebDriver未初始化"
  const Closed: string := "WebDriver已关闭"
  const BrowserCloseFailedPrefix: string := "关闭浏览器失败: "
  const DriverKillFailedPrefix: string := "关闭ChromeDriver失败: "
  const Busy: string := "数据抓取正在进行中"
  const InitFirst: string := "WebDriver未初始化, 请先调用init接口"
  const FetchStarted: string := "数据抓取任务已启动"
  const NoData: string := "暂无数据, 请先调用/fetch接口抓取数据"
  const PriceFailedPrefix: string := "获取股票价格失败: "

  /** The price cache is refreshed once it is older than 60 seconds. */
  const PriceStaleAfterMs: int := 60000

  /** The body `/close` answers with when it proceeds. */
  datatype CloseReport = CloseReport(success: bool, message: string)

  /** The body of a started `/fetch`. */
  datatype FetchReport = FetchReport(success: bool, message: string, count: nat)

  /** The body of `/status`. */
  datatype Status = Status(initialized: bool, lastFetch: Option<int>, dataCount: nat)

  /** The body of a successful `/data`: one record when a code is asked for, all of them otherwise. */
  datatype DataBody = OneStock(stock: Record) | AllStocks(stocks: seq<Record>)

  /** The body of a successful `/price`. */
  datatype PriceBody = OnePrice(price: real) | AllPrices(prices: map<string, real>)

  /** The index of the first record with code `c`, or `|rs|` when there is none. */
  function FirstWithCode(rs: seq<Record>, c: string): (i: nat)
    ensures i <= |rs|
    ensures i < |rs| ==> rs[i].code == c
    ensures forall j :: 0 <= j < i ==> rs[j].code != c
  {
    if rs == [] then 0
    else if rs[0].code == c then 0
    else 1 + FirstWithCode(rs[1..], c)
  }

  /**
   * The answer of `/data` over the stored records: NotFound while nothing is
   * stored; with a code, the first record carrying it or NotFound; without
   * one, every record in stored order.
   */
  function DataLookup(data: seq<Record>, code: Option<string>): (r: Reply<DataBody>)
    ensures r.BadRequest? == false && r.ServerFailure? == false
    ensures data == [] ==> r == NotFound(NoData)
    ensures data != [] && code.None? ==> r == Done(AllStocks(data))
    ensures data != [] && code.Some? ==>
      (r.NotFound? <==> forall i :: 0 <= i < |data| ==> data[i].code != code.value)
      && (r.NotFound? ==> r.message == "未找到代码为" + code.value + "的股票数据")
    ensures r.Done? && code.Some? ==>
      exists i :: 0 <= i < |data| && r.body == OneStock(data[i]) && data[i].code == code.value
        && forall j :: 0 <= j < i ==> data[j].code != code.value
  {
    if data == [] then NotFound(NoData)
    else match code
      case None => Done(AllStocks(data))
      case Some(c) =>
        var i := FirstWithCode(data, c);
        if i < |data| then Done(OneStock(data[i]))
        else NotFound("未找到代码为" + c + "的股票数据")
  }

  /** The price answer once the cache is settled. */
  function PriceLookup(cache: map<string, real>, code: Option<string>): (r: Reply<PriceBody>)
    ensures r.Done? <==> (code.None? || code.value in cache)
    ensures r.Done? && code.Some? ==> r.body == OnePrice(cache[code.value])
    ensures r.Done? && code.None? ==> r.body == AllPrices(cache)
    ensures !r.Done? ==> r == NotFound("未找到代码为" + code.value + "的股票价格")
  {
    match code
    case None => Done(AllPrices(cache))
    case Some(c) =>
      if c in cache then Done(OnePrice(cache[c])) else NotFound("未找到代码为" + c + "的股票价格")
  }

  /**
   * `/price` scrapes again when the cache is empty or more than 60 seconds
   * old. The state invariant gives every filled cache a fetch time, so the
   * source's `unwrap` of that time never fails; the case without one is
   * read as fresh only to make the predicate total.
   */
  predicate PriceStale(cache: map<string, real>, last: Option<int>, now: int): (stale: bool)
    ensures cache == map[] ==> stale
    ensures cache != map[] ==> (stale <==> last.Some? && now - last.value > PriceStaleAfterMs)
  {
    cache == map[] || (last.Some? && now - last.value > PriceStaleAfterMs)
  }

  class StockDataState {
    var hasClient: bool
    var hasDriver: bool
    var isFetching: bool
    var fetchedData: seq<Record>
    var lastFetch: Option<int>
    var priceCache: map<string, real>
    var priceLastFetch: Option<int>

    /** A filled price cache always carries the time it was filled. */
    ghost predicate Valid()
      reads this`priceCache, this`priceLastFetch
    {
      priceCache != map[] ==> priceLastFetch.Some?
    }

    /** `StockDataState::new`: nothing initialised, nothing fetched. */
    constructor ()
      ensures Valid()
      ensures !hasClient && !hasDriver && !isFetching
      ensures fetchedData == [] && lastFetch == None
      ensures priceCache == map[] && priceLastFetch == None
    {
      hasClient, hasDriver, isFetching := false, false, false;
      fetchedData, lastFetch := [], None;
      priceCache, priceLastFetch := map[], None;
    }

    /**
     * `/init`. `created` is the outcome of starting ChromeDriver and
     * connecting a client to it.
     */
    method InitWebdriver(created: Result<(), string>) returns (r: Reply<string>)
      modifies this`hasClient, this`hasDriver
      ensures old(hasClient || hasDriver) ==>
        r == BadRequest(AlreadyInitialised) && hasClient == old(hasClient) && hasDriver == old(hasDriver)
      ensures !old(hasClient || hasDriver) && created.Ok? ==>
        r == Done(InitSucceeded) && hasClient && hasDriver
      ensures !old(hasClient || hasDriver) && created.Err? ==>
        r == ServerFailure(InitFailedPrefix + created.error) && !hasClient && !hasDriver
    {
      if hasDriver || hasClient {
        return BadRequest(AlreadyInitialised);
      }
      match created
      case Ok(_) =>
        hasClient, hasDriver := true, true;
        r := Done(InitSucceeded);
      case Err(e) =>
        r := ServerFailure(InitFailedPrefix + e);
    }

    /**
     * `/close`. `closeError` and `killError` say whether closing the browser
     * and killing ChromeDriver fail, and with what text; each is consulted
     * only when its handle is present.
     */
    method CloseWebdriver(closeError: Option<string>, killError: Option<string>) returns (r: Reply<CloseReport>)
      modifies this`hasClient, this`hasDriver
      ensures old(isFetching) ==>
        r == BadRequest(CloseWhileFetching) && hasClient == old(hasClient) && hasDriver == old(hasDriver)
      ensures !old(isFetching) && !old(hasClient) && !old(hasDriver) ==>
        r == BadRequest(NotInitialised) && !hasClient && !hasDriver
      ensures !old(isFetching) && (old(hasClient) || old(hasDriver)) ==>
        !hasClient && !hasDriver &&
        r == Done(CloseReport(
          !(old(hasClient) && closeError.Some?) && !(old(hasDriver) && killError.Some?),
          if old(hasDriver) && killError.Some? then DriverKillFailedPrefix + killError.value
          else if old(hasClient) && closeError.Some? then BrowserCloseFailedPrefix + closeError.value
          else Closed))
    {
      if isFetching {
        return BadRequest(CloseWhileFetching);
      }
      if !hasClient && !hasDriver {
        return BadRequest(NotInitialised);
      }
      var success := true;
      var message := Closed;
      if hasClient {
        hasClient := false;
        if closeError.Some? {
          success := false;
          message := BrowserCloseFailedPrefix + closeError.value;
        }
      }
      if hasDriver {
        hasDriver := false;
        if killError.Some? {
          success := false;
          message := DriverKillFailedPrefix + killError.value;
        }
      }
      r := Done(CloseReport(success, message));
    }

    /**
     * `/fetch`, up to the point where the scrape is handed to a background
     * task. A fetch already in progress is refused before the client is
     * looked at.
     */
    method FetchData(now: int) returns (r: Reply<FetchReport>)
      modifies this`isFetching, this`fetchedData, this`lastFetch
      ensures old(isFetching) ==> r == BadRequest(Busy) && unchanged(this)
      ensures !old(isFetching) && !hasClient ==> r == BadRequest(InitFirst) && unchanged(this)
      ensures !old(isFetching) && hasClient ==>
        r == Done(FetchReport(true, FetchStarted, 0)) &&
        isFetching && fetchedData == [] && lastFetch == Some(now)
    {
      if isFetching {
        return BadRequest(Busy);
      }
      if !hasClient {
        return BadRequest(InitFirst);
      }
      isFetching, fetchedData, lastFetch := true, [], Some(now);
      r := Done(FetchReport(true, FetchStarted, 0));
    }

    /** The background task's end: the lock is released, and the data replaced only on success. */
    method CompleteFetch(result: Result<seq<Record>, string>)
      modifies this`isFetching, this`fetchedData
      ensures !isFetching
      ensures fetchedData == if result.Ok? then result.value else old(fetchedData)
    {
      if result.Ok? {
        fetchedData := result.value;
      }
      isFetching := false;
    }

    /** `/status`. */
    method GetStatus() returns (s: Status)
      ensures s.initialized <==> hasClient
      ensures s.lastFetch == lastFetch && s.dataCount == |fetchedData|
    {
      s := Status(hasClient, lastFetch, |fetchedData|);
    }

    /** `/data`, with the optional `code` query parameter. */
    method GetStockdata(code: Option<string>) returns (r: Reply<DataBody>)
      ensures r == DataLookup(fetchedData, code)
    {
      r := DataLookup(fetchedData, code);
    }

    /**
     * `/price` as the server writes it. `refresh` is what a price scrape
     * returns; it is consulted only when the cache is stale. The lock taken
     * at the start is released on the refresh path only, so a request served
     * from the cache leaves `isFetching` set.
     */
    method GetPriceAsWritten(code: Option<string>, now: int, refresh: Result<map<string, real>, string>)
      returns (r: Reply<PriceBody>)
      requires Valid()
      modifies this`isFetching, this`priceCache, this`priceLastFetch
      ensures Valid()
      ensures old(isFetching) ==> r == BadRequest(Busy) && unchanged(this)
      ensures !old(isFetching) && !hasClient ==> r == BadRequest(InitFirst) && unchanged(this)
      ensures !old(isFetching) && hasClient && !PriceStale(old(priceCache), old(priceLastFetch), now) ==>
        isFetching && unchanged(this`priceCache, this`priceLastFetch) && r == PriceLookup(priceCache, code)
      ensures !old(isFetching) && hasClient && PriceStale(old(priceCache), old(priceLastFetch), now) ==>
        !isFetching &&
        (refresh.Err? ==> unchanged(this`priceCache, this`priceLastFetch) && r == ServerFailure(PriceFailedPrefix + refresh.error)) &&
        (refresh.Ok? ==> priceCache == refresh.value && priceLastFetch == Some(now) && r == PriceLookup(priceCache, code))
    {
      if isFetching {
        return BadRequest(Busy);
      }
      if !hasClient {
        return BadRequest(InitFirst);
      }
      isFetching := true;
      if PriceStale(priceCache, priceLastFetch, now) {
        isFetching := false;
        match refresh
        case Err(e) =>
          return ServerFailure(PriceFailedPrefix + e);
        case Ok(m) =>
          priceCache, priceLastFetch := m, Some(now);
      }
      r := PriceLookup(priceCache, code);
    }

    /**
     * `/price` with the lock released on every path, which is what the
     * `is_fetching` guard evidently intends: a request that is not refused
     * always leaves the state unlocked.
     */
    method GetPrice(code: Option<string>, now: int, refresh: Result<map<string, real>, string>)
      returns (r: Reply<PriceBody>)
      requires Valid()
      modifies this`isFetching, this`priceCache, this`priceLastFetch
      ensures Valid()
      ensures old(isFetching) ==> r == BadRequest(Busy) && unchanged(this)
      ensures !old(isFetching) && !hasClient ==> r == BadRequest(InitFirst) && unchanged(this)
      ensures !old(isFetching) && hasClient ==> !isFetching
      ensures !old(isFetching) && hasClient && !PriceStale(old(priceCache), old(priceLastFetch), now) ==>
        unchanged(this`priceCache, this`priceLastFetch) && r == PriceLookup(priceCache, code)
      ensures !old(isFetching) && hasClient && PriceStale(old(priceCache), old(priceLastFetch), now) ==>
        (refresh.Err? ==> unchanged(this`priceCache, this`priceLastFetch) && r == ServerFailure(PriceFailedPrefix + refresh.error)) &&
        (refresh.Ok? ==> priceCache == refresh.value && priceLastFetch == Some(now) && r == PriceLookup(priceCache, code))
    {
      if isFetching {
        return BadRequest(Busy);
      }
      if !hasClient {
        return BadRequest(InitFirst);
      }
      if PriceStale(priceCache, priceLastFetch, now) {
        match refresh
        case Err(e) =>
          return ServerFailure(PriceFailedPrefix + e);
        case Ok(m) =>
          priceCache, priceLastFetch := m, Some(now);
      }
      r := PriceLookup(priceCache, code);
    }
  }

  /** The price table both scenarios below are served. */
  const SamplePrices: map<string, real> := map["600000" := 10.0]

  /**
   * With the server's `/price`: a first request fills the cache, a second
   * one a second later is served from it, and every request after that is
   * refused as if a fetch were running, although none is; `/fetch` and
   * `/close` are refused the same way.
   */
  method CacheHitLocksOut() returns (third: Reply<PriceBody>, fetch: Reply<FetchReport>, close: Reply<CloseReport>)
    ensures third == BadRequest(Busy)
    ensures fetch == BadRequest(Busy)
    ensures close == BadRequest(CloseWhileFetching)
  {
    var s := new StockDataState();
    var init := s.InitWebdriver(Ok(()));
    var first := s.GetPriceAsWritten(None, 0, Ok(SamplePrices));
    assert "600000" in s.priceCache;
    var second := s.GetPriceAsWritten(None, 1000, Ok(SamplePrices));
    third := s.GetPriceAsWritten(None, 2000, Ok(SamplePrices));
    fetch := s.FetchData(3000);
    close := s.CloseWebdriver(None, None);
  }

  /** With the lock released, the same three requests are all answered from the cache. */
  method CacheHitServes() returns (third: Reply<PriceBody>, fetch: Reply<FetchReport>)
    ensures third == Done(AllPrices(SamplePrices))
    ensures fetch == Done(FetchReport(true, FetchStarted, 0))
  {
    var s := new StockDataState();
    var init := s.InitWebdriver(Ok(()));
    var first := s.GetPrice(None, 0, Ok(SamplePrices));
    assert "600000" in s.priceCache;
    var second := s.GetPrice(None, 1000, Ok(SamplePrices));
    third := s.GetPrice(None, 2000, Ok(SamplePrices));
    fetch := s.FetchData(3000);
  }
}
