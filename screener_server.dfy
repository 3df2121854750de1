/**
 * The older, self-contained HTTP server of the scraper crate
 * (`stockdata/src/server.rs`): an `AppState` with the ChromeDriver process,
 * the browser client, the scraped stocks and an `is_running` flag, the
 * handlers over it, and `perform_fetch`, the chain of driver steps a fetch
 * runs in the background. Driver outcomes are passed in; the background
 * completion is the separate method `CompleteFetch`.
 */
module ScreenerServer {
  import opened Wrappers
  import opened StockRecord
  import opened FetchCoordinator

  // The messages this server shares with the HTTP server's coordinator are
  // taken from there; the ones below are its own (two differ only in using a
  // full-width comma).
  const CloseWhileRunning: string := "数据抓取正在进行中，无法关闭WebDriver"
  const InitFirstHere: string := "WebDriver未初始化，请先调用init接口"
  const NoStocks: string := "没有可用的股票数据，请先抓取数据"

  const DriverStartFailedPrefix: string := "启动ChromeDriver失败: "
  const ConnectFailedPrefix: string := "连接到WebDriver失败: "
  const NavigationFailedPrefix: string := "打开TradingView页面失败: "
  const PageLoadFailedPrefix: string := "等待页面加载失败: "
  const ScrollFailedPrefix: string := "滚动加载失败: "
  const DataFailedPrefix: string := "获取股票数据失败: "

  /** The body of `/status`. */
  datatype RunStatus = RunStatus(isRunning: bool, stocksCount: nat)

  /**
   * `create_webdriver_client`: start ChromeDriver, then connect a client to
   * it. When the connection fails the driver just started is killed again,
   * so a failure leaves neither handle behind.
   */
  function CreateWebdriverClient(started: Result<(), string>, connected: Result<(), string>): (r: Result<(), string>)
    ensures r.Ok? <==> started.Ok? && connected.Ok?
    ensures started.Err? ==> r == Err(DriverStartFailedPrefix + started.error)
    ensures started.Ok? && connected.Err? ==> r == Err(ConnectFailedPrefix + connected.error)
  {
    if started.Err? then Err(DriverStartFailedPrefix + started.error)
    else if connected.Err? then Err(ConnectFailedPrefix + connected.error)
    else Ok(())
  }

  /**
   * `perform_fetch`: open the screener page, wait for it to load, scroll
   * every row in, then read every tab. The first step that fails aborts the
   * fetch with its own message; saving the result to a file is attempted
   * when asked for, and its failure is only logged.
   */
  function PerformFetch(navigated: Result<(), string>, loaded: Result<(), string>, scrolled: Result<(), string>,
                        fetched: Result<seq<Record>, string>, saveToFile: bool, saved: Result<(), string>)
    : (r: Result<seq<Record>, string>)
    ensures r.Ok? <==> navigated.Ok? && loaded.Ok? && scrolled.Ok? && fetched.Ok?
    ensures r.Ok? ==> r.value == fetched.value
    ensures navigated.Err? ==> r == Err(NavigationFailedPrefix + navigated.error)
    ensures navigated.Ok? && loaded.Err? ==> r == Err(PageLoadFailedPrefix + loaded.error)
    ensures navigated.Ok? && loaded.Ok? && scrolled.Err? ==> r == Err(ScrollFailedPrefix + scrolled.error)
    ensures navigated.Ok? && loaded.Ok? && scrolled.Ok? && fetched.Err? ==> r == Err(DataFailedPrefix + fetched.error)
  {
    if navigated.Err? then Err(NavigationFailedPrefix + navigated.error)
    else if loaded.Err? then Err(PageLoadFailedPrefix + loaded.error)
    else if scrolled.Err? then Err(ScrollFailedPrefix + scrolled.error)
    else if fetched.Err? then Err(DataFailedPrefix + fetched.error)
    else Ok(fetched.value)
  }

  /** Whether the result is saved, and whether saving works, never changes what a fetch returns. */
  lemma SavingNeverAborts(navigated: Result<(), string>, loaded: Result<(), string>, scrolled: Result<(), string>,
                          fetched: Result<seq<Record>, string>, saveToFile: bool, saved: Result<(), string>)
    ensures PerformFetch(navigated, loaded, scrolled, fetched, saveToFile, saved)
         == PerformFetch(navigated, loaded, scrolled, fetched, false, Ok(()))
  {
  }

  class AppState {
    var hasDriver: bool
    var hasClient: bool
    var stocks: seq<Record>
    var isRunning: bool

    /** `AppState::new`. */
    constructor ()
      ensures !hasDriver && !hasClient && stocks == [] && !isRunning
    {
      hasDriver, hasClient, stocks, isRunning := false, false, [], false;
    }

    /** `/init`, with the two outcomes `create_webdriver_client` depends on. */
    method InitWebdriver(started: Result<(), string>, connected: Result<(), string>) returns (r: Reply<string>)
      modifies this`hasDriver, this`hasClient
      ensures old(hasDriver || hasClient) ==>
        r == BadRequest(AlreadyInitialised) && hasDriver == old(hasDriver) && hasClient == old(hasClient)
      ensures !old(hasDriver || hasClient) ==>
        var created := CreateWebdriverClient(started, connected);
        (created.Ok? ==> r == Done(InitSucceeded) && hasDriver && hasClient) &&
        (created.Err? ==> r == ServerFailure(created.error) && !hasDriver && !hasClient)
    {
      if hasDriver || hasClient {
        return BadRequest(AlreadyInitialised);
      }
      var created := CreateWebdriverClient(started, connected);
      match created
      case Ok(_) =>
        hasDriver, hasClient := true, true;
        r := Done(InitSucceeded);
      case Err(e) =>
        r := ServerFailure(e);
    }

    /**
     * `/close`. Unlike the coordinator in the HTTP server, this one proceeds
     * even when nothing was initialised, and then reports success.
     */
    method CloseWebdriver(closeError: Option<string>, killError: Option<string>) returns (r: Reply<CloseReport>)
      modifies this`hasDriver, this`hasClient
      ensures old(isRunning) ==>
        r == BadRequest(CloseWhileRunning) && hasDriver == old(hasDriver) && hasClient == old(hasClient)
      ensures !old(isRunning) ==>
        !hasDriver && !hasClient &&
        r == Done(CloseReport(
          !(old(hasClient) && closeError.Some?) && !(old(hasDriver) && killError.Some?),
          if old(hasDriver) && killError.Some? then DriverKillFailedPrefix + killError.value
          else if old(hasClient) && closeError.Some? then BrowserCloseFailedPrefix + closeError.value
          else Closed))
    {
      if isRunning {
        return BadRequest(CloseWhileRunning);
      }
      var success := true;
      var message := Closed;
      if hasClient {
        hasClient := false;
        if closeError.Some? {
          success := false;
          message := BrowserCloseFailedPrefix + closeError.value;
        }
      }
      if hasDriver {
        hasDriver := false;
        if killError.Some? {
          success := false;
          message := DriverKillFailedPrefix + killError.value;
        }
      }
      r := Done(CloseReport(success, message));
    }

    /** `/fetch`, up to the hand-over to the background task; `is_running` is checked first. */
    method FetchData() returns (r: Reply<FetchReport>)
      modifies this`isRunning, this`stocks
      ensures old(isRunning) ==> r == BadRequest(Busy) && unchanged(this)
      ensures !old(isRunning) && !hasClient ==> r == BadRequest(InitFirstHere) && unchanged(this)
      ensures !old(isRunning) && hasClient ==>
        r == Done(FetchReport(true, FetchStarted, 0)) && isRunning && stocks == []
    {
      if isRunning {
        return BadRequest(Busy);
      }
      if !hasClient {
        return BadRequest(InitFirstHere);
      }
      isRunning, stocks := true, [];
      r := Done(FetchReport(true, FetchStarted, 0));
    }

    /** The background task's end, given what `perform_fetch` returned. */
    method CompleteFetch(result: Result<seq<Record>, string>)
      modifies this`isRunning, this`stocks
      ensures !isRunning
      ensures stocks == if result.Ok? then result.value else old(stocks)
    {
      if result.Ok? {
        stocks := result.value;
      }
      isRunning := false;
    }

    /** `/status`. */
    method GetStatus() returns (s: RunStatus)
      ensures s.isRunning == isRunning && s.stocksCount == |stocks|
    {
      s := RunStatus(isRunning, |stocks|);
    }

    /** `/data`: every stored stock, or NotFound while there are none. */
    method GetData() returns (r: Reply<seq<Record>>)
      ensures r.Done? <==> stocks != []
      ensures r.Done? ==> r.body == stocks
      ensures !r.Done? ==> r == NotFound(NoStocks)
    {
      if stocks == [] {
        return NotFound(NoStocks);
      }
      r := Done(stocks);
    }
  }

  /**
   * A fetch whose scrape fails leaves the server with no stocks, ready for
   * another fetch: the stocks were cleared when the fetch started and the
   * failure does not restore them.
   */
  method FailedFetchLeavesNothing(cause: string) returns (data: Reply<seq<Record>>, again: Reply<FetchReport>)
    ensures data == NotFound(NoStocks)
    ensures again == Done(FetchReport(true, FetchStarted, 0))
  {
    var s := new AppState();
    var init := s.InitWebdriver(Ok(()), Ok(()));
    var started := s.FetchData();
    s.CompleteFetch(PerformFetch(Ok(()), Ok(()), Err(cause), Ok([]), true, Ok(())));
    data := s.GetData();
    again := s.FetchData();
  }
}
