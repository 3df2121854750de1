/**
 * The control logic of stockdata/src/scraper.rs with the browser taken out:
 * every reply of the driver is an input. Covered are the stabilisation loop
 * of `scroll_to_load_all`, the result check of `switch_to_tab`, the
 * empty-result fallback of `fetch_stock_data_from_tab` and the tab fold of
 * `fetch_stock_data`.
 */
module Scraper {
  import opened Wrappers
  import opened StockRecord
  import Json
  import Tabs
  import RowParser
  import SourceMerge

  /** The loop stops once this many consecutive polls showed no new rows. */
  const QuietPollLimit: nat := 30

  /** What one pass of the loop gets back from the two scripts it runs. */
  datatype Poll =
    | ScrollFailed          // the scrolling script returned an error
    | CountFailed           // the row-count script returned an error
    | Counted(reply: Json.Json)

  /** `last_count` and `noupdate_times`. */
  datatype Counter = Counter(lastCount: int, quiet: nat)

  /** How the loop ends on a finite list of polls. */
  datatype ScrollOutcome =
    | Loaded(polls: nat)       // `break` after this many polls
    | DriverError(polls: nat)  // a script failed on this poll (`?`)
    | StillLoading(last: Counter)  // the polls ran out before the loop stopped

  /** `js_result.as_i64().unwrap_or(0)`. */
  function RowCount(reply: Json.Json): (n: int)
    ensures Json.AsI64(reply).Some? ==> n == reply.i
    ensures Json.AsI64(reply).None? ==> n == 0
  {
    Json.AsI64(reply).GetOr(0)
  }

  /** One pass of the counter logic. */
  function Observe(c: Counter, count: int): (c': Counter)
    ensures count != 0 && count != c.lastCount ==> c' == Counter(count, 0)
    ensures count == 0 || count == c.lastCount ==> c' == Counter(c.lastCount, c.quiet + 1)
  {
    if count == c.lastCount || count == 0 then Counter(c.lastCount, c.quiet + 1) else Counter(count, 0)
  }

  /** The loop run on `polls`, `done` polls having been used already. */
  function Run(c: Counter, polls: seq<Poll>, done: nat): ScrollOutcome
    decreases |polls|
  {
    if polls == [] then StillLoading(c)
    else
      match polls[0]
      case ScrollFailed => DriverError(done + 1)
      case CountFailed => DriverError(done + 1)
      case Counted(reply) =>
        var c' := Observe(c, RowCount(reply));
        if c'.quiet > QuietPollLimit then Loaded(done + 1) else Run(c', polls[1..], done + 1)
  }

  /** `scroll_to_load_all` on a given sequence of driver replies. */
  method ScrollToLoadAll(polls: seq<Poll>) returns (outcome: ScrollOutcome)
    ensures outcome == Run(Counter(0, 0), polls, 0)
  {
    var lastCount := 0;
    var quiet := 0;
    var i := 0;
    while true
      invariant 0 <= i <= |polls|
      invariant quiet <= QuietPollLimit
      invariant Run(Counter(lastCount, quiet), polls[i..], i) == Run(Counter(0, 0), polls, 0)
      decreases |polls| - i
    {
      if i == |polls| {
        return StillLoading(Counter(lastCount, quiet));
      }
      assert polls[i..][1..] == polls[i + 1..];
      match polls[i]
      case ScrollFailed =>
        return DriverError(i + 1);
      case CountFailed =>
        return DriverError(i + 1);
      case Counted(reply) =>
        var count := RowCount(reply);
        if count == lastCount || count == 0 {
          quiet := quiet + 1;
          if quiet > QuietPollLimit {
            return Loaded(i + 1);
          }
        } else {
          quiet := 0;
          lastCount := count;
        }
      i := i + 1;
    }
  }

  /** A poll whose count is 0 or repeats `last`. */
  predicate Quiet(p: Poll, last: int)
  {
    p.Counted? && (RowCount(p.reply) == 0 || RowCount(p.reply) == last)
  }

  /**
   * From `quiet` already-quiet polls, the loop stops exactly on the poll
   * that makes the count of quiet polls 31.
   */
  lemma {:induction false} StopsOnThirtyFirstQuietPoll(c: Counter, polls: seq<Poll>, done: nat)
    requires c.quiet <= QuietPollLimit
    requires |polls| >= QuietPollLimit + 1 - c.quiet
    requires forall k :: 0 <= k < QuietPollLimit + 1 - c.quiet ==> Quiet(polls[k], c.lastCount)
    ensures Run(c, polls, done) == Loaded(done + QuietPollLimit + 1 - c.quiet)
    decreases QuietPollLimit - c.quiet
  {
    assert Quiet(polls[0], c.lastCount);
    var c' := Observe(c, RowCount(polls[0].reply));
    if c'.quiet <= QuietPollLimit {
      forall k | 0 <= k < QuietPollLimit + 1 - c'.quiet
        ensures Quiet(polls[1..][k], c'.lastCount)
      {
        assert polls[1..][k] == polls[k + 1];
      }
      StopsOnThirtyFirstQuietPoll(c', polls[1..], done + 1);
    }
  }

  /** Every poll reports a new, non-zero row count. */
  predicate KeepsGrowing(last: int, polls: seq<Poll>)
    decreases |polls|
  {
    polls == [] ||
    (polls[0].Counted? && RowCount(polls[0].reply) != 0 && RowCount(polls[0].reply) != last
     && KeepsGrowing(RowCount(polls[0].reply), polls[1..]))
  }

  /** While the row count keeps changing the loop never stops. */
  lemma {:induction false} NoStopWhileGrowing(c: Counter, polls: seq<Poll>, done: nat)
    requires KeepsGrowing(c.lastCount, polls)
    ensures Run(c, polls, done).StillLoading?
    decreases |polls|
  {
    if polls != [] {
      NoStopWhileGrowing(Counter(RowCount(polls[0].reply), 0), polls[1..], done + 1);
    }
  }

  /** The loop never stops before 31 polls in a row have been quiet. */
  lemma {:induction false} LoadedNeedsQuietPolls(c: Counter, polls: seq<Poll>, done: nat, n: nat)
    requires c.quiet <= QuietPollLimit
    requires Run(c, polls, done) == Loaded(n)
    ensures n >= done + QuietPollLimit + 1 - c.quiet
    decreases |polls|
  {
    match polls[0]
    case Counted(reply) =>
      var c' := Observe(c, RowCount(reply));
      if c'.quiet <= QuietPollLimit {
        LoadedNeedsQuietPolls(c', polls[1..], done + 1, n);
      }
  }

  /** The error of a tab the click script did not find: "找不到<caption>标签页". */
  function TabNotFound(tab: Tabs.TabType): (msg: string)
    ensures |msg| == |Tabs.Name(tab)| + 6
    ensures msg[..3] == "找不到" && msg[|msg| - 3..] == "标签页"
    ensures msg[3..|msg| - 3] == Tabs.Name(tab)
  {
    "找不到" + Tabs.Name(tab) + "标签页"
  }

  /** `switch_to_tab`: it fails unless the click script returned the boolean `true`. */
  function SwitchToTab(tab: Tabs.TabType, clicked: Result<Json.Json, string>): (r: Result<(), string>)
    ensures r.Ok? <==> clicked == Ok(Json.JBool(true))
    ensures clicked.Err? ==> r == Err(clicked.error)
    ensures clicked.Ok? && !r.Ok? ==> r == Err(TabNotFound(tab))
  {
    match clicked
    case Err(e) => Err(e)
    case Ok(v) => if Json.AsBool(v).GetOr(false) then Ok(()) else Err(TabNotFound(tab))
  }

  /**
   * `fetch_stock_data_from_tab`: switch, run the extraction script, decode
   * its text (`"[]"` when the reply is not a string) and parse the rows.
   * `decode` stands for `serde_json::from_str`.
   */
  function FetchStockDataFromTab(tab: Tabs.TabType, clicked: Result<Json.Json, string>,
                                 script: Result<Json.Json, string>,
                                 decode: string -> Result<Json.Json, string>): (r: Result<seq<Record>, string>)
    ensures r.Ok? <==> clicked == Ok(Json.JBool(true)) && script.Ok?
                       && decode(Json.AsStr(script.value).GetOr("[]")).Ok?
    ensures r.Ok? ==> r.value == RowParser.ParsedRows(decode(Json.AsStr(script.value).GetOr("[]")).value, tab)
  {
    if SwitchToTab(tab, clicked).Err? then Err(SwitchToTab(tab, clicked).error)
    else if script.Err? then Err(script.error)
    else
      var text := Json.AsStr(script.value).GetOr("[]");
      match decode(text)
      case Err(e) => Err(e)
      case Ok(js) => Ok(RowParser.ParsedRows(js, tab))
  }

  /** A script reply that is not a string is read as `"[]"`, which yields no records. */
  lemma NonStringReplyYieldsNothing(tab: Tabs.TabType, script: Json.Json,
                                   decode: string -> Result<Json.Json, string>)
    requires decode("[]") == Ok(Json.JArray([]))
    requires !script.JString?
    ensures FetchStockDataFromTab(tab, Ok(Json.JBool(true)), Ok(script), decode) == Ok([])
  {
  }

  /** The record lists of the tabs whose fetch succeeded, in visiting order. */
  function Successes(tabs: seq<Tabs.TabType>, fetched: Tabs.TabType -> Result<seq<Record>, string>): (sources: seq<seq<Record>>)
    ensures |sources| <= |tabs|
  {
    if tabs == [] then []
    else
      var last := tabs[|tabs| - 1];
      Successes(tabs[..|tabs| - 1], fetched) + (if fetched(last).Ok? then [fetched(last).value] else [])
  }

  /**
   * `fetch_stock_data`: every tab of `TabType::all()` in order, failed tabs
   * skipped, the rest merged by `merge_stock_data_sources`. It never fails.
   * `fetched(tab)` is what `fetch_stock_data_from_tab` returned for `tab`.
   */
  method FetchStockData(fetched: Tabs.TabType -> Result<seq<Record>, string>) returns (result: Result<seq<Record>, string>)
    ensures result.Ok?
    ensures var all := SourceMerge.Flatten(Successes(Tabs.All(), fetched));
            && (forall i, j :: 0 <= i < j < |result.value| ==> result.value[i].code != result.value[j].code)
            && SourceMerge.Codes(result.value) == SourceMerge.Codes(all)
            && forall i :: 0 <= i < |result.value| ==>
                 result.value[i].code in SourceMerge.MergeAll(all) && result.value[i] == SourceMerge.MergeAll(all)[result.value[i].code]
  {
    var tabs := Tabs.All();
    var sources: seq<seq<Record>> := [];
    var i := 0;
    while i < |tabs|
      invariant 0 <= i <= |tabs|
      invariant sources == Successes(tabs[..i], fetched)
    {
      var tab := tabs[i];
      assert tabs[..i + 1][..i] == tabs[..i];
      if fetched(tab).Ok? {
        sources := sources + [fetched(tab).value];
      }
      i := i + 1;
    }
    assert tabs[..i] == tabs;
    var merged := SourceMerge.MergeStockDataSources(sources);
    result := Ok(merged);
  }

  /** When every tab fails the fetch still succeeds, with no records. */
  lemma AllTabsFailing(fetched: Tabs.TabType -> Result<seq<Record>, string>, tabs: seq<Tabs.TabType>)
    requires forall t :: fetched(t).Err?
    ensures Successes(tabs, fetched) == []
    ensures SourceMerge.Codes(SourceMerge.Flatten(Successes(tabs, fetched))) == {}
  {
  }
}
