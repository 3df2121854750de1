/**
 * The command line of the interactive client (`client/src/main.rs`): how
 * one input line is classified by `main` and the three sub-command
 * handlers, and which HTTP request, if any, the client then sends. Reading
 * the line, sending the request and printing the answer are not modelled.
 */
module ClientCommands {
  import opened Wrappers
  import opened Json
  import opened Text

  const BaseUrl: string := "http://127.0.0.1:8080/api"

  datatype StockdataCommand = Init | Fetch | Close | StockdataStatus | UnknownStockdata

  datatype PositionCommand =
    | ListPositions
    | AddPosition(code: string, amount: string)
    | RemovePosition(code: string, amount: string)
    | AddUsage
    | RemoveUsage
    | UnknownPosition

  datatype StrategyCommand = ListStrategies | Run(name: string) | Backtest(name: string) | UnknownStrategy

  datatype Command =
    | Exit
    | Help
    | ServerStatus
    | Stockdata(stockdata: StockdataCommand)
    | Position(position: PositionCommand)
    | Strategy(strategy: StrategyCommand)
    | Unknown

  /** Two words that differ at position `k` cannot both lead the same line. */
  lemma Apart(s: string, p: string, q: string, k: nat)
    requires k < |p| && k < |q| && p[k] != q[k]
    ensures !(StartsWith(s, p) && StartsWith(s, q))
  {
  }

  /** `handle_stockdata_command`: exactly four sub-commands, each recognised only when typed exactly. */
  function ParseStockdata(cmd: string): (c: StockdataCommand)
    ensures c != UnknownStockdata ==> StockdataText(c) == cmd
    ensures c == UnknownStockdata <==> cmd != "init" && cmd != "fetch" && cmd != "close" && cmd != "status"
  {
    if cmd == "init" then Init
    else if cmd == "fetch" then Fetch
    else if cmd == "close" then Close
    else if cmd == "status" then StockdataStatus
    else UnknownStockdata
  }

  /**
   * `add` and `remove` of `handle_position_command`: the rest split on
   * whitespace; the first two parts are code and amount, further parts are
   * ignored, and fewer than two give the usage line.
   */
  function ParseAmendment(rest: string, adding: bool): (c: PositionCommand)
    ensures c.AddPosition? || c.RemovePosition? || c.AddUsage? || c.RemoveUsage?
    ensures c.AddPosition? || c.AddUsage? <==> adding
    ensures c.AddPosition? || c.RemovePosition? <==> |SplitWhitespace(rest)| >= 2
    ensures c.AddPosition? || c.RemovePosition? ==>
      c.code == SplitWhitespace(rest)[0] && c.amount == SplitWhitespace(rest)[1]
  {
    var parts := SplitWhitespace(rest);
    if |parts| >= 2 then
      if adding then AddPosition(parts[0], parts[1]) else RemovePosition(parts[0], parts[1])
    else if adding then AddUsage else RemoveUsage
  }

  /** `handle_position_command`: `list`, or a change led by `add ` or `remove `. */
  function ParsePosition(cmd: string): (c: PositionCommand)
    ensures c == ListPositions <==> cmd == "list"
    ensures c.AddPosition? || c.AddUsage? <==> StartsWith(cmd, "add ")
    ensures c.RemovePosition? || c.RemoveUsage? <==> StartsWith(cmd, "remove ")
    ensures c == UnknownPosition <==> cmd != "list" && !StartsWith(cmd, "add ") && !StartsWith(cmd, "remove ")
  {
    Apart(cmd, "list", "add ", 0);
    Apart(cmd, "list", "remove ", 0);
    Apart(cmd, "add ", "remove ", 0);
    if cmd == "list" then ListPositions
    else if StartsWith(cmd, "add ") then ParseAmendment(cmd[4..], true)
    else if StartsWith(cmd, "remove ") then ParseAmendment(cmd[7..], false)
    else UnknownPosition
  }

  /** `handle_strategy_command`: `run` and `backtest` take everything after them as the name. */
  function ParseStrategy(cmd: string): (c: StrategyCommand)
    ensures c == ListStrategies <==> cmd == "list"
    ensures c.Run? <==> StartsWith(cmd, "run ")
    ensures c.Run? ==> cmd == "run " + c.name
    ensures c.Backtest? <==> StartsWith(cmd, "backtest ")
    ensures c.Backtest? ==> cmd == "backtest " + c.name
    ensures c == UnknownStrategy <==> cmd != "list" && !StartsWith(cmd, "run ") && !StartsWith(cmd, "backtest ")
  {
    Apart(cmd, "list", "run ", 0);
    Apart(cmd, "list", "backtest ", 0);
    Apart(cmd, "run ", "backtest ", 0);
    if cmd == "list" then ListStrategies
    else if StartsWith(cmd, "run ") then Run(cmd[4..])
    else if StartsWith(cmd, "backtest ") then Backtest(cmd[9..])
    else UnknownStrategy
  }

  /** The `match` of `main` on the trimmed line. */
  function Classify(input: string): (c: Command)
    ensures c == Exit <==> input == "exit" || input == "quit"
    ensures c == Help <==> input == "help"
    ensures c == ServerStatus <==> input == "status"
    ensures c.Stockdata? <==> StartsWith(input, "stockdata ")
    ensures c.Position? <==> StartsWith(input, "position ")
    ensures c.Strategy? <==> StartsWith(input, "strategy ")
    ensures c == Unknown <==>
      input != "exit" && input != "quit" && input != "help" && input != "status"
      && !StartsWith(input, "stockdata ") && !StartsWith(input, "position ") && !StartsWith(input, "strategy ")
  {
    Apart(input, "stockdata ", "position ", 0);
    Apart(input, "stockdata ", "strategy ", 2);
    Apart(input, "position ", "strategy ", 0);
    if input == "exit" || input == "quit" then Exit
    else if input == "help" then Help
    else if input == "status" then ServerStatus
    else if StartsWith(input, "stockdata ") then Stockdata(ParseStockdata(input[10..]))
    else if StartsWith(input, "position ") then Position(ParsePosition(input[9..]))
    else if StartsWith(input, "strategy ") then Strategy(ParseStrategy(input[9..]))
    else Unknown
  }

  /** One line typed at the prompt: surrounding whitespace is ignored, so a blank line is unknown. */
  function Parse(line: string): (c: Command)
    ensures c == Exit <==> Trim(line) == "exit" || Trim(line) == "quit"
    ensures c == Help <==> Trim(line) == "help"
    ensures Trim(line) == [] ==> c == Unknown
  {
    Classify(Trim(line))
  }

  /** The address of a server endpoint. */
  function Url(path: string): (u: string)
    ensures StartsWith(u, BaseUrl) && u[|BaseUrl|..] == path
  {
    BaseUrl + path
  }

  /** An HTTP request the client sends. */
  datatype Request = Get(url: string) | Post(url: string, body: Option<Json>)

  /** The body of a position change: code and amount, both as the strings typed. */
  function Amendment(code: string, amount: string): Json
  {
    JObject(map["code" := JString(code), "amount" := JString(amount)])
  }

  /**
   * The commands the client answers itself, sending nothing: exit, help,
   * the usage lines and every unknown command or sub-command.
   */
  predicate SendsNothing(c: Command)
  {
    c.Exit? || c.Help? || c.Unknown? || c == Stockdata(UnknownStockdata)
    || (c.Position? && (c.position.AddUsage? || c.position.RemoveUsage? || c.position.UnknownPosition?))
    || c == Strategy(UnknownStrategy)
  }

  /** An endpoint path below a group's prefix gives an address below that group. */
  lemma UrlUnder(group: string, rest: string)
    ensures StartsWith(Url(group + rest), BaseUrl + group)
  {
    assert Url(group + rest) == (BaseUrl + group) + rest;
  }

  /**
   * What the client sends for a command: a request exactly for the commands
   * it does not answer itself, always below the base URL, and for each
   * group of sub-commands below that group's path.
   */
  function RequestFor(c: Command): (r: Option<Request>)
    ensures r.None? <==> SendsNothing(c)
    ensures r.Some? ==> StartsWith(r.value.url, BaseUrl)
    ensures c == ServerStatus ==> r == Some(Get(BaseUrl + "/status"))
    ensures c.Stockdata? && r.Some? ==> StartsWith(r.value.url, BaseUrl + "/stockdata/")
    ensures c.Position? && r.Some? ==> StartsWith(r.value.url, BaseUrl + "/position/")
    ensures c.Strategy? && r.Some? ==> StartsWith(r.value.url, BaseUrl + "/strategy/")
    ensures c == Stockdata(Fetch) ==> r.Some? && r.value.Post? && r.value.body == Some(JObject(map["save_to_file" := JBool(true)]))
  {
    UrlUnder("/stockdata/", "init");
    UrlUnder("/stockdata/", "fetch");
    UrlUnder("/stockdata/", "close");
    UrlUnder("/stockdata/", "status");
    UrlUnder("/position/", "list");
    UrlUnder("/position/", "add");
    UrlUnder("/position/", "remove");
    UrlUnder("/strategy/", "list");
    UrlUnder("/strategy/", "run");
    UrlUnder("/strategy/", "backtest");
    match c
    case Exit => None
    case Help => None
    case Unknown => None
    case ServerStatus => Some(Get(Url("/status")))
    case Stockdata(s) =>
      (match s
       case Init => Some(Post(Url("/stockdata/init"), None))
       case Fetch => Some(Post(Url("/stockdata/fetch"), Some(JObject(map["save_to_file" := JBool(true)]))))
       case Close => Some(Post(Url("/stockdata/close"), None))
       case StockdataStatus => Some(Get(Url("/stockdata/status")))
       case UnknownStockdata => None)
    case Position(p) =>
      (match p
       case ListPositions => Some(Get(Url("/position/list")))
       case AddPosition(code, amount) => Some(Post(Url("/position/add"), Some(Amendment(code, amount))))
       case RemovePosition(code, amount) => Some(Post(Url("/position/remove"), Some(Amendment(code, amount))))
       case AddUsage => None
       case RemoveUsage => None
       case UnknownPosition => None)
    case Strategy(s) =>
      (match s
       case ListStrategies => Some(Get(Url("/strategy/list")))
       case Run(name) => Some(Post(Url("/strategy/run"), Some(JObject(map["name" := JString(name)]))))
       case Backtest(name) => Some(Post(Url("/strategy/backtest"), Some(JObject(map["name" := JString(name)]))))
       case UnknownStrategy => None)
  }

  /**
   * A typed line reaches only its own group's endpoints: a line led by
   * "stockdata ", "position " or "strategy " sends, if anything, a request
   * below that group's path, and a blank line sends nothing.
   */
  lemma LineReachesItsGroup(line: string)
    ensures var t, r := Trim(line), RequestFor(Parse(line));
      (StartsWith(t, "stockdata ") && r.Some? ==> StartsWith(r.value.url, BaseUrl + "/stockdata/"))
      && (StartsWith(t, "position ") && r.Some? ==> StartsWith(r.value.url, BaseUrl + "/position/"))
      && (StartsWith(t, "strategy ") && r.Some? ==> StartsWith(r.value.url, BaseUrl + "/strategy/"))
      && (t == [] ==> r.None?)
  {
  }

  /** A name a line can end with: not empty, and not ending in whitespace, which `trim` would cut. */
  predicate Tail(name: string)
  {
    name != [] && !IsWhitespace(name[|name| - 1])
  }

  /** The commands whose typed form survives the line's trimming and splitting. */
  predicate WellFormed(c: Command)
  {
    match c
    case Position(AddPosition(code, amount)) => Token(code) && Token(amount)
    case Position(RemovePosition(code, amount)) => Token(code) && Token(amount)
    case Strategy(Run(name)) => Tail(name)
    case Strategy(Backtest(name)) => Tail(name)
    case _ => true
  }

  /** How a user types a stockdata sub-command; the unknown one by a line that yields it. */
  function StockdataText(s: StockdataCommand): string
  {
    match s
    case Init => "init"
    case Fetch => "fetch"
    case Close => "close"
    case StockdataStatus => "status"
    case UnknownStockdata => "?"
  }

  /** How a user types a position sub-command; the usage lines and the unknown one by lines that yield them. */
  function PositionText(p: PositionCommand): string
  {
    match p
    case ListPositions => "list"
    case AddPosition(code, amount) => "add " + (code + (" " + amount))
    case RemovePosition(code, amount) => "remove " + (code + (" " + amount))
    case AddUsage => "add " + "?"
    case RemoveUsage => "remove " + "?"
    case UnknownPosition => "?"
  }

  function StrategyText(s: StrategyCommand): string
  {
    match s
    case ListStrategies => "list"
    case Run(name) => "run " + name
    case Backtest(name) => "backtest " + name
    case UnknownStrategy => "?"
  }

  /** How a user types a command; an unknown one by the empty line. */
  function Render(c: Command): string
  {
    match c
    case Exit => "exit"
    case Help => "help"
    case ServerStatus => "status"
    case Unknown => ""
    case Stockdata(s) => "stockdata " + StockdataText(s)
    case Position(p) => "position " + PositionText(p)
    case Strategy(s) => "strategy " + StrategyText(s)
  }

  /** A line with no whitespace at either end is left alone by `trim`. */
  lemma TrimNothing(s: string)
    requires s == [] || (!IsWhitespace(s[0]) && !IsWhitespace(s[|s| - 1]))
    ensures Trim(s) == s
  {
  }

  /** What follows a prefix, and the prefix itself. */
  lemma Cut(a: string, b: string)
    ensures StartsWith(a + b, a) && (a + b)[|a|..] == b
    ensures |a + b| > 0 ==> (a + b)[|a + b| - 1] == if b == [] then a[|a| - 1] else b[|b| - 1]
  {
    assert (a + b)[..|a|] == a;
  }

  /** The word at the front of `w + rest`, when `rest` starts with whitespace or is empty, is `w`. */
  lemma {:induction false} WordOf(w: string, rest: string)
    requires forall i :: 0 <= i < |w| ==> !IsWhitespace(w[i])
    requires rest == [] || IsWhitespace(rest[0])
    ensures Word(w + rest) == w
  {
    if w != [] {
      assert (w + rest)[1..] == w[1..] + rest;
      WordOf(w[1..], rest);
    }
  }

  /** A token at the front of a line is its first part. */
  lemma SplitFront(w: string, rest: string)
    requires Token(w)
    requires rest == [] || IsWhitespace(rest[0])
    ensures SplitWhitespace(w + rest) == [w] + SplitWhitespace(rest)
  {
    var s := w + rest;
    assert s[0] == w[0];
    assert TrimStart(s) == s;
    WordOf(w, rest);
    assert s[|w|..] == rest;
  }

  /** A leading blank is skipped. */
  lemma SplitSkipsBlank(s: string)
    requires s != [] && IsWhitespace(s[0])
    ensures SplitWhitespace(s) == SplitWhitespace(s[1..])
  {
    assert TrimStart(s) == TrimStart(s[1..]);
  }

  /** One token splits into itself. */
  lemma SplitOne(w: string)
    requires Token(w)
    ensures SplitWhitespace(w) == [w]
  {
    SplitFront(w, []);
    assert w + [] == w;
  }

  /** Two tokens with one space between split into the two. */
  lemma SplitTwo(code: string, amount: string)
    requires Token(code) && Token(amount)
    ensures SplitWhitespace(code + (" " + amount)) == [code, amount]
  {
    var rest := " " + amount;
    assert SplitWhitespace(code + rest) == [code] + SplitWhitespace(rest) by {
      SplitFront(code, rest);
    }
    assert SplitWhitespace(rest) == [amount] by {
      assert rest[1..] == amount;
      SplitSkipsBlank(rest);
      SplitOne(amount);
    }
  }

  /** A line led by "add " goes to `ParseAmendment` as an addition. */
  lemma AddRoundTrip(words: string)
    ensures ParsePosition("add " + words) == ParseAmendment(words, true)
  {
    var cmd := "add " + words;
    Cut("add ", words);
    assert cmd[0] == 'a';
  }

  /** A line led by "remove " goes to `ParseAmendment` as a removal. */
  lemma RemoveRoundTrip(words: string)
    ensures ParsePosition("remove " + words) == ParseAmendment(words, false)
  {
    var cmd := "remove " + words;
    Cut("remove ", words);
    assert cmd != "list" by {
      assert cmd[0] == 'r';
    }
    assert !StartsWith(cmd, "add ") by {
      assert cmd[..4][0] == cmd[0] == 'r';
    }
  }

  /** A single character that is not whitespace is a token. */
  lemma OneCharToken(c: char)
    requires !IsWhitespace(c)
    ensures Token([c])
  {
  }

  /** `add` and `remove` with a code and an amount read back. */
  lemma ChangeRoundTrip(code: string, amount: string, adding: bool)
    requires Token(code) && Token(amount)
    ensures adding ==> ParsePosition("add " + (code + (" " + amount))) == AddPosition(code, amount)
    ensures !adding ==> ParsePosition("remove " + (code + (" " + amount))) == RemovePosition(code, amount)
  {
    SplitTwo(code, amount);
    if adding {
      AddRoundTrip(code + (" " + amount));
    } else {
      RemoveRoundTrip(code + (" " + amount));
    }
  }

  /** `add` and `remove` with one word read back as their usage lines. */
  lemma UsageRoundTrip(adding: bool)
    ensures adding ==> ParsePosition("add " + "?") == AddUsage
    ensures !adding ==> ParsePosition("remove " + "?") == RemoveUsage
  {
    OneCharToken('?');
    SplitOne("?");
    if adding {
      AddRoundTrip("?");
    } else {
      RemoveRoundTrip("?");
    }
  }

  /** The position sub-command read back from its typed form. */
  lemma PositionRoundTrip(p: PositionCommand)
    requires WellFormed(Position(p))
    ensures ParsePosition(PositionText(p)) == p
  {
    match p
    case AddPosition(code, amount) =>
      ChangeRoundTrip(code, amount, true);
    case RemovePosition(code, amount) =>
      ChangeRoundTrip(code, amount, false);
    case AddUsage =>
      UsageRoundTrip(true);
    case RemoveUsage =>
      UsageRoundTrip(false);
    case ListPositions =>
    case UnknownPosition =>
  }

  /** The strategy sub-command read back from its typed form. */
  lemma StrategyRoundTrip(s: StrategyCommand)
    requires WellFormed(Strategy(s))
    ensures ParseStrategy(StrategyText(s)) == s
  {
    match s
    case Run(name) =>
      Cut("run ", name);
    case Backtest(name) =>
      Cut("backtest ", name);
      assert ("backtest " + name)[..4][0] == 'b';
    case ListStrategies =>
    case UnknownStrategy =>
  }

  /** A change typed with its verb ends with the amount's last character. */
  lemma ChangeLast(verb: string, code: string, amount: string)
    requires Token(amount)
    ensures var text := verb + (code + (" " + amount)); text != [] && text[|text| - 1] == amount[|amount| - 1]
  {
    Cut(" ", amount);
    Cut(code, " " + amount);
    Cut(verb, code + (" " + amount));
  }

  /** A typed position command ends in a character that is not whitespace. */
  lemma PositionLast(p: PositionCommand)
    requires WellFormed(Position(p))
    ensures var text := PositionText(p); text != [] && !IsWhitespace(text[|text| - 1])
  {
    match p
    case AddPosition(code, amount) =>
      ChangeLast("add ", code, amount);
    case RemovePosition(code, amount) =>
      ChangeLast("remove ", code, amount);
    case AddUsage =>
      assert PositionText(p) == "add " + "?";
      Cut("add ", "?");
    case RemoveUsage =>
      assert PositionText(p) == "remove " + "?";
      Cut("remove ", "?");
    case ListPositions =>
      assert PositionText(p) == "list";
    case UnknownPosition =>
      assert PositionText(p) == "?";
  }

  /** A typed strategy command ends in a character that is not whitespace. */
  lemma StrategyLast(s: StrategyCommand)
    requires WellFormed(Strategy(s))
    ensures var text := StrategyText(s); text != [] && !IsWhitespace(text[|text| - 1])
  {
    match s
    case Run(name) =>
      Cut("run ", name);
    case Backtest(name) =>
      Cut("backtest ", name);
    case _ =>
  }

  /** A sub-command line: trimming leaves it alone and its group word leads it. */
  lemma GroupLine(group: string, text: string)
    requires group == "stockdata " || group == "position " || group == "strategy "
    requires text != [] && !IsWhitespace(text[|text| - 1])
    ensures Trim(group + text) == group + text
    ensures StartsWith(group + text, group) && (group + text)[|group|..] == text
  {
    Cut(group, text);
    TrimNothing(group + text);
  }

  /** A line led by "stockdata " goes to the stockdata handler. */
  lemma ClassifyStockdata(input: string)
    requires StartsWith(input, "stockdata ")
    ensures Classify(input) == Stockdata(ParseStockdata(input[10..]))
  {
    assert |input| >= 10;
  }

  /** A line led by "position " goes to the position handler. */
  lemma ClassifyPosition(input: string)
    requires StartsWith(input, "position ")
    ensures Classify(input) == Position(ParsePosition(input[9..]))
  {
    assert input[0] == 'p';
  }

  /** A line led by "strategy " goes to the strategy handler. */
  lemma ClassifyStrategy(input: string)
    requires StartsWith(input, "strategy ")
    ensures Classify(input) == Strategy(ParseStrategy(input[9..]))
  {
    assert input[0] == 's' && input[2] == 'r';
  }

  /** The stockdata sub-command read back from its typed form. */
  lemma StockdataRoundTrip(s: StockdataCommand)
    ensures var text := StockdataText(s); text != [] && !IsWhitespace(text[|text| - 1])
    ensures ParseStockdata(StockdataText(s)) == s
  {
    match s
    case Init => assert StockdataText(s) == "init";
    case Fetch => assert StockdataText(s) == "fetch";
    case Close => assert StockdataText(s) == "close";
    case StockdataStatus => assert StockdataText(s) == "status";
    case UnknownStockdata => assert StockdataText(s) == "?";
  }

  lemma StockdataLine(s: StockdataCommand)
    ensures Parse(Render(Stockdata(s))) == Stockdata(s)
  {
    var text := StockdataText(s);
    assert Render(Stockdata(s)) == "stockdata " + text;
    StockdataRoundTrip(s);
    GroupLine("stockdata ", text);
    ClassifyStockdata("stockdata " + text);
  }

  lemma PositionLine(p: PositionCommand)
    requires WellFormed(Position(p))
    ensures Parse(Render(Position(p))) == Position(p)
  {
    PositionLast(p);
    GroupLine("position ", PositionText(p));
    ClassifyPosition("position " + PositionText(p));
    PositionRoundTrip(p);
  }

  lemma StrategyLine(s: StrategyCommand)
    requires WellFormed(Strategy(s))
    ensures Parse(Render(Strategy(s))) == Strategy(s)
  {
    StrategyLast(s);
    GroupLine("strategy ", StrategyText(s));
    ClassifyStrategy("strategy " + StrategyText(s));
    StrategyRoundTrip(s);
  }

  lemma ExitLine()
    ensures Parse(Render(Exit)) == Exit
  {
    assert Render(Exit) == "exit";
    assert Trim("exit") == "exit" by { TrimNothing("exit"); }
  }

  lemma HelpLine()
    ensures Parse(Render(Help)) == Help
  {
    assert Render(Help) == "help";
    assert Trim("help") == "help" by { TrimNothing("help"); }
    assert Classify("help") == Help;
  }

  lemma StatusLine()
    ensures Parse(Render(ServerStatus)) == ServerStatus
  {
    assert Render(ServerStatus) == "status";
    assert Trim("status") == "status" by { TrimNothing("status"); }
    assert Classify("status") == ServerStatus;
  }

  lemma UnknownLine()
    ensures Parse(Render(Unknown)) == Unknown
  {
    assert Render(Unknown) == [];
  }

  /** Every well-formed command, typed as `Render` types it, is read back as itself. */
  lemma RoundTrip(c: Command)
    requires WellFormed(c)
    ensures Parse(Render(c)) == c
  {
    match c
    case Exit => ExitLine();
    case Help => HelpLine();
    case ServerStatus => StatusLine();
    case Unknown => UnknownLine();
    case Stockdata(s) => StockdataLine(s);
    case Position(p) => PositionLine(p);
    case Strategy(s) => StrategyLine(s);
  }

  /** Trimming twice is trimming once. */
  lemma TrimTwice(line: string)
    ensures Trim(Trim(line)) == Trim(line)
  {
    var t := Trim(line);
    assert t == [] || (!IsWhitespace(t[0]) && !IsWhitespace(t[|t| - 1]));
    TrimNothing(t);
  }

  /** A line reads the same once trimmed. */
  lemma ParseTrimmed(line: string)
    ensures Parse(Trim(line)) == Parse(line)
  {
    TrimTwice(line);
  }

  /** "quit" is another word for "exit". */
  lemma Quit()
    ensures Parse("quit") == Exit
  {
    TrimNothing("quit");
  }
}
