/** The back-end server's entry point (back-end/src/main.cpp): the argument
    loop, the help and test-mode exits, and the exit status of the server's
    lifecycle. The server itself is an oracle giving, for an address, what
    each lifecycle step returns or throws. */
module ServerMain {
  import opened Wrappers

  const DefaultAddress: string := "0.0.0.0:50051"

  /** One recognised piece of the arguments after the program name. */
  datatype Token = AddressTok(value: string) | TestTok | HelpTok | Other(arg: string)

  /** `--address` takes the next argument only when there is one; on its own
      at the end it is an unrecognised argument. */
  function Tokens(args: seq<string>): seq<Token>
    decreases |args|
  {
    if |args| == 0 then []
    else if args[0] == "--address" && |args| >= 2 then [AddressTok(args[1])] + Tokens(args[2..])
    else if args[0] == "--test" then [TestTok] + Tokens(args[1..])
    else if args[0] == "--help" then [HelpTok] + Tokens(args[1..])
    else [Other(args[0])] + Tokens(args[1..])
  }

  /** What the argument loop decides: print help, or go on with an address and
      a test-mode flag. */
  datatype Decision = ShowHelp | Proceed(address: string, testMode: bool)

  /** The loop's effect on the tokens, from a given address and flag. */
  function Decide(toks: seq<Token>, address: string, testMode: bool): Decision
    decreases |toks|
  {
    if |toks| == 0 then Proceed(address, testMode)
    else match toks[0]
      case AddressTok(v) => Decide(toks[1..], v, testMode)
      case TestTok => Decide(toks[1..], address, true)
      case HelpTok => ShowHelp
      case Other(_) => Decide(toks[1..], address, testMode)
  }

  /** The arguments from `i` on; nothing once `i` is past the end. */
  function Rest(argv: seq<string>, i: nat): seq<string>
  {
    if i <= |argv| then argv[i..] else []
  }

  /** The decision for a whole command line (`argv[0]` is the program). */
  function DecisionOf(argv: seq<string>): Decision
  {
    Decide(Tokens(Rest(argv, 1)), DefaultAddress, false)
  }

  /** Tokenizing from `i` takes one token off the front. */
  lemma TokensStep(argv: seq<string>, i: nat)
    requires i < |argv|
    ensures var t := Tokens(Rest(argv, i));
            if argv[i] == "--address" && i + 1 < |argv| then t == [AddressTok(argv[i + 1])] + Tokens(Rest(argv, i + 2))
            else if argv[i] == "--test" then t == [TestTok] + Tokens(Rest(argv, i + 1))
            else if argv[i] == "--help" then t == [HelpTok] + Tokens(Rest(argv, i + 1))
            else t == [Other(argv[i])] + Tokens(Rest(argv, i + 1))
  {
    var r := argv[i..];
    assert r[1..] == Rest(argv, i + 1);
    if |r| >= 2 {
      assert r[2..] == Rest(argv, i + 2);
    }
  }

  /** The argument loop of `main`. */
  method ParseArguments(argv: seq<string>) returns (d: Decision)
    ensures d == DecisionOf(argv)
  {
    var address := DefaultAddress;
    var testMode := false;
    var i := 1;
    while i < |argv|
      invariant 1 <= i
      invariant DecisionOf(argv) == Decide(Tokens(Rest(argv, i)), address, testMode)
      decreases |argv| - i
    {
      var arg := argv[i];
      TokensStep(argv, i);
      if arg == "--address" && i + 1 < |argv| {
        i := i + 1;
        address := argv[i];
      } else if arg == "--test" {
        testMode := true;
      } else if arg == "--help" {
        return ShowHelp;
      }
      i := i + 1;
    }
    assert Tokens(Rest(argv, i)) == [];
    d := Proceed(address, testMode);
  }

  /** `--help` ends the loop where it stands: what follows is never read. */
  lemma {:induction false} HelpIgnoresRest(before: seq<Token>, after: seq<Token>, address: string, testMode: bool)
    requires HelpTok !in before
    ensures Decide(before + [HelpTok] + after, address, testMode) == ShowHelp
    decreases |before|
  {
    if |before| == 0 {
      assert (before + [HelpTok] + after)[0] == HelpTok;
    } else {
      assert (before + [HelpTok] + after)[1..] == before[1..] + [HelpTok] + after;
      assert before[0] in before;
      var t := before[0];
      HelpIgnoresRest(before[1..], after, if t.AddressTok? then t.value else address, if t == TestTok then true else testMode);
    }
  }

  /** Without `--help`, test mode is on exactly when some `--test` was seen. */
  lemma {:induction false} TestModeIffFlag(toks: seq<Token>, address: string, testMode: bool)
    requires HelpTok !in toks
    ensures Decide(toks, address, testMode).Proceed?
    ensures Decide(toks, address, testMode).testMode <==> testMode || TestTok in toks
    decreases |toks|
  {
    if |toks| > 0 {
      assert toks[0] in toks;
      assert forall t :: t in toks[1..] ==> t in toks;
      assert TestTok in toks <==> toks[0] == TestTok || TestTok in toks[1..] by {
        assert toks == [toks[0]] + toks[1..];
      }
      TestModeIffFlag(toks[1..], if toks[0].AddressTok? then toks[0].value else address,
                      if toks[0] == TestTok then true else testMode);
    }
  }

  /** The last `--address` with a value wins; without one the default stays. */
  lemma {:induction false} LastAddressWins(toks: seq<Token>, address: string, testMode: bool, k: nat)
    requires HelpTok !in toks
    requires k < |toks| && toks[k].AddressTok?
    requires forall j :: k < j < |toks| ==> !toks[j].AddressTok?
    ensures Decide(toks, address, testMode).Proceed?
    ensures Decide(toks, address, testMode).address == toks[k].value
    decreases |toks|
  {
    assert toks[0] in toks;
    assert forall t :: t in toks[1..] ==> t in toks;
    var nextAddress := if toks[0].AddressTok? then toks[0].value else address;
    var nextTest := if toks[0] == TestTok then true else testMode;
    if k == 0 {
      AddressUntouched(toks[1..], toks[0].value, nextTest);
    } else {
      LastAddressWins(toks[1..], nextAddress, nextTest, k - 1);
    }
  }

  /** Tokens that set no address leave it as it was. */
  lemma {:induction false} AddressUntouched(toks: seq<Token>, address: string, testMode: bool)
    requires HelpTok !in toks
    requires forall j :: 0 <= j < |toks| ==> !toks[j].AddressTok?
    ensures Decide(toks, address, testMode).Proceed?
    ensures Decide(toks, address, testMode).address == address
    decreases |toks|
  {
    if |toks| > 0 {
      assert toks[0] in toks;
      assert forall t :: t in toks[1..] ==> t in toks;
      AddressUntouched(toks[1..], address, if toks[0] == TestTok then true else testMode);
    }
  }

  /** Unrecognised arguments are skipped. */
  lemma OtherIsSkipped(a: string, toks: seq<Token>, address: string, testMode: bool)
    ensures Decide([Other(a)] + toks, address, testMode) == Decide(toks, address, testMode)
  {
    assert ([Other(a)] + toks)[1..] == toks;
  }

  /** What each step of the server's lifecycle does: the constructor, then
      `Initialize` and `Start` (which report success), then `Wait`; `Err` is
      an exception with its `what()`. */
  datatype Lifecycle = Lifecycle(
    construct: Result<(), string>, initialize: Result<bool, string>,
    start: Result<bool, string>, wait: Result<(), string>)

  /** True when every step of the lifecycle succeeds. */
  predicate RunsCleanly(l: Lifecycle)
  {
    l.construct.Ok? && l.initialize == Ok(true) && l.start == Ok(true) && l.wait.Ok?
  }

  /** `main`: the exit status, the last line written, and whether a server
      was made. */
  method RunServer(argv: seq<string>, server: string -> Lifecycle) returns (status: int, message: string, serverMade: bool)
    ensures serverMade <==> DecisionOf(argv).Proceed? && !DecisionOf(argv).testMode
    ensures DecisionOf(argv).ShowHelp? ==> status == 0 && message == "  --help              Show this help message"
    ensures DecisionOf(argv).Proceed? && DecisionOf(argv).testMode ==>
              status == 0 && message == "Running in test mode - exiting immediately"
    ensures serverMade ==> var l := server(DecisionOf(argv).address);
              && (status == 0 <==> RunsCleanly(l))
              && (status == 0 || status == 1)
              && (RunsCleanly(l) ==> message == "Server stopped")
              && (l.construct.Ok? && l.initialize == Ok(false) ==> message == "Failed to initialize server")
              && (l.construct.Ok? && l.initialize == Ok(true) && l.start == Ok(false) ==> message == "Failed to start server")
              && (l.construct.Err? ==> message == "Server error: " + l.construct.error)
              && (l.construct.Ok? && l.initialize.Err? ==> message == "Server error: " + l.initialize.error)
              && (l.construct.Ok? && l.initialize == Ok(true) && l.start.Err? ==> message == "Server error: " + l.start.error)
              && (l.construct.Ok? && l.initialize == Ok(true) && l.start == Ok(true) && l.wait.Err? ==>
                    message == "Server error: " + l.wait.error)
  {
    var d := ParseArguments(argv);
    if d.ShowHelp? {
      return 0, "  --help              Show this help message", false;
    }
    if d.testMode {
      return 0, "Running in test mode - exiting immediately", false;
    }
    var l := server(d.address);
    serverMade := true;
    if l.construct.Err? {
      return 1, "Server error: " + l.construct.error, true;
    }
    if l.initialize.Err? {
      return 1, "Server error: " + l.initialize.error, true;
    }
    if !l.initialize.value {
      return 1, "Failed to initialize server", true;
    }
    if l.start.Err? {
      return 1, "Server error: " + l.start.error, true;
    }
    if !l.start.value {
      return 1, "Failed to start server", true;
    }
    if l.wait.Err? {
      return 1, "Server error: " + l.wait.error, true;
    }
    status, message := 0, "Server stopped";
  }
}
