/** The command-line gRPC simulator (simulator/sim.js): argument parsing,
    the `--list` enumeration and the resolution of `package.Service.Method`
    against the loaded schema. The RPC itself, schema loading and console
    output are not modelled; `JSON.parse` and the file read are oracles. */
module Simulator {
  import opened Wrappers
  import opened Json
  import Text

  /** The flags that consume the next argument. */
  datatype Flag = TargetFlag | MethodFlag | DataFlag | DataFileFlag

  /** One recognised piece of the command line. A flag at the very end reads
      `argv[++i]` past the end, which is `undefined`: `None` here. */
  datatype Token = Valued(flag: Flag, value: Option<string>) | HelpSwitch | ListSwitch | Ignored(arg: string)

  /** `parseArgs`'s result. `target`, `methodPath` and `dataFile` are `undefined`
      (`None`) when their flag ended the command line. */
  datatype Args = Args(
    target: Option<string>, methodPath: Option<string>, data: Json, dataFile: Option<string>,
    help: bool, list: bool)

  /** `JSON.parse` on a string, and reading a file given by its path. */
  datatype Env = Env(parse: string -> Result<Json, string>, readFile: string -> Result<string, string>)

  const Defaults: Args := Args(Some("localhost:50051"), Some(""), Obj(map[]), Some(""), false, false)

  /** The flag an argument names, if it is one of the value-taking flags. */
  function FlagOf(a: string): Option<Flag>
  {
    if a == "--target" || a == "-t" then Some(TargetFlag)
    else if a == "--method" || a == "-m" then Some(MethodFlag)
    else if a == "--data" || a == "-d" then Some(DataFlag)
    else if a == "--data-file" || a == "-f" then Some(DataFileFlag)
    else None
  }

  /** `argv[i]`, or `undefined` past the end. */
  function At(argv: seq<string>, i: int): Option<string>
  {
    if 0 <= i < |argv| then Some(argv[i]) else None
  }

  /** The arguments from `i` on; nothing once `i` is past the end. */
  function Rest(argv: seq<string>, i: nat): seq<string>
  {
    if i <= |argv| then argv[i..] else []
  }

  /** The command line cut into tokens: a value-taking flag takes the next
      argument with it, whatever that argument is. */
  function Tokenize(args: seq<string>): seq<Token>
    decreases |args|
  {
    if |args| == 0 then []
    else
      var a := args[0];
      match FlagOf(a)
      case Some(f) => [Valued(f, At(args, 1))] + Tokenize(Rest(args, 2))
      case None =>
        if a == "--help" || a == "-h" then [HelpSwitch] + Tokenize(args[1..])
        else if a == "--list" then [ListSwitch] + Tokenize(args[1..])
        else [Ignored(a)] + Tokenize(args[1..])
  }

  /** `JSON.parse(x)` converts its argument to a string first: `undefined`
      becomes the text "undefined". */
  function ParseArgument(parse: string -> Result<Json, string>, value: Option<string>): Result<Json, string>
  {
    parse(if value.Some? then value.value else "undefined")
  }

  /** The effect of one token on the arguments; a `--data` payload that does
      not parse throws. */
  function Apply(args: Args, t: Token, parse: string -> Result<Json, string>): Result<Args, string>
  {
    match t
    case Valued(TargetFlag, v) => Ok(args.(target := v))
    case Valued(MethodFlag, v) => Ok(args.(methodPath := v))
    case Valued(DataFlag, v) =>
      var data :- ParseArgument(parse, v);
      Ok(args.(data := data))
    case Valued(DataFileFlag, v) => Ok(args.(dataFile := v))
    case HelpSwitch => Ok(args.(help := true))
    case ListSwitch => Ok(args.(list := true))
    case Ignored(_) => Ok(args)
  }

  /** The tokens applied in order, stopping at the first failure. */
  function ApplyAll(args: Args, toks: seq<Token>, parse: string -> Result<Json, string>): Result<Args, string>
    decreases |toks|
  {
    if |toks| == 0 then Ok(args)
    else
      var next :- Apply(args, toks[0], parse);
      ApplyAll(next, toks[1..], parse)
  }

  /** A string is truthy when it is defined and not empty. */
  predicate Truthy(s: Option<string>)
  {
    s.Some? && s.value != ""
  }

  /** `parseArgs(argv)`: the tokens after the interpreter and script paths,
      then a data file, when given, replaces the payload. */
  function ArgsOf(argv: seq<string>, env: Env): Result<Args, string>
  {
    var args :- ApplyAll(Defaults, Tokenize(Rest(argv, 2)), env.parse);
    if Truthy(args.dataFile) then
      var content :- env.readFile(args.dataFile.value);
      var data :- env.parse(content);
      Ok(args.(data := data))
    else Ok(args)
  }

  /** The value an argument field holds. */
  function FieldOf(args: Args, f: Flag): Option<string>
    requires f != DataFlag
  {
    match f
    case TargetFlag => args.target
    case MethodFlag => args.methodPath
    case DataFileFlag => args.dataFile
  }

  predicate Sets(t: Token, f: Flag)
  {
    t.Valued? && t.flag == f
  }

  /** A later occurrence of a flag overwrites an earlier one: the field holds
      the value of the last token for it. */
  lemma {:induction false} LastValueWins(args: Args, toks: seq<Token>, parse: string -> Result<Json, string>,
                                         f: Flag, k: nat, result: Args)
    requires f != DataFlag
    requires ApplyAll(args, toks, parse) == Ok(result)
    requires k < |toks| && Sets(toks[k], f)
    requires forall j :: k < j < |toks| ==> !Sets(toks[j], f)
    ensures FieldOf(result, f) == toks[k].value
    decreases |toks|
  {
    var next := Apply(args, toks[0], parse).value;
    assert ApplyAll(next, toks[1..], parse) == Ok(result);
    if k == 0 {
      assert FieldOf(next, f) == toks[0].value;
      FieldUntouched(next, toks[1..], parse, f, result);
    } else {
      LastValueWins(next, toks[1..], parse, f, k - 1, result);
    }
  }

  /** Tokens that do not set a field leave it as it was. */
  lemma {:induction false} FieldUntouched(args: Args, toks: seq<Token>, parse: string -> Result<Json, string>,
                                          f: Flag, result: Args)
    requires f != DataFlag
    requires ApplyAll(args, toks, parse) == Ok(result)
    requires forall j :: 0 <= j < |toks| ==> !Sets(toks[j], f)
    ensures FieldOf(result, f) == FieldOf(args, f)
    decreases |toks|
  {
    if |toks| > 0 {
      var next := Apply(args, toks[0], parse).value;
      FieldUntouched(next, toks[1..], parse, f, result);
    }
  }

  /** The last `--data` sets the payload: its value parsed, or the text
      "undefined" parsed when the flag ended the command line. */
  lemma {:induction false} LastDataWins(args: Args, toks: seq<Token>, parse: string -> Result<Json, string>,
                                        k: nat, result: Args)
    requires ApplyAll(args, toks, parse) == Ok(result)
    requires k < |toks| && Sets(toks[k], DataFlag)
    requires forall j :: k < j < |toks| ==> !Sets(toks[j], DataFlag)
    ensures ParseArgument(parse, toks[k].value).Ok?
    ensures result.data == ParseArgument(parse, toks[k].value).value
    decreases |toks|
  {
    var next := Apply(args, toks[0], parse).value;
    assert ApplyAll(next, toks[1..], parse) == Ok(result);
    if k == 0 {
      assert next.data == ParseArgument(parse, toks[0].value).value;
      DataUntouched(next, toks[1..], parse, result);
    } else {
      LastDataWins(next, toks[1..], parse, k - 1, result);
    }
  }

  /** Tokens other than `--data` leave the payload as it was. */
  lemma {:induction false} DataUntouched(args: Args, toks: seq<Token>, parse: string -> Result<Json, string>,
                                         result: Args)
    requires ApplyAll(args, toks, parse) == Ok(result)
    requires forall j :: 0 <= j < |toks| ==> !Sets(toks[j], DataFlag)
    ensures result.data == args.data
    decreases |toks|
  {
    if |toks| > 0 {
      var next := Apply(args, toks[0], parse).value;
      DataUntouched(next, toks[1..], parse, result);
    }
  }

  /** Unrecognised arguments are skipped. */
  lemma IgnoredIsSkipped(args: Args, a: string, toks: seq<Token>, parse: string -> Result<Json, string>)
    ensures ApplyAll(args, [Ignored(a)] + toks, parse) == ApplyAll(args, toks, parse)
  {
    assert ([Ignored(a)] + toks)[1..] == toks;
  }

  /** A data file given on the command line replaces the payload, whatever
      `--data` said and in whichever order the flags came. */
  lemma DataFileOverrides(argv: seq<string>, env: Env)
    requires ArgsOf(argv, env).Ok? && Truthy(ArgsOf(argv, env).value.dataFile)
    ensures var file := ArgsOf(argv, env).value.dataFile.value;
            env.readFile(file).Ok? && ArgsOf(argv, env).value.data == env.parse(env.readFile(file).value).value
  {
  }

  /** Every field keeps its default when its flag is absent. */
  lemma DefaultsWithoutFlags(argv: seq<string>, env: Env)
    requires forall t :: t in Tokenize(Rest(argv, 2)) ==> t.Ignored?
    ensures ArgsOf(argv, env) == Ok(Defaults)
  {
    AllIgnored(Defaults, Tokenize(Rest(argv, 2)), env.parse);
  }

  lemma {:induction false} AllIgnored(args: Args, toks: seq<Token>, parse: string -> Result<Json, string>)
    requires forall t :: t in toks ==> t.Ignored?
    ensures ApplyAll(args, toks, parse) == Ok(args)
    decreases |toks|
  {
    if |toks| > 0 {
      assert toks[0] in toks;
      assert forall t :: t in toks[1..] ==> t in toks;
      AllIgnored(args, toks[1..], parse);
    }
  }

  /** The token the argument at `i` starts. */
  function TokenAt(argv: seq<string>, i: nat): Token
    requires i < |argv|
  {
    var a := argv[i];
    match FlagOf(a)
    case Some(f) => Valued(f, At(argv, i + 1))
    case None =>
      if a == "--help" || a == "-h" then HelpSwitch
      else if a == "--list" then ListSwitch
      else Ignored(a)
  }

  /** How many arguments that token spans. */
  function Width(a: string): nat
  {
    if FlagOf(a).Some? then 2 else 1
  }

  /** Tokenizing from position `i` takes one token off the front and moves on
      by one or two arguments. */
  lemma TokenizeStep(argv: seq<string>, i: nat)
    requires i < |argv|
    ensures |Tokenize(Rest(argv, i))| > 0
    ensures Tokenize(Rest(argv, i))[0] == TokenAt(argv, i)
    ensures Tokenize(Rest(argv, i))[1..] == Tokenize(Rest(argv, i + Width(argv[i])))
  {
    var r := argv[i..];
    assert r[0] == argv[i];
    assert r[1..] == Rest(argv, i + 1);
    assert Rest(r, 2) == Rest(argv, i + 2);
    assert At(r, 1) == At(argv, i + 1);
  }

  /** Applying a list of tokens is applying its first, then the rest. */
  lemma ApplyAllStep(args: Args, toks: seq<Token>, parse: string -> Result<Json, string>, next: Args)
    requires |toks| > 0 && Apply(args, toks[0], parse) == Ok(next)
    ensures ApplyAll(args, toks, parse) == ApplyAll(next, toks[1..], parse)
  {
  }

  /** One turn of `parseArgs`'s loop: the argument at `i`, and the value after
      it when it is a value-taking flag. Returns the updated arguments and
      the index of the next argument to read. */
  method ParseOne(argv: seq<string>, i: nat, args: Args, parse: string -> Result<Json, string>)
    returns (next: Result<Args, string>, j: nat)
    requires i < |argv|
    ensures next == Apply(args, TokenAt(argv, i), parse)
    ensures j == i + Width(argv[i])
  {
    var a := argv[i];
    j := i + 1;
    next := Ok(args);
    match FlagOf(a) {
      case Some(f) =>
        var value := At(argv, j);
        j := j + 1;
        if f == TargetFlag {
          next := Ok(args.(target := value));
        } else if f == MethodFlag {
          next := Ok(args.(methodPath := value));
        } else if f == DataFlag {
          var parsed := ParseArgument(parse, value);
          if parsed.Err? {
            return Err(parsed.error), j;
          }
          next := Ok(args.(data := parsed.value));
        } else {
          next := Ok(args.(dataFile := value));
        }
      case None =>
        if a == "--help" || a == "-h" {
          next := Ok(args.(help := true));
        } else if a == "--list" {
          next := Ok(args.(list := true));
        }
    }
  }

  /** `parseArgs`, as the loop it is: a flag moves the index past its value. */
  method ParseArgs(argv: seq<string>, env: Env) returns (r: Result<Args, string>)
    ensures r == ArgsOf(argv, env)
  {
    var args := Defaults;
    var i := 2;
    while i < |argv|
      invariant 2 <= i
      invariant ApplyAll(Defaults, Tokenize(Rest(argv, 2)), env.parse) ==
                ApplyAll(args, Tokenize(Rest(argv, i)), env.parse)
      decreases |argv| - i
    {
      TokenizeStep(argv, i);
      ghost var toks := Tokenize(Rest(argv, i));
      var next, j := ParseOne(argv, i, args, env.parse);
      if next.Err? {
        return Err(next.error);
      }
      ApplyAllStep(args, toks, env.parse, next.value);
      args, i := next.value, j;
    }
    assert Tokenize(Rest(argv, i)) == [];
    if Truthy(args.dataFile) {
      var content := env.readFile(args.dataFile.value);
      if content.Err? {
        return Err(content.error);
      }
      var data := env.parse(content.value);
      if data.Err? {
        return Err(data.error);
      }
      args := args.(data := data.value);
    }
    r := Ok(args);
  }

  /** A member of a loaded package: a service constructor with its method
      names in definition order, or anything else (a message type, a nested
      namespace), which is not a function. */
  datatype Member = Service(methods: seq<string>) | NotAService

  /** A top-level entry of the loaded definition: a package object with its
      members in enumeration order, or a value that is not an object. */
  datatype Entry = Package(members: seq<(string, Member)>) | NotAPackage

  /** The loaded definition: its top-level entries in enumeration order. */
  type Schema = seq<(string, Entry)>

  /** `--list`'s record for one service. */
  datatype ServiceInfo = ServiceInfo(package: string, service: string, methods: seq<string>)

  /** The records of one package's services, in order. */
  function PackageListing(name: string, members: seq<(string, Member)>): seq<ServiceInfo>
  {
    if |members| == 0 then []
    else
      var n := |members| - 1;
      PackageListing(name, members[..n]) +
        (if members[n].1.Service? then [ServiceInfo(name, members[n].0, members[n].1.methods)] else [])
  }

  /** The records of every package, in order. */
  function Listing(schema: Schema): seq<ServiceInfo>
  {
    if |schema| == 0 then []
    else
      var n := |schema| - 1;
      Listing(schema[..n]) +
        (if schema[n].1.Package? then PackageListing(schema[n].0, schema[n].1.members) else [])
  }

  /** Member `j` is the service `info` describes. */
  predicate HoldsService(members: seq<(string, Member)>, j: int, info: ServiceInfo)
    requires 0 <= j < |members|
  {
    members[j].0 == info.service && members[j].1 == Service(info.methods)
  }

  /** A record is listed exactly when it names a service member of a package. */
  lemma {:induction false} PackageListingSound(name: string, members: seq<(string, Member)>, info: ServiceInfo)
    ensures info in PackageListing(name, members) <==>
              info.package == name && exists j :: 0 <= j < |members| && HoldsService(members, j, info)
  {
    if |members| > 0 {
      var n := |members| - 1;
      var init := members[..n];
      var last := if members[n].1.Service? then [ServiceInfo(name, members[n].0, members[n].1.methods)] else [];
      assert PackageListing(name, members) == PackageListing(name, init) + last;
      PackageListingSound(name, init, info);
      assert forall j :: 0 <= j < n ==> (HoldsService(init, j, info) <==> HoldsService(members, j, info)) by {
        forall j | 0 <= j < n
          ensures HoldsService(init, j, info) <==> HoldsService(members, j, info)
        {
          assert init[j] == members[j];
        }
      }
      assert info in last <==> info.package == name && HoldsService(members, n, info);
    }
  }

  /** Entry `i` is a package object whose services include `info`. */
  predicate ListedAt(schema: Schema, i: int, info: ServiceInfo)
    requires 0 <= i < |schema|
  {
    schema[i].1.Package? && info in PackageListing(schema[i].0, schema[i].1.members)
  }

  /** `--list` reports a service exactly when some package object holds it;
      with `PackageListingSound`, under that package's name and with its methods. */
  lemma {:induction false} ListingSound(schema: Schema, info: ServiceInfo)
    ensures info in Listing(schema) <==> exists i :: 0 <= i < |schema| && ListedAt(schema, i, info)
  {
    if |schema| > 0 {
      var n := |schema| - 1;
      var init := schema[..n];
      ListingSound(init, info);
      assert forall i :: 0 <= i < n ==> (ListedAt(init, i, info) <==> ListedAt(schema, i, info)) by {
        forall i | 0 <= i < n
          ensures ListedAt(init, i, info) <==> ListedAt(schema, i, info)
        {
          assert init[i] == schema[i];
        }
      }
      assert info in Listing(schema) <==> info in Listing(init) || ListedAt(schema, n, info);
    }
  }

  /** `listServices`: the nested loops over packages and their members. */
  method ListServices(schema: Schema) returns (out: seq<ServiceInfo>)
    ensures out == Listing(schema)
  {
    out := [];
    var i := 0;
    while i < |schema|
      invariant 0 <= i <= |schema|
      invariant out == Listing(schema[..i])
    {
      assert schema[..i + 1][..i] == schema[..i];
      var (name, entry) := schema[i];
      if entry.Package? {
        var members := entry.members;
        var j := 0;
        while j < |members|
          invariant 0 <= j <= |members|
          invariant out == Listing(schema[..i]) + PackageListing(name, members[..j])
        {
          assert members[..j + 1][..j] == members[..j];
          var (svcName, member) := members[j];
          if member.Service? {
            out := out + [ServiceInfo(name, svcName, member.methods)];
          }
          j := j + 1;
        }
        assert members[..j] == members;
      }
      i := i + 1;
    }
    assert schema[..i] == schema;
  }

  /** `loaded[name]`: the first entry of that name. */
  function LookupEntry(schema: Schema, name: string): (r: Option<Entry>)
    ensures r.Some? <==> exists i :: 0 <= i < |schema| && schema[i].0 == name
    ensures r.Some? ==> exists i :: 0 <= i < |schema| && schema[i] == (name, r.value)
  {
    if |schema| == 0 then None
    else if schema[0].0 == name then Some(schema[0].1)
    else
      var r := LookupEntry(schema[1..], name);
      if r.Some? then
        var i :| 0 <= i < |schema[1..]| && schema[1..][i] == (name, r.value);
        assert schema[i + 1] == (name, r.value);
        r
      else
        assert forall i :: 1 <= i < |schema| ==> schema[i] == schema[1..][i - 1];
        r
  }

  /** `pkg[name]`: the first member of that name. */
  function LookupMember(members: seq<(string, Member)>, name: string): (r: Option<Member>)
    ensures r.Some? <==> exists j :: 0 <= j < |members| && members[j].0 == name
    ensures r.Some? ==> exists j :: 0 <= j < |members| && members[j] == (name, r.value)
  {
    if |members| == 0 then None
    else if members[0].0 == name then Some(members[0].1)
    else
      var r := LookupMember(members[1..], name);
      if r.Some? then
        var j :| 0 <= j < |members[1..]| && members[1..][j] == (name, r.value);
        assert members[j + 1] == (name, r.value);
        r
      else
        assert forall j :: 1 <= j < |members| ==> members[j] == members[1..][j - 1];
        r
  }

  /** How a run ends: help shown, services listed, an error exit with its
      messages, or the call to be made. */
  datatype Outcome =
    | ShowHelp
    | Listed(services: seq<ServiceInfo>)
    | Failed(messages: seq<string>)
    | Call(target: Option<string>, service: string, rpc: string, payload: Json)

  /** The exit status, for the outcomes that end the process. */
  function ExitCode(o: Outcome): int
    requires !o.Call?
  {
    if o.Failed? then 1 else 0
  }

  const MethodRequired: string := "Error: --method dnd5e.Dnd5eService.MethodName is required"
  const MethodForm: string := "Error: method must be in the form package.Service.Method"

  /** `args.data || {}`: a falsy payload is sent as an empty object. */
  function Payload(data: Json): Json
  {
    match data
    case Null => Obj(map[])
    case Bool(false) => Obj(map[])
    case Num(0) => Obj(map[])
    case Str("") => Obj(map[])
    case _ => data
  }

  /** Package, then service, then method; each miss ends the run, and a
      missing method lists what the service offers. */
  function Resolve(schema: Schema, pkgName: string, svcName: string, methodName: string, args: Args): (o: Outcome)
    ensures o.Call? <==>
              && LookupEntry(schema, pkgName).Some? && LookupEntry(schema, pkgName).value.Package?
              && LookupMember(LookupEntry(schema, pkgName).value.members, svcName).Some?
              && LookupMember(LookupEntry(schema, pkgName).value.members, svcName).value.Service?
              && methodName in LookupMember(LookupEntry(schema, pkgName).value.members, svcName).value.methods
    ensures LookupEntry(schema, pkgName).None? ==> o == Failed(["Package not found: " + pkgName])
    ensures LookupEntry(schema, pkgName).Some? &&
            (!LookupEntry(schema, pkgName).value.Package? ||
             LookupMember(LookupEntry(schema, pkgName).value.members, svcName).None?) ==>
              o == Failed(["Service not found: " + svcName])
    ensures o.Call? ==> o == Call(args.target, svcName, methodName, Payload(args.data))
    ensures !o.Call? ==> o.Failed?
  {
    match LookupEntry(schema, pkgName)
    case None => Failed(["Package not found: " + pkgName])
    case Some(entry) =>
      var member := if entry.Package? then LookupMember(entry.members, svcName) else None;
      match member
      case None => Failed(["Service not found: " + svcName])
      case Some(m) =>
        var methods := if m.Service? then m.methods else [];
        if methodName in methods then Call(args.target, svcName, methodName, Payload(args.data))
        else Failed(["Method not found on service: " + methodName, "Available: " + Text.Join(methods, ", ")])
  }

  /** `main` up to the RPC. */
  function Run(argv: seq<string>, env: Env, schema: Schema): Outcome
  {
    match ArgsOf(argv, env)
    case Err(e) => Failed(["Failed: " + e])
    case Ok(args) => Route(args, schema)
  }

  /** What `main` does with the parsed arguments: help, listing, then the
      checks on the method path and its resolution. */
  function Route(args: Args, schema: Schema): Outcome
  {
    if args.help then ShowHelp
    else if args.list then Listed(Listing(schema))
    else if !Truthy(args.methodPath) || '.' !in args.methodPath.value then Failed([MethodRequired])
    else
      var parts := Text.Split(args.methodPath.value, '.');
      if |parts| < 3 then Failed([MethodForm])
      else Resolve(schema, parts[0], parts[1], parts[2], args)
  }

  /** `--help` exits 0 before the schema is consulted. */
  lemma HelpIgnoresSchema(argv: seq<string>, env: Env, schema: Schema)
    requires ArgsOf(argv, env).Ok? && ArgsOf(argv, env).value.help
    ensures Run(argv, env, schema) == ShowHelp && ExitCode(ShowHelp) == 0
  {
  }

  /** `--list` exits 0 with the listing before the method is looked at. */
  lemma ListBeforeMethodChecks(argv: seq<string>, env: Env, schema: Schema)
    requires ArgsOf(argv, env).Ok? && !ArgsOf(argv, env).value.help && ArgsOf(argv, env).value.list
    ensures Run(argv, env, schema) == Listed(Listing(schema))
  {
  }

  /** A method that is missing, empty, without a dot, or with fewer than three
      segments exits 1 whatever the schema holds, so no client is made. */
  lemma MalformedMethodFails(args: Args, schema: Schema, other: Schema)
    requires !args.help && !args.list
    requires !Truthy(args.methodPath) || |Text.Split(args.methodPath.value, '.')| < 3
    ensures Route(args, schema).Failed? && Route(args, schema) == Route(args, other)
  {
    if Truthy(args.methodPath) && '.' in args.methodPath.value {
      Text.SplitIncludes(args.methodPath.value, '.');
    }
  }

  /** Splitting at a separator that the first piece lacks yields that piece
      first and the split of the rest after it. */
  lemma SplitAfterFirst(a: string, t: string, sep: char)
    requires sep !in a
    ensures Text.Split(a + [sep] + t, sep) == [a] + Text.Split(t, sep)
  {
    var s := a + [sep] + t;
    assert s[|a|] == sep;
    assert s[..|a|] == a;
    assert s[|a| + 1..] == t;
    assert forall k :: 0 <= k < |a| ==> s[k] == a[k] && a[k] in a;
    assert s[..|a| + 1][|a|] == sep;
    assert Text.IndexOf(s, sep) == Some(|a|);
  }

  /** `p.s.m.rest`, written with the separators attached to the right. */
  lemma DottedPath(p: string, s: string, m: string, rest: string)
    ensures p + "." + s + "." + m + "." + rest == p + ['.'] + (s + ['.'] + (m + ['.'] + rest))
  {
    assert p + "." + s + "." + m + "." + rest == p + ['.'] + s + ['.'] + m + ['.'] + rest;
  }

  /** A path of three dot-free segments followed by a dot splits into those
      three first. */
  lemma ThreeSegments(p: string, s: string, m: string, rest: string)
    requires '.' !in p && '.' !in s && '.' !in m
    ensures var parts := Text.Split(p + ['.'] + (s + ['.'] + (m + ['.'] + rest)), '.');
            |parts| >= 3 && parts[0] == p && parts[1] == s && parts[2] == m
  {
    SplitAfterFirst(m, rest, '.');
    SplitAfterFirst(s, m + ['.'] + rest, '.');
    SplitAfterFirst(p, s + ['.'] + (m + ['.'] + rest), '.');
  }

  /** A path of exactly three dot-free segments names package, service and
      method. */
  lemma ExactlyThreeSegments(args: Args, schema: Schema, p: string, s: string, m: string)
    requires '.' !in p && '.' !in s && '.' !in m
    requires !args.help && !args.list && args.methodPath == Some(p + "." + s + "." + m)
    ensures Route(args, schema) == Resolve(schema, p, s, m, args)
  {
    assert p + "." + s + "." + m == p + ['.'] + (s + ['.'] + m);
    assert Text.IndexOf(m, '.') == None;
    SplitAfterFirst(s, m, '.');
    SplitAfterFirst(p, s + ['.'] + m, '.');
    Text.SplitIncludes(args.methodPath.value, '.');
  }

  /** With three or more segments, the first three name package, service and
      method, and everything after the third dot is ignored. */
  lemma LaterSegmentsIgnored(args: Args, schema: Schema, p: string, s: string, m: string, rest: string)
    requires '.' !in p && '.' !in s && '.' !in m
    requires !args.help && !args.list && args.methodPath == Some(p + "." + s + "." + m + "." + rest)
    ensures Route(args, schema) == Resolve(schema, p, s, m, args)
  {
    DottedPath(p, s, m, rest);
    ThreeSegments(p, s, m, rest);
    Text.SplitIncludes(args.methodPath.value, '.');
  }

  /** A method that is not among the service's lists them all, joined by ", ". */
  lemma MissingMethodListsAvailable(schema: Schema, pkgName: string, svcName: string, methodName: string,
                                    args: Args, methods: seq<string>)
    requires LookupEntry(schema, pkgName).Some? && LookupEntry(schema, pkgName).value.Package?
    requires LookupMember(LookupEntry(schema, pkgName).value.members, svcName) == Some(Service(methods))
    requires methodName !in methods
    ensures Resolve(schema, pkgName, svcName, methodName, args) ==
              Failed(["Method not found on service: " + methodName, "Available: " + Text.Join(methods, ", ")])
  {
  }
}
