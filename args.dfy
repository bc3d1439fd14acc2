/**
 * The argument scanner of nssh: a left-to-right pass over the command-line
 * arguments that sorts each one into an option, a hop descriptor or the
 * start of the command to run, and accumulates what it finds.
 */
module Args {
  import opened Wrappers
  import opened Diagnostics
  import Numbers

  /** What a pending option (-i or --run_local_fwd) does with the next argument. */
  datatype Pending =
    | Nothing
    | KeyPath(index: string)  // -i<index>: the next argument is a key path; "" means every hop
    | ForwardTarget           // --run_local_fwd: the next argument is the forward target

  /** The class of one argument that no pending option consumes. */
  datatype ArgClass =
    | ShortOpts(verbose: nat, key: Option<string>)  // "-vvi2": two 'v's, then 'i' with index "2"
    | BadShort(option: char)                         // a cluster letter other than 'v' and 'i'
    | LongOpt(name: string)                          // "--name"
    | Descriptor                                     // no leading '-', contains '@'
    | CommandStart                                   // anything else

  /** Adds n to the verbosity count of a short-option cluster. */
  function AddVerbose(n: nat, c: ArgClass): ArgClass {
    match c
    case ShortOpts(v, key) => ShortOpts(n + v, key)
    case _ => c
  }

  /**
   * The letters of a short-option cluster after its leading '-': each 'v'
   * counts once, 'i' ends the cluster and the rest of it is the hop index,
   * any other letter is an error.
   */
  function Cluster(s: string): (c: ArgClass)
    ensures c.ShortOpts? || c.BadShort?
  {
    if s == [] then ShortOpts(0, None)
    else if s[0] == 'v' then AddVerbose(1, Cluster(s[1..]))
    else if s[0] == 'i' then ShortOpts(0, Some(s[1..]))
    else BadShort(s[0])
  }

  /**
   * The cluster is read up to its first letter other than 'v': that letter
   * is the unknown one, unless it is an 'i', whose key index is all the
   * rest of the cluster.
   */
  lemma {:induction false} ClusterMeaning(s: string)
    ensures var c := Cluster(s);
      && (c.BadShort? ==>
            c.option != 'v' && c.option != 'i' &&
            exists j :: 0 <= j < |s| && s[j] == c.option && forall m :: 0 <= m < j ==> s[m] == 'v')
      && (c.ShortOpts? && c.key.Some? ==>
            var j := |s| - |c.key.value| - 1;
            0 <= j && s[j] == 'i' && s[j + 1..] == c.key.value && forall m :: 0 <= m < j ==> s[m] == 'v')
    decreases |s|
  {
    if s != [] && s[0] == 'v' {
      var c := Cluster(s[1..]);
      ClusterMeaning(s[1..]);
      if c.BadShort? {
        var j :| 0 <= j < |s[1..]| && s[1..][j] == c.option && forall m :: 0 <= m < j ==> s[1..][m] == 'v';
        assert s[j + 1] == c.option;
        assert forall m :: 0 <= m < j + 1 ==> s[m] == 'v' by {
          forall m | 0 <= m < j + 1 ensures s[m] == 'v' {
            if m > 0 { assert s[m] == s[1..][m - 1]; }
          }
        }
      } else if c.key.Some? {
        var j := |s[1..]| - |c.key.value| - 1;
        assert s[1..][j + 1..] == s[j + 2..];
        forall m | 0 <= m < j + 1 ensures s[m] == 'v' {
          if m > 0 { assert s[m] == s[1..][m - 1]; }
        }
      }
    } else if s != [] && s[0] != 'i' {
      assert s[0] == Cluster(s).option;
    }
  }

  function Classify(arg: string): ArgClass {
    if |arg| > 0 && arg[0] == '-' then
      if |arg| > 1 && arg[1] == '-' then LongOpt(arg[2..]) else Cluster(arg[1..])
    else if '@' in arg then Descriptor
    else CommandStart
  }

  /**
   * Classifies one argument by walking its characters with the flags nssh
   * keeps (short option seen, long option seen, number of '@').
   */
  method ClassifyArg(arg: string) returns (c: ArgClass)
    ensures c == Classify(arg)
  {
    var isShort := false;
    var isLong := false;
    var atCount := 0;
    var verbose := 0;
    var key: Option<string> := None;
    var rest := arg;
    var i := 0;
    while i < |arg|
      invariant 0 <= i <= |arg|
      invariant !isLong && key.None?
      invariant isShort <==> i > 0 && arg[0] == '-'
      invariant isShort && i > 1 ==> arg[1] != '-'
      invariant isShort ==> AddVerbose(verbose, Cluster(arg[i..])) == Cluster(arg[1..])
      invariant !isShort ==> verbose == 0
      invariant !isShort ==> (atCount > 0 <==> '@' in arg[..i])
    {
      var ch := arg[i];
      if i == 0 && ch == '-' {
        isShort := true;
        i := i + 1;
        continue;
      } else if isShort && i == 1 && ch == '-' {
        isShort := false;
        isLong := true;
        rest := arg[i + 1..];
        break;
      }
      if isShort {
        if ch == 'v' {
          assert arg[i..][1..] == arg[i + 1..];
          assert Cluster(arg[i..]) == AddVerbose(1, Cluster(arg[i + 1..]));
          verbose := verbose + 1;
        } else if ch == 'i' {
          key := Some(arg[i + 1..]);
          break;
        } else {
          return BadShort(ch);
        }
      }
      if ch == '@' {
        atCount := atCount + 1;
      }
      assert arg[..i + 1] == arg[..i] + [ch];
      i := i + 1;
    }
    assert i == |arg| ==> arg[..i] == arg;
    if isShort {
      c := ShortOpts(verbose, key);
    } else if isLong {
      c := LongOpt(rest);
    } else if atCount > 0 {
      c := Descriptor;
    } else {
      c := CommandStart;
    }
  }

  /** What the scan has accumulated so far. */
  datatype ScanState = ScanState(
    verbosity: nat,
    globalKey: string,              // key path for hops without an indexed one
    indexedKeys: map<int, string>,  // key path per hop index, from -i<index>
    forward: string,                // target of --run_local_fwd, "" when absent
    hops: seq<string>,              // hop descriptors, in order
    command: seq<string>,           // the command to run, unscanned
    pending: Pending)               // what the next argument will be consumed as

  function Initial(homeKeyPath: string): ScanState {
    ScanState(0, homeKeyPath, map[], "", [], [], Nothing)
  }

  /** A pending option consumes the argument whole. */
  function Consume(st: ScanState, arg: string): (r: Result<ScanState, Error>)
    requires st.pending != Nothing
    ensures r.Ok? ==> r.value.pending == Nothing && r.value.hops == st.hops && r.value.command == st.command
  {
    match st.pending
    case ForwardTarget => Ok(st.(forward := arg, pending := Nothing))
    case KeyPath(index) =>
      if index == "" then Ok(st.(globalKey := arg, pending := Nothing))
      else match Numbers.Atoi(index)
        case None => Err(NotAnInteger(index))
        case Some(n) => Ok(st.(indexedKeys := st.indexedKeys[n := arg], pending := Nothing))
  }

  /**
   * Scans the remaining arguments from state st. The first argument that
   * starts the command, or the one after "--cmd", ends the scan with it and
   * all later arguments as the command. A pending option left at the end
   * is dropped.
   */
  function Run(st: ScanState, args: seq<string>): Result<ScanState, Error>
    decreases |args|
  {
    if args == [] then Ok(st)
    else if st.pending != Nothing then
      match Consume(st, args[0])
      case Err(e) => Err(e)
      case Ok(next) => Run(next, args[1..])
    else
      match Classify(args[0])
      case ShortOpts(n, key) =>
        Run(st.(verbosity := st.verbosity + n, pending := if key.Some? then KeyPath(key.value) else Nothing), args[1..])
      case BadShort(c) => Err(UnknownShortOption(c))
      case LongOpt(name) =>
        if name == "cmd" then Ok(st.(command := args[1..]))
        else if name == "run_local_fwd" then Run(st.(pending := ForwardTarget), args[1..])
        else Err(UnknownLongOption(name))
      case Descriptor => Run(st.(hops := st.hops + [args[0]]), args[1..])
      case CommandStart => Ok(st.(command := args))
  }

  function Scan(args: seq<string>, homeKeyPath: string): Result<ScanState, Error> {
    Run(Initial(homeKeyPath), args)
  }

  /**
   * The scanning loop of nssh: one pass over the arguments with the
   * pending consumer, the verbosity counter, the key paths, the forward
   * target, the hop list and the command as variables.
   */
  method ScanArgs(args: seq<string>, homeKeyPath: string) returns (r: Result<ScanState, Error>)
    ensures r == Scan(args, homeKeyPath)
  {
    var verbosity := 0;
    var globalKey := homeKeyPath;
    var indexedKeys: map<int, string> := map[];
    var forward := "";
    var hops: seq<string> := [];
    var command: seq<string> := [];
    var pending := Nothing;
    var i := 0;
    while i < |args|
      invariant 0 <= i <= |args|
      invariant command == []
      invariant Run(ScanState(verbosity, globalKey, indexedKeys, forward, hops, command, pending), args[i..])
             == Scan(args, homeKeyPath)
    {
      var arg := args[i];
      assert args[i..][1..] == args[i + 1..];
      var consumer := pending;
      pending := Nothing;
      if consumer != Nothing {
        match consumer {
          case ForwardTarget =>
            forward := arg;
          case KeyPath(index) =>
            if index == "" {
              globalKey := arg;
            } else {
              var n := Numbers.Atoi(index);
              if n.None? {
                return Err(NotAnInteger(index));
              }
              indexedKeys := indexedKeys[n.value := arg];
            }
        }
        i := i + 1;
        continue;
      }
      var c := ClassifyArg(arg);
      match c {
        case ShortOpts(n, key) =>
          verbosity := verbosity + n;
          if key.Some? {
            pending := KeyPath(key.value);
          }
        case BadShort(option) =>
          return Err(UnknownShortOption(option));
        case LongOpt(name) =>
          if name == "cmd" {
            command := args[i + 1..];
            break;
          } else if name == "run_local_fwd" {
            pending := ForwardTarget;
          } else {
            return Err(UnknownLongOption(name));
          }
        case Descriptor =>
          hops := hops + [arg];
        case CommandStart =>
          command := args[i..];
          break;
      }
      i := i + 1;
    }
    r := Ok(ScanState(verbosity, globalKey, indexedKeys, forward, hops, command, pending));
  }

  /** Every argument of ds is a hop descriptor. */
  predicate AllDescriptors(ds: seq<string>) {
    forall j :: 0 <= j < |ds| ==> Classify(ds[j]) == Descriptor
  }

  /** xs can be obtained from ys by deleting elements. */
  ghost predicate IsSubsequence(xs: seq<string>, ys: seq<string>)
    decreases |ys|
  {
    if xs == [] then true
    else if ys == [] then false
    else (xs[0] == ys[0] && IsSubsequence(xs[1..], ys[1..])) || IsSubsequence(xs, ys[1..])
  }

  /** A run of hop descriptors is appended to the hop list in order. */
  lemma {:induction false} RunDescriptors(st: ScanState, ds: seq<string>, rest: seq<string>)
    requires st.pending == Nothing && AllDescriptors(ds)
    ensures Run(st, ds + rest) == Run(st.(hops := st.hops + ds), rest)
    decreases |ds|
  {
    if ds == [] {
      assert ds + rest == rest;
      assert st.hops + ds == st.hops;
    } else {
      assert (ds + rest)[1..] == ds[1..] + rest;
      RunDescriptors(st.(hops := st.hops + [ds[0]]), ds[1..], rest);
      assert st.hops + [ds[0]] + ds[1..] == st.hops + ds;
    }
  }

  /**
   * Hop descriptors followed by the first argument that is neither an
   * option nor a descriptor: the descriptors are the hops and that
   * argument with everything after it is the command, unscanned, whatever
   * it holds.
   */
  lemma ScanPlain(ds: seq<string>, tail: seq<string>, homeKeyPath: string)
    requires AllDescriptors(ds)
    requires tail == [] || Classify(tail[0]) == CommandStart
    ensures Scan(ds + tail, homeKeyPath) == Ok(Initial(homeKeyPath).(hops := ds, command := tail))
  {
    RunDescriptors(Initial(homeKeyPath), ds, tail);
    assert Initial(homeKeyPath).hops + ds == ds;
  }

  /** "--cmd" makes every later argument the command, options and descriptors included. */
  lemma ScanCmdFlag(ds: seq<string>, tail: seq<string>, homeKeyPath: string)
    requires AllDescriptors(ds)
    ensures Scan(ds + ["--cmd"] + tail, homeKeyPath) == Ok(Initial(homeKeyPath).(hops := ds, command := tail))
  {
    assert ds + ["--cmd"] + tail == ds + (["--cmd"] + tail);
    RunDescriptors(Initial(homeKeyPath), ds, ["--cmd"] + tail);
    assert Classify("--cmd") == LongOpt("cmd");
    assert (["--cmd"] + tail)[1..] == tail;
    assert Initial(homeKeyPath).hops + ds == ds;
  }

  /**
   * "-i PATH" replaces the global key path; "-iN PATH" records PATH for
   * hop N, and an index that is not an integer is an error raised when
   * PATH is consumed. PATH itself is never classified.
   */
  lemma RunKeyOption(st: ScanState, index: string, path: string, rest: seq<string>)
    requires st.pending == Nothing
    ensures Run(st, ["-i" + index, path] + rest) ==
      if index == "" then Run(st.(globalKey := path), rest)
      else match Numbers.Atoi(index)
        case None => Err(NotAnInteger(index))
        case Some(n) => Run(st.(indexedKeys := st.indexedKeys[n := path]), rest)
  {
    var arg := "-i" + index;
    assert arg[1..][1..] == index;
    assert Classify(arg) == ShortOpts(0, Some(index));
    var args := [arg, path] + rest;
    assert args[1..] == [path] + rest;
    assert args[1..][1..] == rest;
  }

  /** A key option with nothing after it is dropped, even when its index is not an integer. */
  lemma RunTrailingKeyOption(st: ScanState, arg: string)
    requires st.pending == Nothing && Classify(arg).ShortOpts? && Classify(arg).key.Some?
    ensures Run(st, [arg]).Ok?
    ensures Run(st, [arg]).value.hops == st.hops && Run(st, [arg]).value.globalKey == st.globalKey
    ensures Run(st, [arg]).value.indexedKeys == st.indexedKeys
  {
    assert [arg][1..] == [];
  }

  /** "--run_local_fwd TARGET" records TARGET as the forward target, unclassified. */
  lemma RunForwardOption(st: ScanState, target: string, rest: seq<string>)
    requires st.pending == Nothing
    ensures Run(st, ["--run_local_fwd", target] + rest) == Run(st.(forward := target), rest)
  {
    assert Classify("--run_local_fwd") == LongOpt("run_local_fwd");
    var args := ["--run_local_fwd", target] + rest;
    assert args[1..] == [target] + rest;
    assert args[1..][1..] == rest;
  }

  /** Any other long option, the bare "--" included, stops the scan with an error. */
  lemma RunUnknownLongOption(st: ScanState, name: string, rest: seq<string>)
    requires st.pending == Nothing && name != "cmd" && name != "run_local_fwd"
    ensures Run(st, ["--" + name] + rest) == Err(UnknownLongOption(name))
  {
    assert ("--" + name)[2..] == name;
  }

  /** Each 'v' of a cluster adds one to the verbosity. */
  lemma {:induction false} ClusterVerbosity(vs: string, tail: string)
    requires forall j :: 0 <= j < |vs| ==> vs[j] == 'v'
    ensures Cluster(vs + tail) == AddVerbose(|vs|, Cluster(tail))
  {
    if vs == [] {
      assert vs + tail == tail;
      assert AddVerbose(0, Cluster(tail)) == Cluster(tail);
    } else {
      assert (vs + tail)[0] == 'v';
      assert (vs + tail)[1..] == vs[1..] + tail;
      ClusterVerbosity(vs[1..], tail);
    }
  }

  /**
   * A cluster letter other than 'v' and 'i' stops the scan with an error
   * naming it, after any run of 'v's and whatever follows it.
   */
  lemma RunUnknownShortOption(st: ScanState, vs: string, option: char, tail: string, rest: seq<string>)
    requires st.pending == Nothing
    requires forall j :: 0 <= j < |vs| ==> vs[j] == 'v'
    requires option != 'v' && option != 'i' && (vs == [] ==> option != '-')
    ensures Run(st, ["-" + vs + [option] + tail] + rest) == Err(UnknownShortOption(option))
  {
    var arg := "-" + vs + [option] + tail;
    assert arg[1..] == vs + ([option] + tail);
    ClusterVerbosity(vs, [option] + tail);
    assert Cluster([option] + tail) == BadShort(option);
    if vs != [] {
      assert arg[1] == 'v';
    }
  }

  /** An argument the scan reads that makes it hand the next argument to a pending option. */
  predicate TakesNext(arg: string) {
    match Classify(arg)
    case ShortOpts(_, key) => key.Some?
    case LongOpt(name) => name == "run_local_fwd"
    case _ => false
  }

  /** An argument the scan reads that ends the scan with a command. */
  predicate StartsCommand(arg: string) {
    Classify(arg) == CommandStart || Classify(arg) == LongOpt("cmd")
  }

  /**
   * For each argument, whether the scan reads it itself rather than hand it
   * to a pending option; consumed says whether the first one is handed over.
   */
  function Classified(consumed: bool, args: seq<string>): (read: seq<bool>)
    ensures |read| == |args|
    decreases |args|
  {
    if args == [] then []
    else [!consumed] + Classified(!consumed && TakesNext(args[0]), args[1..])
  }

  /** An argument is read unless the one before it was read and takes the next. */
  lemma {:induction false} ClassifiedMeaning(consumed: bool, args: seq<string>)
    ensures var read := Classified(consumed, args);
      && (args != [] ==> read[0] == !consumed)
      && forall i :: 0 < i < |args| ==> (read[i] <==> !(read[i - 1] && TakesNext(args[i - 1])))
    decreases |args|
  {
    if args != [] {
      ClassifiedMeaning(!consumed && TakesNext(args[0]), args[1..]);
    }
  }

  /** The position of the first argument the scan reads that starts the command, if any. */
  function FirstStop(consumed: bool, args: seq<string>): (r: Option<nat>)
    ensures r.Some? ==> r.value < |args|
    decreases |args|
  {
    if args == [] then None
    else if !consumed && StartsCommand(args[0]) then Some(0)
    else
      match FirstStop(!consumed && TakesNext(args[0]), args[1..])
      case None => None
      case Some(i) => Some(i + 1)
  }

  /**
   * FirstStop finds an argument the scan reads that starts the command, and
   * no such argument comes before it.
   */
  lemma {:induction false} FirstStopMeaning(consumed: bool, args: seq<string>)
    ensures var r := FirstStop(consumed, args);
      && (r.Some? ==> Classified(consumed, args)[r.value] && StartsCommand(args[r.value]))
      && forall i :: 0 <= i < |args| && Classified(consumed, args)[i] && StartsCommand(args[i]) ==>
           r.Some? && r.value <= i
    decreases |args|
  {
    if args != [] {
      FirstStopMeaning(!consumed && TakesNext(args[0]), args[1..]);
    }
  }

  /** Whether position i comes before the first argument that starts the command. */
  predicate BeforeStop(consumed: bool, args: seq<string>, i: int) {
    var stop := FirstStop(consumed, args);
    stop.None? || i < stop.value
  }

  /** The descriptors among the arguments the scan reads before the command starts, in order. */
  function ScannedHops(consumed: bool, args: seq<string>): seq<string>
    decreases |args|
  {
    if args == [] then []
    else if !consumed && StartsCommand(args[0]) then []
    else
      var rest := ScannedHops(!consumed && TakesNext(args[0]), args[1..]);
      if !consumed && Classify(args[0]) == Descriptor then [args[0]] + rest else rest
  }

  /** Each hop of ScannedHops is a descriptor the scan reads before the command starts. */
  lemma {:induction false} ScannedHopsRead(consumed: bool, args: seq<string>)
    ensures forall h :: h in ScannedHops(consumed, args) ==>
      exists i :: 0 <= i < |args| && args[i] == h && Classified(consumed, args)[i] &&
        Classify(args[i]) == Descriptor && BeforeStop(consumed, args, i)
    decreases |args|
  {
    if args != [] && (consumed || !StartsCommand(args[0])) {
      var inner := !consumed && TakesNext(args[0]);
      ScannedHopsRead(inner, args[1..]);
      forall h | h in ScannedHops(inner, args[1..])
        ensures exists i :: 0 <= i < |args| && args[i] == h && Classified(consumed, args)[i] &&
                  Classify(args[i]) == Descriptor && BeforeStop(consumed, args, i)
      {
        var i :| 0 <= i < |args[1..]| && args[1..][i] == h && Classified(inner, args[1..])[i] &&
                 Classify(args[1..][i]) == Descriptor && BeforeStop(inner, args[1..], i);
        assert Classified(consumed, args)[i + 1] == Classified(inner, args[1..])[i];
        assert BeforeStop(consumed, args, i + 1);
      }
      if !consumed && Classify(args[0]) == Descriptor {
        assert Classified(consumed, args)[0] && BeforeStop(consumed, args, 0);
      }
    }
  }

  /**
   * ScannedHops holds only descriptors, taken from the arguments in order;
   * it holds every descriptor the scan reads before the command starts, and
   * each of its hops is such a descriptor.
   */
  lemma {:induction false} ScannedHopsMeaning(consumed: bool, args: seq<string>)
    ensures var hops := ScannedHops(consumed, args);
      && AllDescriptors(hops) && IsSubsequence(hops, args)
      && (forall i ::
           (0 <= i < |args| && Classified(consumed, args)[i] && Classify(args[i]) == Descriptor &&
            BeforeStop(consumed, args, i)) ==> args[i] in hops)
      && (forall h :: h in hops ==>
           exists i :: 0 <= i < |args| && args[i] == h && Classified(consumed, args)[i] &&
             Classify(args[i]) == Descriptor && BeforeStop(consumed, args, i))
    decreases |args|
  {
    ScannedHopsRead(consumed, args);
    if args != [] {
      ScannedHopsMeaning(!consumed && TakesNext(args[0]), args[1..]);
    }
  }

  /** One step of the scan from st, when args[0] neither fails nor ends it. */
  function Step(st: ScanState, arg: string): ScanState {
    if st.pending != Nothing then
      match Consume(st, arg)
      case Ok(next) => next
      case Err(_) => st
    else
      match Classify(arg)
      case ShortOpts(n, key) => st.(verbosity := st.verbosity + n, pending := if key.Some? then KeyPath(key.value) else Nothing)
      case LongOpt(_) => st.(pending := ForwardTarget)
      case Descriptor => st.(hops := st.hops + [arg])
      case _ => st
  }

  /**
   * Unless the scan fails or stops at args[0], it goes on from Step, with the
   * next argument handed over exactly when args[0] is read and takes it.
   */
  lemma RunStep(st: ScanState, args: seq<string>)
    requires args != [] && Run(st, args).Ok?
    requires st.pending != Nothing || !StartsCommand(args[0])
    ensures Run(st, args) == Run(Step(st, args[0]), args[1..])
    ensures Step(st, args[0]).pending != Nothing <==> st.pending == Nothing && TakesNext(args[0])
    ensures Step(st, args[0]).hops ==
              st.hops + if st.pending == Nothing && Classify(args[0]) == Descriptor then [args[0]] else []
    ensures Step(st, args[0]).command == st.command
  {
  }

  lemma ScannedHopsStep(consumed: bool, args: seq<string>)
    requires args != [] && (consumed || !StartsCommand(args[0]))
    ensures ScannedHops(consumed, args) ==
              (if !consumed && Classify(args[0]) == Descriptor then [args[0]] else []) +
              ScannedHops(!consumed && TakesNext(args[0]), args[1..])
  {
  }

  /**
   * The scan adds to the hop list exactly the descriptors among the
   * arguments it reads before the command starts, in their order.
   */
  lemma {:induction false} RunHops(st: ScanState, args: seq<string>)
    requires Run(st, args).Ok?
    ensures Run(st, args).value.hops == st.hops + ScannedHops(st.pending != Nothing, args)
    decreases |args|
  {
    if args == [] || (st.pending == Nothing && StartsCommand(args[0])) {
      assert Run(st, args).value.hops == st.hops;
    } else {
      var next := Step(st, args[0]);
      RunStep(st, args);
      RunHops(next, args[1..]);
      ScannedHopsStep(st.pending != Nothing, args);
      var own := if st.pending == Nothing && Classify(args[0]) == Descriptor then [args[0]] else [];
      var rest := ScannedHops(next.pending != Nothing, args[1..]);
      assert st.hops + own + rest == st.hops + (own + rest);
    }
  }

  /** The only argument classified as the long option "cmd" is "--cmd". */
  lemma CmdFlag(arg: string)
    requires Classify(arg) == LongOpt("cmd")
    ensures arg == "--cmd"
  {
    assert arg == arg[..2] + arg[2..];
  }

  /**
   * The command is set by the first argument the scan reads that starts it:
   * from that argument on, or from the one after it for "--cmd"; it is empty
   * when no argument the scan reads starts it.
   */
  lemma {:induction false} RunCommand(st: ScanState, args: seq<string>)
    requires st.command == [] && Run(st, args).Ok?
    ensures var cmd := Run(st, args).value.command;
      match FirstStop(st.pending != Nothing, args)
      case None => cmd == []
      case Some(i) => cmd == if args[i] == "--cmd" then args[i + 1..] else args[i..]
    decreases |args|
  {
    if args == [] {
    } else if st.pending == Nothing && StartsCommand(args[0]) {
      if Classify(args[0]) == LongOpt("cmd") {
        CmdFlag(args[0]);
      } else {
        assert args[0] != "--cmd";
      }
    } else {
      var next := Step(st, args[0]);
      RunStep(st, args);
      RunCommand(next, args[1..]);
      match FirstStop(next.pending != Nothing, args[1..])
      case None =>
      case Some(i) =>
        assert args[1..][i + 1..] == args[i + 2..];
        assert args[1..][i..] == args[i + 1..];
    }
  }
}
