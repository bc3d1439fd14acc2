/**
 * The front end of nssh as a whole: scan the arguments, assemble the
 * settings of every hop, refuse a plan with no hop or with a forward
 * target but no command, and decide whether the session gets a terminal.
 */
module FrontEnd {
  import opened Wrappers
  import opened Diagnostics
  import Args
  import Hops

  /** Everything the front end hands to the dialling and session code. */
  datatype Plan = Plan(
    verbosity: nat,
    hops: seq<Hops.HopConfig>,  // one per descriptor, in order
    command: seq<string>,       // empty for an interactive shell
    forward: string,            // the --run_local_fwd target, "" when absent
    useTTY: bool)               // whether the session asks for a terminal

  /**
   * Whether the session asks for a terminal: forced on, else forced off,
   * else exactly when there is no command to run.
   */
  function UseTTY(forceOn: bool, forceOff: bool, command: seq<string>): (tty: bool)
    ensures forceOn ==> tty
    ensures !forceOn && forceOff ==> !tty
    ensures !forceOn && !forceOff ==> (tty <==> command == [])
  {
    if forceOn then true
    else if forceOff then false
    else |command| == 0
  }

  /**
   * The outcome of the front end for the arguments args: the first error
   * of the scan, of a hop, or of the checks on the hop count and the
   * forward target, otherwise the plan.
   */
  function Prepare(args: seq<string>, env: Hops.Environment): (r: Result<Plan, Error>)
    ensures Args.Scan(args, env.homeKeyPath).Err? ==> r == Err(Args.Scan(args, env.homeKeyPath).error)
    ensures Args.Scan(args, env.homeKeyPath).Ok? ==>
      var st := Args.Scan(args, env.homeKeyPath).value;
      var hops := Hops.Assemble(st.hops, st.globalKey, st.indexedKeys, env);
      && (hops.Err? ==> r == Err(hops.error))
      && (hops.Ok? && st.hops == [] ==> r == Err(NoHops))
      && (hops.Ok? && st.hops != [] && st.forward != "" && st.command == [] ==> r == Err(ForwardWithoutCommand))
      && (r.Ok? <==> hops.Ok? && st.hops != [] && (st.forward != "" ==> st.command != []))
    ensures r.Ok? ==> |r.value.hops| > 0
    ensures r.Ok? ==> (r.value.forward != "" ==> r.value.command != [])
    ensures r.Ok? ==> (r.value.useTTY <==> r.value.command == [])
    ensures r.Ok? ==> Args.Scan(args, env.homeKeyPath).Ok?
    ensures r.Ok? ==>
      var st := Args.Scan(args, env.homeKeyPath).value;
      && |r.value.hops| == |st.hops|
      && (forall k :: 0 <= k < |st.hops| ==>
            Hops.ResolveHop(k, st.hops[k], st.globalKey, st.indexedKeys, env) == Ok(r.value.hops[k]))
      && r.value.command == st.command && r.value.forward == st.forward && r.value.verbosity == st.verbosity
  {
    match Args.Scan(args, env.homeKeyPath)
    case Err(e) => Err(e)
    case Ok(st) =>
      match Hops.Assemble(st.hops, st.globalKey, st.indexedKeys, env)
      case Err(e) => Err(e)
      case Ok(configs) =>
        if |configs| == 0 then Err(NoHops)
        else if st.forward != "" && |st.command| == 0 then Err(ForwardWithoutCommand)
        else Ok(Plan(st.verbosity, configs, st.command, st.forward, UseTTY(false, false, st.command)))
  }

  /** The front end as nssh runs it: the scanning loop, the hop loop, then the checks. */
  method Configure(args: seq<string>, env: Hops.Environment) returns (r: Result<Plan, Error>)
    ensures r == Prepare(args, env)
  {
    var scanned := Args.ScanArgs(args, env.homeKeyPath);
    if scanned.Err? {
      return Err(scanned.error);
    }
    var st := scanned.value;
    var assembled := Hops.AssembleHops(st.hops, st.globalKey, st.indexedKeys, env);
    if assembled.Err? {
      return Err(assembled.error);
    }
    var hopConfigs := assembled.value;
    if |hopConfigs| == 0 {
      return Err(NoHops);
    }
    if st.forward != "" {
      if |st.command| == 0 {
        return Err(ForwardWithoutCommand);
      }
    }
    var forceTTYOn := false;
    var forceTTYOff := false;
    var useTTY: bool;
    if forceTTYOn {
      useTTY := true;
    } else if forceTTYOff {
      useTTY := false;
    } else {
      useTTY := |st.command| == 0;
    }
    r := Ok(Plan(st.verbosity, hopConfigs, st.command, st.forward, useTTY));
  }

  /** A non-empty subsequence starts with an element of the sequence it is taken from. */
  lemma {:induction false} SubsequenceHead(xs: seq<string>, ys: seq<string>)
    requires xs != [] && Args.IsSubsequence(xs, ys)
    ensures xs[0] in ys
    decreases |ys|
  {
    if xs[0] != ys[0] {
      SubsequenceHead(xs, ys[1..]);
    }
  }

  /**
   * Without an argument that reads as a hop descriptor, the front end
   * fails: with the error of the scan or of a key, or with NoHops.
   */
  lemma NoDescriptorNoPlan(args: seq<string>, env: Hops.Environment)
    requires forall j :: 0 <= j < |args| ==> Args.Classify(args[j]) != Args.Descriptor
    ensures Prepare(args, env).Err?
    ensures Args.Scan(args, env.homeKeyPath).Ok? ==> Prepare(args, env) == Err(NoHops)
  {
    var scan := Args.Scan(args, env.homeKeyPath);
    if scan.Ok? {
      var st := scan.value;
      Args.RunHops(Args.Initial(env.homeKeyPath), args);
      Args.ScannedHopsMeaning(false, args);
      assert [] + Args.ScannedHops(false, args) == Args.ScannedHops(false, args);
      assert st.hops == Args.ScannedHops(false, args);
      if st.hops != [] {
        SubsequenceHead(st.hops, args);
      }
      assert st.hops == [];
      var noConfigs: seq<Hops.HopConfig> := [];
      assert Hops.Collect(Hops.HopResults(st.hops, st.globalKey, st.indexedKeys, env)) == Ok(noConfigs);
    }
  }

  /**
   * The plain invocation "nssh HOP... [COMMAND...]": every hop uses the
   * default key path, the command is taken as given, nothing is forwarded,
   * and a terminal is requested exactly for an interactive shell.
   */
  lemma PlainInvocation(ds: seq<string>, tail: seq<string>, env: Hops.Environment)
    requires ds != [] && Args.AllDescriptors(ds)
    requires tail == [] || Args.Classify(tail[0]) == Args.CommandStart
    requires Hops.Assemble(ds, env.homeKeyPath, map[], env).Ok?
    ensures Prepare(ds + tail, env) ==
      Ok(Plan(0, Hops.Assemble(ds, env.homeKeyPath, map[], env).value, tail, "", tail == []))
  {
    Args.ScanPlain(ds, tail, env.homeKeyPath);
  }
}
