/**
 * The construction-time configuration validator of the "myplug" ALSA
 * external plugin (the function that SND_PCM_PLUGIN_DEFINE_FUNC(myplug)
 * declares in ext_plugin_sample.c, with DUMMY and ENABLE_DUMP defined).
 *
 * The host's configuration tree is a sequence of nodes. A node is
 * modelled by what the host's accessors report for it: its id (None when
 * `snd_config_get_id` fails), what `snd_config_get_bool` and what
 * `snd_config_get_string` return for it. The outcome of the validator is
 * a negative status code or the populated plugin configuration.
 *
 * Step, Scan, Finish and Construct are the specification: one loop
 * iteration, the whole loop, the checks after the loop, and the entire
 * entry point. MyplugOpen is the loop itself, proved equal to Construct.
 * Accepted, Rejection, LastOf and Summary are independent, declarative
 * descriptions of the same rules (which keys exist, what they expect,
 * later nodes override earlier ones), and the lemmas connect the two.
 */
module PluginConfig {
  import opened Wrappers
  import opened Posix

  /** `enum algo_type`. */
  datatype Algo = NoAlgo | Dummy

  /** One node of the host's configuration, seen through its accessors. */
  datatype Node = Node(id: Option<string>, asBool: Result<bool>, asString: Result<string>)

  /** What the validator hands to the plugin instance when it succeeds. */
  datatype PlugConfig = PlugConfig(
    algo: Algo,
    dumpEnable: bool,
    inputName: Option<string>,
    outputName: Option<string>)

  /** Result of the entry point: a negative status code or a configuration. */
  datatype Outcome = Failed(code: NegInt) | Built(cfg: PlugConfig)

  /** The loop's working state: the locals and the fields it updates. */
  datatype Scanned = Scanned(
    slave: Option<Node>,
    help: bool,
    algo: Algo,
    dump: bool,
    ifname: Option<string>,
    ofname: Option<string>)

  /** The state before the first node: every field as calloc and line 273-280 leave it. */
  const Start := Scanned(None, false, NoAlgo, false, None, None)

  // ---------------------------------------------------------------------
  // Reference description of the accepted keys
  // ---------------------------------------------------------------------

  const BoolKeys: set<string> := {"help", "dump_enable"}
  const StringKeys: set<string> := {"algo", "input_fname", "output_fname"}
  const Keys: set<string> := {"type", "slave"} + BoolKeys + StringKeys

  /** A node the loop passes over without failing. */
  predicate Accepted(n: Node)
  {
    match n.id
    case None => true
    case Some(k) =>
      k in Keys
      && (k in BoolKeys ==> n.asBool.Ok?)
      && (k in StringKeys ==> n.asString.Ok?)
  }

  /** The status a node that is not accepted makes the entry point return. */
  function Rejection(n: Node): NegInt
    requires !Accepted(n)
  {
    var k := n.id.value;
    if k !in Keys then -EINVAL
    else if k in BoolKeys then n.asBool.code
    else n.asString.code
  }

  /** A node that selects the dummy algorithm (line 311-313). */
  predicate SelectsDummy(n: Node)
  {
    n.id == Some("algo") && n.asString == Ok("dummy")
  }

  /** The last node whose id is `key`: later nodes override earlier ones. */
  function LastOf(ns: seq<Node>, key: string): (r: Option<Node>)
    ensures r.None? <==> forall i | 0 <= i < |ns| :: ns[i].id != Some(key)
    ensures r.Some? ==> exists i | 0 <= i < |ns| ::
      ns[i] == r.value && ns[i].id == Some(key)
      && forall j | i < j < |ns| :: ns[j].id != Some(key)
    decreases |ns|
  {
    if ns == [] then None
    else if ns[|ns| - 1].id == Some(key) then Some(ns[|ns| - 1])
    else
      var r := LastOf(ns[..|ns| - 1], key);
      assert forall i | 0 <= i < |ns| - 1 :: ns[..|ns| - 1][i] == ns[i];
      r
  }

  /** Some `algo` node of `ns` names the dummy algorithm. */
  predicate AnyDummy(ns: seq<Node>)
  {
    exists i | 0 <= i < |ns| :: SelectsDummy(ns[i])
  }

  /** The boolean the last `key` node gives, or false when there is none. */
  function LastBool(ns: seq<Node>, key: string): bool
  {
    match LastOf(ns, key)
    case None => false
    case Some(n) => n.asBool == Ok(true)
  }

  /** The string the last `key` node gives, or None when there is none. */
  function LastString(ns: seq<Node>, key: string): Option<string>
  {
    match LastOf(ns, key)
    case Some(n) => if n.asString.Ok? then Some(n.asString.value) else None
    case None => None
  }

  /** The state a fully accepted configuration leaves, described per field. */
  ghost function Summary(ns: seq<Node>): Scanned
  {
    Scanned(
      LastOf(ns, "slave"),
      LastBool(ns, "help"),
      if AnyDummy(ns) then Dummy else NoAlgo,
      LastBool(ns, "dump_enable"),
      LastString(ns, "input_fname"),
      LastString(ns, "output_fname"))
  }

  /** A usable dump file name (line 363 and 367). */
  predicate NameGiven(name: Option<string>)
  {
    name.Some? && name.value != ""
  }

  /** The invariant every configuration the validator builds satisfies. */
  predicate ConfigInvariant(cfg: PlugConfig)
  {
    cfg.algo == Dummy
    && (cfg.dumpEnable ==>
          NameGiven(cfg.inputName) && NameGiven(cfg.outputName)
          && cfg.inputName != cfg.outputName)
    && (!cfg.dumpEnable ==> cfg.inputName == None && cfg.outputName == None)
  }

  // ---------------------------------------------------------------------
  // The code, as functions
  // ---------------------------------------------------------------------

  /**
   * One iteration of the loop at line 282-347: a node passes exactly when
   * it is accepted, and otherwise fails with its rejection status; no node
   * turns the dummy algorithm off again.
   */
  function Step(st: Scanned, n: Node): (r: Result<Scanned>)
    ensures r.Ok? <==> Accepted(n)
    ensures !Accepted(n) ==> r == Err(Rejection(n))
    ensures r.Ok? && st.algo == Dummy ==> r.value.algo == Dummy
  {
    match n.id
    case None => Ok(st)
    case Some(id) =>
      if id == "type" then Ok(st)
      else if id == "slave" then Ok(st.(slave := Some(n)))
      else if id == "help" then
        match n.asBool
        case Err(c) => Err(c)
        case Ok(b) => Ok(st.(help := b))
      else if id == "algo" then
        match n.asString
        case Err(c) => Err(c)
        case Ok(s) => Ok(if s == "dummy" then st.(algo := Dummy) else st)
      else if id == "dump_enable" then
        match n.asBool
        case Err(c) => Err(c)
        case Ok(b) => Ok(st.(dump := b))
      else if id == "input_fname" then
        match n.asString
        case Err(c) => Err(c)
        case Ok(s) => Ok(st.(ifname := Some(s)))
      else if id == "output_fname" then
        match n.asString
        case Err(c) => Err(c)
        case Ok(s) => Ok(st.(ofname := Some(s)))
      else Err(-EINVAL)
  }

  /**
   * The whole loop, from state `st`: it stops at the first failing node,
   * and runs to its end exactly when every node is accepted.
   */
  function Scan(ns: seq<Node>, st: Scanned): (r: Result<Scanned>)
    ensures r.Ok? <==> forall i | 0 <= i < |ns| :: Accepted(ns[i])
    decreases |ns|
  {
    if ns == [] then Ok(st)
    else
      assert forall i | 1 <= i < |ns| :: ns[i] == ns[1..][i - 1];
      match Step(st, ns[0])
      case Err(c) => Err(c)
      case Ok(st') => Scan(ns[1..], st')
  }

  /**
   * The checks after the loop (line 348-377) and the host's creation of
   * the PCM (line 384-388), whose status is `createErr`.
   */
  function Finish(st: Scanned, createErr: int): (r: Outcome)
    ensures r.Built? ==> ConfigInvariant(r.cfg)
  {
    if st.slave.None? then Failed(-EINVAL)
    else if st.algo == NoAlgo then Failed(-EINVAL)
    else if st.help then Failed(-EAGAIN)
    else if st.dump && !NameGiven(st.ifname) then Failed(-EINVAL)
    else if st.dump && !NameGiven(st.ofname) then Failed(-EINVAL)
    else if st.dump && st.ifname == st.ofname then Failed(-EINVAL)
    else if createErr < 0 then Failed(createErr)
    else Built(PlugConfig(
      st.algo,
      st.dump,
      if st.dump then st.ifname else None,
      if st.dump then st.ofname else None))
  }

  /**
   * The entry point: `allocFails` says whether calloc of the instance
   * fails, `createErr` is the status `snd_pcm_extplug_create` returns.
   */
  function Construct(ns: seq<Node>, allocFails: bool, createErr: int): (r: Outcome)
    ensures r.Built? ==> ConfigInvariant(r.cfg)
    ensures allocFails ==> r == Failed(-ENOMEM)
  {
    if allocFails then Failed(-ENOMEM)
    else
      match Scan(ns, Start)
      case Err(c) => Failed(c)
      case Ok(st) => Finish(st, createErr)
  }

  // ---------------------------------------------------------------------
  // The code, as the loop it is
  // ---------------------------------------------------------------------

  /** SND_PCM_PLUGIN_DEFINE_FUNC(myplug), up to the registration of formats. */
  method MyplugOpen(conf: seq<Node>, allocFails: bool, createErr: int) returns (r: Outcome)
    ensures r == Construct(conf, allocFails, createErr)
  {
    if allocFails {
      return Failed(-ENOMEM);
    }
    var slave: Option<Node> := None;
    var helpStatus := false;
    var algo := NoAlgo;
    var dumpEnable := false;
    var ifname: Option<string> := None;
    var ofname: Option<string> := None;
    var i := 0;
    while i < |conf|
      invariant 0 <= i <= |conf|
      invariant Scan(conf, Start)
             == Scan(conf[i..], Scanned(slave, helpStatus, algo, dumpEnable, ifname, ofname))
    {
      var n := conf[i];
      assert conf[i..][0] == n && conf[i..][1..] == conf[i + 1..];
      i := i + 1;
      if n.id.None? {
        continue;
      }
      var id := n.id.value;
      if id == "type" {
        continue;
      }
      if id == "slave" {
        slave := Some(n);
        continue;
      }
      if id == "help" {
        if n.asBool.Err? {
          return Failed(n.asBool.code);
        }
        helpStatus := n.asBool.value;
        continue;
      }
      if id == "algo" {
        if n.asString.Err? {
          return Failed(n.asString.code);
        }
        if n.asString.value == "dummy" {
          algo := Dummy;
        }
        continue;
      }
      if id == "dump_enable" {
        if n.asBool.Err? {
          return Failed(n.asBool.code);
        }
        dumpEnable := n.asBool.value;
        continue;
      }
      if id == "input_fname" {
        if n.asString.Err? {
          return Failed(n.asString.code);
        }
        ifname := Some(n.asString.value);
        continue;
      }
      if id == "output_fname" {
        if n.asString.Err? {
          return Failed(n.asString.code);
        }
        ofname := Some(n.asString.value);
        continue;
      }
      return Failed(-EINVAL);
    }
    assert conf[i..] == [];
    if slave.None? {
      return Failed(-EINVAL);
    }
    if algo == NoAlgo {
      return Failed(-EINVAL);
    }
    if helpStatus {
      return Failed(-EAGAIN);
    }
    var inputName, outputName: Option<string> := None, None;
    if dumpEnable {
      if ifname.None? || |ifname.value| == 0 {
        return Failed(-EINVAL);
      }
      if ofname.None? || |ofname.value| == 0 {
        return Failed(-EINVAL);
      }
      if ifname.value == ofname.value {
        return Failed(-EINVAL);
      }
      inputName, outputName := ifname, ofname;
    }
    if createErr < 0 {
      return Failed(createErr);
    }
    r := Built(PlugConfig(algo, dumpEnable, inputName, outputName));
  }

  // ---------------------------------------------------------------------
  // Lemmas: the loop against the reference description
  // ---------------------------------------------------------------------

  /** Splitting the configuration: the loop over `p + q` is the loop over `p`, then over `q`. */
  lemma {:induction false} ScanAppend(p: seq<Node>, q: seq<Node>, st: Scanned)
    ensures Scan(p + q, st)
         == match Scan(p, st)
            case Err(c) => Err(c)
            case Ok(st') => Scan(q, st')
    decreases |p|
  {
    if p == [] {
      assert p + q == q;
    } else {
      assert (p + q)[0] == p[0] && (p + q)[1..] == p[1..] + q;
      match Step(st, p[0])
      case Err(c) =>
      case Ok(st') => ScanAppend(p[1..], q, st');
    }
  }

  /**
   * The first node that is not accepted decides the outcome of the loop,
   * whatever state it starts from and whatever nodes follow it.
   */
  lemma {:induction false} ScanFirstRejection(ns: seq<Node>, k: nat, st: Scanned)
    requires k < |ns| && !Accepted(ns[k])
    requires forall j | 0 <= j < k :: Accepted(ns[j])
    ensures Scan(ns, st) == Err(Rejection(ns[k]))
    decreases k
  {
    if k > 0 {
      ScanFirstRejection(ns[1..], k - 1, Step(st, ns[0]).value);
    }
  }

  lemma LastOfSnoc(p: seq<Node>, n: Node, key: string)
    ensures LastOf(p + [n], key) == if n.id == Some(key) then Some(n) else LastOf(p, key)
  {
    assert (p + [n])[..|p|] == p;
  }

  lemma AnyDummySnoc(p: seq<Node>, n: Node)
    ensures AnyDummy(p + [n]) <==> AnyDummy(p) || SelectsDummy(n)
  {
    var q := p + [n];
    assert forall i | 0 <= i < |p| :: q[i] == p[i];
    assert q[|p|] == n;
  }

  /** The summary of `p + [n]`, field by field, from the summary of `p`. */
  lemma SummarySnoc(p: seq<Node>, n: Node)
    ensures Summary(p + [n]) == Scanned(
      if n.id == Some("slave") then Some(n) else Summary(p).slave,
      if n.id == Some("help") then n.asBool == Ok(true) else Summary(p).help,
      if SelectsDummy(n) then Dummy else Summary(p).algo,
      if n.id == Some("dump_enable") then n.asBool == Ok(true) else Summary(p).dump,
      if n.id == Some("input_fname") then
        (if n.asString.Ok? then Some(n.asString.value) else None)
      else Summary(p).ifname,
      if n.id == Some("output_fname") then
        (if n.asString.Ok? then Some(n.asString.value) else None)
      else Summary(p).ofname)
  {
    LastOfSnoc(p, n, "slave");
    LastOfSnoc(p, n, "help");
    LastOfSnoc(p, n, "dump_enable");
    LastOfSnoc(p, n, "input_fname");
    LastOfSnoc(p, n, "output_fname");
    AnyDummySnoc(p, n);
  }

  /** One accepted node moves the summary of `p` to the summary of `p + [n]`. */
  lemma StepSummary(p: seq<Node>, n: Node)
    requires Accepted(n)
    ensures Step(Summary(p), n) == Ok(Summary(p + [n]))
  {
    SummarySnoc(p, n);
  }

  /**
   * When every node is accepted, the loop leaves exactly the per-field
   * description: the last `slave`, `help`, `dump_enable`, `input_fname`
   * and `output_fname` win, and the algorithm is Dummy exactly when some
   * `algo` node says "dummy".
   */
  lemma {:induction false} ScanSummary(ns: seq<Node>)
    requires forall i | 0 <= i < |ns| :: Accepted(ns[i])
    ensures Scan(ns, Start) == Ok(Summary(ns))
    decreases |ns|
  {
    if ns != [] {
      var p, n := ns[..|ns| - 1], ns[|ns| - 1];
      assert ns == p + [n];
      assert forall i | 0 <= i < |p| :: p[i] == ns[i];
      ScanSummary(p);
      ScanAppend(p, [n], Start);
      StepSummary(p, n);
      assert Scan([n], Summary(p)) == Step(Summary(p), n);
    }
  }

  /** Once an `algo` node has said "dummy", no later node resets the algorithm. */
  lemma {:induction false} AlgoLatch(ns: seq<Node>, st: Scanned)
    requires st.algo == Dummy && Scan(ns, st).Ok?
    ensures Scan(ns, st).value.algo == Dummy
    decreases |ns|
  {
    if ns != [] {
      AlgoLatch(ns[1..], Step(st, ns[0]).value);
    }
  }

  // ---------------------------------------------------------------------
  // Lemmas: the outcome of the entry point
  // ---------------------------------------------------------------------

  /**
   * The first node that is not accepted decides the outcome: -EINVAL for
   * an unknown id, the getter's own code for a value of the wrong kind.
   * No later node is looked at.
   */
  lemma FirstRejectionDecides(ns: seq<Node>, k: nat, createErr: int)
    requires k < |ns| && !Accepted(ns[k])
    requires forall j | 0 <= j < k :: Accepted(ns[j])
    ensures Construct(ns, false, createErr) == Failed(Rejection(ns[k]))
  {
    ScanFirstRejection(ns, k, Start);
  }

  /** A readable id outside the seven known keys makes construction fail with -EINVAL. */
  lemma UnknownKeyRejected(ns: seq<Node>, k: nat, createErr: int)
    requires k < |ns| && ns[k].id.Some? && ns[k].id.value !in Keys
    requires forall j | 0 <= j < k :: Accepted(ns[j])
    ensures Construct(ns, false, createErr) == Failed(-EINVAL)
  {
    FirstRejectionDecides(ns, k, createErr);
  }

  /**
   * A `help` or `dump_enable` node that is not a boolean, or an `algo`,
   * `input_fname` or `output_fname` node that is not a string, makes
   * construction fail with the getter's code, whatever follows it.
   */
  lemma MistypedValueRejected(ns: seq<Node>, k: nat, rest: seq<Node>, createErr: int)
    requires k < |ns| && ns[k].id.Some?
    requires forall j | 0 <= j < k :: Accepted(ns[j])
    requires (ns[k].id.value in BoolKeys && ns[k].asBool.Err?)
          || (ns[k].id.value in StringKeys && ns[k].asString.Err?)
    ensures Construct(ns[..k + 1] + rest, false, createErr)
         == Failed(if ns[k].id.value in BoolKeys then ns[k].asBool.code else ns[k].asString.code)
  {
    var ms := ns[..k + 1] + rest;
    assert forall j | 0 <= j <= k :: ms[j] == ns[j];
    FirstRejectionDecides(ms, k, createErr);
  }

  /** With every node accepted, construction is the post-loop checks applied to the per-field summary. */
  lemma ConstructOfAccepted(ns: seq<Node>, createErr: int)
    requires forall i | 0 <= i < |ns| :: Accepted(ns[i])
    ensures Construct(ns, false, createErr) == Finish(Summary(ns), createErr)
  {
    ScanSummary(ns);
  }

  /** Without a `slave` node construction fails with -EINVAL, even when `help` is set. */
  lemma MissingSlaveRejected(ns: seq<Node>, createErr: int)
    requires forall i | 0 <= i < |ns| :: Accepted(ns[i])
    requires forall i | 0 <= i < |ns| :: ns[i].id != Some("slave")
    ensures Construct(ns, false, createErr) == Failed(-EINVAL)
  {
    ConstructOfAccepted(ns, createErr);
  }

  /**
   * With a slave but no `algo` node naming "dummy" construction fails with
   * -EINVAL, even when `help` is set.
   */
  lemma MissingAlgoRejected(ns: seq<Node>, createErr: int)
    requires forall i | 0 <= i < |ns| :: Accepted(ns[i])
    requires LastOf(ns, "slave").Some?
    requires !AnyDummy(ns)
    ensures Construct(ns, false, createErr) == Failed(-EINVAL)
  {
    ConstructOfAccepted(ns, createErr);
  }

  /**
   * `help` set to true, once the slave and the algorithm are present, makes
   * construction ask the caller to try again (-EAGAIN), before the dump
   * names and the PCM creation are looked at.
   */
  lemma HelpRequested(ns: seq<Node>, createErr: int)
    requires forall i | 0 <= i < |ns| :: Accepted(ns[i])
    requires LastOf(ns, "slave").Some?
    requires AnyDummy(ns)
    requires LastBool(ns, "help")
    ensures Construct(ns, false, createErr) == Failed(-EAGAIN)
  {
    ConstructOfAccepted(ns, createErr);
  }

  /**
   * With dumping enabled, a missing or empty input name, a missing or empty
   * output name, or two equal names make construction fail with -EINVAL,
   * before the PCM is created.
   */
  lemma BadDumpNamesRejected(ns: seq<Node>, createErr: int)
    requires forall i | 0 <= i < |ns| :: Accepted(ns[i])
    requires LastOf(ns, "slave").Some?
    requires AnyDummy(ns)
    requires !LastBool(ns, "help") && LastBool(ns, "dump_enable")
    requires !NameGiven(LastString(ns, "input_fname"))
          || !NameGiven(LastString(ns, "output_fname"))
          || LastString(ns, "input_fname") == LastString(ns, "output_fname")
    ensures Construct(ns, false, createErr) == Failed(-EINVAL)
  {
    ConstructOfAccepted(ns, createErr);
  }

  /** The configuration a valid node sequence describes. */
  predicate Valid(ns: seq<Node>)
  {
    (forall i | 0 <= i < |ns| :: Accepted(ns[i]))
    && LastOf(ns, "slave").Some?
    && AnyDummy(ns)
    && !LastBool(ns, "help")
    && (LastBool(ns, "dump_enable") ==>
          NameGiven(LastString(ns, "input_fname"))
          && NameGiven(LastString(ns, "output_fname"))
          && LastString(ns, "input_fname") != LastString(ns, "output_fname"))
  }

  /**
   * Construction succeeds exactly when the nodes are valid and the host
   * creates the PCM; the configuration then holds the dummy algorithm, the
   * last `dump_enable`, and, only when dumping, the last two names.
   */
  lemma BuiltExactly(ns: seq<Node>, createErr: int)
    ensures Construct(ns, false, createErr).Built? <==> Valid(ns) && createErr >= 0
    ensures Construct(ns, false, createErr).Built? ==>
      var dump := LastBool(ns, "dump_enable");
      Construct(ns, false, createErr).cfg == PlugConfig(
        Dummy,
        dump,
        if dump then LastString(ns, "input_fname") else None,
        if dump then LastString(ns, "output_fname") else None)
  {
    if forall i | 0 <= i < |ns| :: Accepted(ns[i]) {
      ConstructOfAccepted(ns, createErr);
    }
  }
}
