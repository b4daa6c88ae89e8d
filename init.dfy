/**
 * `getConfig` and `createNode`: load the base settings, gate them on being a
 * genuine `Settings` instance, then apply the command-line overrides onto
 * them in place, in the order the program states them.
 */
module Init {
  import opened Wrappers
  import opened Strings
  import opened Bitcoin
  import opened Logging

  /**
   * The parsed command line. A string or list option is present when it is
   * non-empty, a flag when it is set, a port scalar when it was given (its
   * numeric conversion is already applied).
   */
  datatype Options = Options(
    config: string,
    addnode: seq<string>,
    forcenode: seq<string>,
    connect: string,
    nolisten: bool,
    livenet: bool,
    testnet: bool,
    port: Option<int>,
    rpcuser: string,
    rpcpassword: string,
    rpcport: Option<int>,
    netdbg: bool,
    bchdbg: bool,
    rpcdbg: bool,
    scrdbg: bool,
    mods: string)

  /** The command line with no option given. */
  const NoOptions := Options("", [], [], "", false, false, false, None, "", "", None,
                             false, false, false, false, "")

  /** Where the settings module is looked up: the resolved `--config` path, or `./settings`. */
  datatype ConfigPath = Resolved(given: string) | DefaultSettings

  function ConfigPathOf(o: Options): ConfigPath
  {
    if |o.config| > 0 then Resolved(o.config) else DefaultSettings
  }

  datatype Exception = Exception(message: string)

  /** What loading the settings module can yield; `Lookalike` is any other object, however shaped. */
  datatype Value = Undefined | Instance(settings: Settings) | Lookalike(fields: Config)

  /** The outcome of loading the settings module: a value, or a thrown exception. */
  datatype LoadResult = Returned(value: Value) | Threw(error: Exception)

  /** How the pipeline ends: a result, `process.exit(code)`, or a rethrown exception. */
  datatype Outcome<T> = Ok(value: T) | Exit(code: int) | Propagate(error: Exception)

  /** The warnings and errors this core writes. */
  datatype LogEntry =
    | NoConfigFound(path: ConfigPath)   // warning, with the remedy text naming the path
    | InvalidConfiguration              // error, right before exit(1)
    | InvalidPortSetting(value: int)    // error; the override is ignored

  const NotFoundPrefix := "Cannot find module "

  /** The test `/^Cannot find module /` on the exception's message. */
  predicate IsModuleNotFound(e: Exception)
  {
    NotFoundPrefix <= e.message
  }

  /** Load classification followed by the `instanceof Settings` gate. */
  function Validate(load: LoadResult): (r: Outcome<Settings>)
    ensures r.Propagate? <==> load.Threw? && !IsModuleNotFound(load.error)
    ensures r.Propagate? ==> r.error == load.error
    ensures r.Ok? <==> load.Returned? && load.value.Instance?
    ensures r.Ok? ==> r.value == load.value.settings
    ensures r.Exit? ==> r.code == 1
  {
    match load
    case Threw(e) => if IsModuleNotFound(e) then Exit(1) else Propagate(e)
    case Returned(v) => if v.Instance? then Ok(v.settings) else Exit(1)
  }

  /** What loading and validation write to the log. */
  function LoadLog(o: Options, load: LoadResult): seq<LogEntry>
  {
    match load
    case Threw(e) =>
      if IsModuleNotFound(e) then [NoConfigFound(ConfigPathOf(o)), InvalidConfiguration] else []
    case Returned(v) => if v.Instance? then [] else [InvalidConfiguration]
  }

  /** The objects that loading hands over to be mutated. */
  function LoadedSettings(load: LoadResult): set<object>
  {
    if load.Returned? && load.value.Instance? then {load.value.settings} else {}
  }

  /** The range test applied to a port: `!(p > 65535 || p < 0)`. */
  predicate PortInRange(p: int)
  {
    !(p > 65535 || p < 0)
  }

  /**
   * The range test guarding the rpcport override. As written in the program
   * it reads the network port option, not the rpcport one: it fails only when
   * a network port was given and is out of range.
   */
  predicate RpcPortAccepted(o: Options)
  {
    !(o.port.Some? && !PortInRange(o.port.value))
  }

  /** The value `--connect` assigns: split on commas when it holds one. */
  function ConnectValue(c: string): Connect
  {
    if ',' in c then Several(Split(c, ',')) else Single(c)
  }

  /** addnode, forcenode, connect and nolisten, in this order. */
  function PeerOverrides(n: Network, o: Options): Network
  {
    var n1 := if |o.addnode| > 0 then n.(initialPeers := n.initialPeers + o.addnode) else n;
    // As written: the forcenode list is appended to forcePeers, and the result
    // replaces initialPeers.
    var n2 := if |o.forcenode| > 0 then n1.(initialPeers := n1.forcePeers + o.forcenode) else n1;
    var n3 := if |o.connect| > 0 then n2.(connect := ConnectValue(o.connect)) else n2;
    if o.nolisten then n3.(noListen := true) else n3
  }

  /** livenet wins over testnet; neither leaves the settings alone. */
  function ApplyProfile(c: Config, o: Options, presets: Presets): Config
  {
    if o.livenet then presets(Livenet, c)
    else if o.testnet then presets(Testnet, c)
    else c
  }

  function PortOverride(n: Network, o: Options): Network
  {
    if o.port.Some? && PortInRange(o.port.value) then n.(port := o.port.value) else n
  }

  /** rpcuser, rpcpassword and rpcport, in this order. */
  function RpcOverrides(j: JsonRpc, o: Options): JsonRpc
  {
    var j1 := if |o.rpcuser| > 0 then j.(enable := true, username := o.rpcuser) else j;
    var j2 := if |o.rpcpassword| > 0 then j1.(enable := true, password := o.rpcpassword) else j1;
    if o.rpcport.Some? && RpcPortAccepted(o) then j2.(port := o.rpcport.value) else j2
  }

  function ModsOverride(m: Option<string>, o: Options): Option<string>
  {
    if |o.mods| == 0 then m
    else Some((if m.Some? then m.value + "," else "") + o.mods)
  }

  /** The overrides that follow the profile: port, the JSON-RPC settings, mods. */
  function LateOverrides(c: Config, o: Options): Config
  {
    Config(PortOverride(c.network, o), RpcOverrides(c.jsonrpc, o), ModsOverride(c.mods, o))
  }

  /** The settings after the whole override pipeline. */
  function Resolve(c: Config, o: Options, presets: Presets): Config
  {
    var early := c.(network := PeerOverrides(c.network, o));
    LateOverrides(ApplyProfile(early, o, presets), o)
  }

  /** The errors the overrides write: a bad port, then a rejected rpcport. */
  function OverrideLog(o: Options): seq<LogEntry>
  {
    (if o.port.Some? && !PortInRange(o.port.value) then [InvalidPortSetting(o.port.value)] else [])
    + (if o.rpcport.Some? && !RpcPortAccepted(o) then [InvalidPortSetting(o.rpcport.value)] else [])
  }

  /** The debug channels whose flag is set. */
  function DebugChannels(o: Options): set<string>
  {
    (if o.netdbg then {"netdbg"} else {}) + (if o.bchdbg then {"bchdbg"} else {})
    + (if o.rpcdbg then {"rpcdbg"} else {}) + (if o.scrdbg then {"scrdbg"} else {})
  }

  /** The logger levels after the debug flags. */
  function DebugLevels(levels: map<string, int>, o: Options): map<string, int>
  {
    var l1 := if o.netdbg then levels["netdbg" := 1] else levels;
    var l2 := if o.bchdbg then l1["bchdbg" := 1] else l1;
    var l3 := if o.rpcdbg then l2["rpcdbg" := 1] else l2;
    if o.scrdbg then l3["scrdbg" := 1] else l3
  }

  /** addnode, forcenode, connect and nolisten, applied onto `cfg`. */
  method ApplyPeerOverrides(cfg: Settings, o: Options)
    modifies cfg
    ensures cfg.View() == old(cfg.View()).(network := PeerOverrides(old(cfg.network), o))
  {
    if |o.addnode| > 0 {
      cfg.network := cfg.network.(initialPeers := cfg.network.initialPeers + o.addnode);
    }
    if |o.forcenode| > 0 {
      // Reproduced as written: the concatenation starts from forcePeers, so the
      // addnode entries appended just above are lost.
      cfg.network := cfg.network.(initialPeers := cfg.network.forcePeers + o.forcenode);
    }
    if |o.connect| > 0 {
      var connect: Connect;
      if ',' in o.connect {
        connect := Several(Split(o.connect, ','));
      } else {
        connect := Single(o.connect);
      }
      cfg.network := cfg.network.(connect := connect);
    }
    if o.nolisten {
      cfg.network := cfg.network.(noListen := true);
    }
  }

  /** The livenet or testnet defaults, livenet first. */
  method ApplyProfileDefaults(cfg: Settings, o: Options, presets: Presets)
    modifies cfg
    ensures cfg.View() == ApplyProfile(old(cfg.View()), o, presets)
  {
    if o.livenet {
      cfg.SetLivenetDefaults(presets);
    } else if o.testnet {
      cfg.SetTestnetDefaults(presets);
    }
  }

  /** port, rpcuser, rpcpassword and rpcport, applied onto `cfg`. */
  method ApplyPortAndRpcOverrides(cfg: Settings, o: Options, log: Logger<LogEntry>)
    modifies cfg, log
    ensures cfg.network == PortOverride(old(cfg.network), o)
    ensures cfg.jsonrpc == RpcOverrides(old(cfg.jsonrpc), o)
    ensures cfg.mods == old(cfg.mods)
    ensures log.entries == old(log.entries) + OverrideLog(o)
    ensures log.levels == old(log.levels)
  {
    if o.port.Some? {
      var port := o.port.value;
      if port > 65535 || port < 0 {
        log.Log(InvalidPortSetting(port));
      } else {
        cfg.network := cfg.network.(port := port);
      }
    }
    if |o.rpcuser| > 0 {
      cfg.jsonrpc := cfg.jsonrpc.(enable := true, username := o.rpcuser);
    }
    if |o.rpcpassword| > 0 {
      cfg.jsonrpc := cfg.jsonrpc.(enable := true, password := o.rpcpassword);
    }
    if o.rpcport.Some? {
      var rpcport := o.rpcport.value;
      // Reproduced as written: the range test reads the network port option.
      if o.port.Some? && (o.port.value > 65535 || o.port.value < 0) {
        log.Log(InvalidPortSetting(rpcport));
      } else {
        cfg.jsonrpc := cfg.jsonrpc.(port := rpcport);
      }
    }
  }

  /** The four debug flags, each setting its channel's level to 1. */
  method ApplyDebugFlags(o: Options, log: Logger<LogEntry>)
    modifies log
    ensures log.levels == DebugLevels(old(log.levels), o)
    ensures log.entries == old(log.entries)
  {
    if o.netdbg {
      log.SetLevel("netdbg", 1);
    }
    if o.bchdbg {
      log.SetLevel("bchdbg", 1);
    }
    if o.rpcdbg {
      log.SetLevel("rpcdbg", 1);
    }
    if o.scrdbg {
      log.SetLevel("scrdbg", 1);
    }
  }

  /** Applies every command-line override onto `cfg`, in the program's order. */
  method ApplyOverrides(cfg: Settings, o: Options, presets: Presets, log: Logger<LogEntry>)
    modifies cfg, log
    ensures cfg.View() == Resolve(old(cfg.View()), o, presets)
    ensures log.levels == DebugLevels(old(log.levels), o)
    ensures log.entries == old(log.entries) + OverrideLog(o)
  {
    ApplyPeerOverrides(cfg, o);
    ApplyProfileDefaults(cfg, o, presets);
    ApplyPortAndRpcOverrides(cfg, o, log);
    ApplyDebugFlags(o, log);
    if |o.mods| > 0 {
      cfg.mods := Some((if cfg.mods.Some? then cfg.mods.value + "," else "") + o.mods);
    }
  }

  /**
   * `getConfig`: `load` is what loading the settings module at
   * `ConfigPathOf(o)` produced.
   */
  method GetConfig(o: Options, load: LoadResult, presets: Presets, log: Logger<LogEntry>)
    returns (r: Outcome<Settings>)
    modifies log, LoadedSettings(load)
    ensures r == Validate(load)
    ensures r.Ok? ==> r.value.View() == Resolve(old(r.value.View()), o, presets)
    ensures log.entries == old(log.entries) + LoadLog(o, load) + (if r.Ok? then OverrideLog(o) else [])
    ensures log.levels == if r.Ok? then DebugLevels(old(log.levels), o) else old(log.levels)
  {
    var cfg := Undefined;
    match load {
      case Returned(v) =>
        cfg := v;
      case Threw(e) =>
        if IsModuleNotFound(e) {
          log.Log(NoConfigFound(ConfigPathOf(o)));
        } else {
          return Propagate(e);
        }
    }
    if !cfg.Instance? {
      log.Log(InvalidConfiguration);
      return Exit(1);
    }
    ApplyOverrides(cfg.settings, o, presets, log);
    return Ok(cfg.settings);
  }

  /** `createNode`: a node built from what `getConfig` returns. */
  method CreateNode(o: Options, load: LoadResult, presets: Presets, log: Logger<LogEntry>)
    returns (r: Outcome<Node>)
    modifies log, LoadedSettings(load)
    ensures match Validate(load)
            case Ok(cfg) => r == Ok(Node(cfg))
            case Exit(code) => r == Exit(code)
            case Propagate(e) => r == Propagate(e)
    ensures r.Ok? ==> r.value.settings.View() == Resolve(old(r.value.settings.View()), o, presets)
    ensures log.entries == old(log.entries) + LoadLog(o, load) + (if r.Ok? then OverrideLog(o) else [])
    ensures log.levels == if r.Ok? then DebugLevels(old(log.levels), o) else old(log.levels)
  {
    var cfg := GetConfig(o, load, presets, log);
    match cfg {
      case Ok(settings) => r := Ok(Node(settings));
      case Exit(code) => r := Exit(code);
      case Propagate(e) => r := Propagate(e);
    }
  }
}
