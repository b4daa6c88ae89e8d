# Configuration resolution of the bitcoinjs-server daemon

This project models `getConfig` and `createNode` in `daemon/init.js`. That is the
pipeline that turns a loaded settings module and the parsed command line into the
`Settings` object a node is built from. It proves properties of that model.

- **Loading and the validity gate** (`Init.Validate`, `Init.GetConfig`). The load
  either returns a value or throws. A thrown exception whose message starts with
  `Cannot find module ` is the "not found" case. It logs a warning and prints a
  remedy text naming the looked-up path; the model records both as one
  `NoConfigFound(path)` entry. The settings stay undefined. Any other exception propagates
  unchanged. A value that is not a genuine `Settings` instance logs an error and
  ends in `exit(1)`. This covers undefined and any lookalike object, whatever its
  fields.
- **The overrides** (`Init.ApplyOverrides`). The method mutates a `Bitcoin.Settings`
  object in place, in the program's order:
  1. addnode, forcenode, connect, nolisten;
  2. the livenet or testnet profile;
  3. port, rpcuser, rpcpassword, rpcport;
  4. the four debug flags, which write the global logger's levels;
  5. mods.

  Each step is proved against a specification function (`PeerOverrides`,
  `ApplyProfile`, `LateOverrides`, `DebugLevels`, `OverrideLog`). The properties are
  lemmas about those functions in `InitProperties`.
- **Profiles.** `setLivenetDefaults` and `setTestnetDefaults` belong to the node
  library, whose defaults are not shown. They are a caller-supplied transformer
  `Presets`. `InitProperties.LivenetApplied` and `InitProperties.TestnetApplied`
  state which call happens and where it sits in the pipeline. The independence
  lemmas (`LivenetOnly`, `TestnetOnly`, `NoProfile`) add that the other
  transformer plays no part.
- **Strings.** `Strings.Split` and `Strings.Join` model JavaScript's `split` and
  `join` with a one-character separator. They come with the round-trip and
  piece-count lemmas that the connect and mods rules use.

Two behaviours of the code are reproduced as written, with a comment at each site
and a lemma exhibiting them:

- The forcenode branch writes `initialPeers := forcePeers ++ forcenode`
  (`daemon/init.js:124`). It therefore discards the addnode entries appended by the
  branch before it (`InitProperties.ForceNodeDiscardsAddNode`). It never changes
  `forcePeers`.
- The rpcport branch tests the range of the network `port` option, not of
  `rpcport` (`daemon/init.js:158`). So with no port option, any rpcport is taken
  (`InitProperties.RpcPortUncheckedWithoutPort`). An out-of-range port rejects even a
  valid rpcport (`InitProperties.RpcPortRejectedByPort`).

Further facts of the code that are easy to misread:

- The forcenode branch reads `forcePeers` where the addnode branch reads
  `initialPeers` (`daemon/init.js:121`, `:124`).
- The rpcport test reads `opts.port`, while its error message names `opts.rpcport`
  (`daemon/init.js:158-159`).
- Each debug flag sets its channel's level to 1 (`daemon/init.js:165-174`).
- The profile runs after addnode, forcenode, connect and nolisten
  (`daemon/init.js:120-139`). So peers set by the profile defaults replace the
  operator's addnode and forcenode entries
  (`InitProperties.ProfileFollowsPeerOverrides`).

## Model

| member | source | states |
|---|---|---|
| `Init.Validate` | daemon/init.js:95-117 | A not-found-prefixed exception and any non-`Settings` value give `Exit(1)`. Any other exception propagates unchanged. Only a genuine `Settings` instance gets through, and it is the loaded object itself. |
| `Init.GetConfig` | daemon/init.js:92-181 | The outcome is `Validate` of the load. On success the loaded object's new state is `Resolve` of its old state. The log gets the load messages, then the override errors. The debug levels change only on success. |
| `Init.CreateNode` | daemon/init.js:184-191 | The outcome mirrors `getConfig`'s outcome. On success it is a node built from the resolved settings object. The log and the debug levels change as in `getConfig`. |
| `Init.ApplyOverrides` | daemon/init.js:119-181 | The new settings are `Resolve` of the old ones: peer options, then the profile, then the late overrides. The logger levels follow `DebugLevels`. The log gains exactly `OverrideLog`. |
| `Init.ApplyPeerOverrides` | daemon/init.js:120-134 | Only `network` changes, and it becomes `PeerOverrides` of the old network. |
| `Init.ApplyProfileDefaults` | daemon/init.js:135-139 | The new state is the livenet transformer's result if livenet is set. Otherwise it is the testnet transformer's result if testnet is set. Otherwise nothing changes. |
| `Init.ApplyPortAndRpcOverrides` | daemon/init.js:140-163 | `network` becomes `PortOverride` of it and `jsonrpc` becomes `RpcOverrides` of it. `mods` and the logger levels are unchanged. Exactly the range errors of `OverrideLog` are logged. |
| `Init.ApplyDebugFlags` | daemon/init.js:164-175 | The logger levels become `DebugLevels` of the old ones. No entry is logged. |
| `Bitcoin.Settings.SetLivenetDefaults` | daemon/init.js:136 | The settings become the livenet transformer applied to their old state. |
| `Bitcoin.Settings.SetTestnetDefaults` | daemon/init.js:138 | The settings become the testnet transformer applied to their old state. |
| `Logging.Logger.Log` | daemon/init.js:143 | Appends exactly one entry and leaves the levels alone. |
| `Logging.Logger.SetLevel` | daemon/init.js:165 | Sets one channel's level and leaves the entries alone. |
| `Strings.Split` | daemon/init.js:128 | Splitting always yields at least one piece. |
| `Strings.SplitLength` | daemon/init.js:128 | A split has one piece more than the string has separators. |
| `Strings.SplitPiecesFree` | daemon/init.js:128 | No piece of a split contains the separator. |
| `Strings.JoinSplit` | daemon/init.js:128 | Joining a split with the separator gives the original string back. |
| `Strings.SplitWithoutSeparator` | daemon/init.js:127-130 | A string without the separator splits into itself alone. |
| `Strings.SplitConcat` | daemon/init.js:177-178 | Splitting `a + "," + b` gives the pieces of `a` followed by the pieces of `b`. |
| `Strings.SplitJoin` | daemon/init.js:128 | Separator-free pieces, joined and split again, give the same pieces back. |
| `InitProperties.NoOverridesKeepSettings` | daemon/init.js:120-181 | With no override option present, the settings come back identical, nothing is logged and the debug levels are unchanged. |
| `InitProperties.AddNodeAppends` | daemon/init.js:120-122 | addnode without forcenode makes `initialPeers` the old peers followed by the addnode list: earlier entries first, the given order kept. `forcePeers` is unchanged. |
| `InitProperties.ForceNodeSetsInitialPeers` | daemon/init.js:123-125 | forcenode makes `initialPeers` equal to `forcePeers ++ forcenode` and leaves `forcePeers` unchanged. |
| `InitProperties.ForceNodeDiscardsAddNode` | daemon/init.js:120-125 | When forcenode is present, the addnode list has no effect on the result. |
| `InitProperties.ConnectOverride` | daemon/init.js:126-131 | A value with a comma becomes a list of pieces: commas + 1 of them, none holding a comma, and joining back to the value. A value without a comma is assigned as one address. An empty value changes nothing. |
| `InitProperties.ConnectListHasSeveral` | daemon/init.js:127-128 | A connect value with a comma always yields a list of at least two pieces. |
| `InitProperties.ConnectTwoAddresses` | daemon/init.js:126-131 | Two comma-free addresses joined by a comma, such as `1.1.1.1,2.2.2.2`, become the list of exactly those two addresses. |
| `InitProperties.PeerOverridesFrame` | daemon/init.js:120-134 | `noListen` becomes true exactly when the flag is set, and otherwise keeps its value. Neither `forcePeers` nor the port changes. Without addnode or forcenode, `initialPeers` is unchanged. |
| `InitProperties.LivenetApplied` | daemon/init.js:120-139 | With livenet set, the result is the late overrides applied to the livenet defaults of the settings after the peer options. |
| `InitProperties.TestnetApplied` | daemon/init.js:120-139 | With testnet alone, the result is the late overrides applied to the testnet defaults of the settings after the peer options. |
| `InitProperties.LivenetOnly` | daemon/init.js:135-136 | With livenet set, the result depends only on the livenet defaults, and flipping testnet changes nothing. |
| `InitProperties.TestnetOnly` | daemon/init.js:137-138 | With testnet alone, the result depends only on the testnet defaults. |
| `InitProperties.NoProfile` | daemon/init.js:135-139 | With neither flag set, no profile takes part in the result. |
| `InitProperties.ProfileFollowsPeerOverrides` | daemon/init.js:120-139 | The profile runs after the peer options: peers it sets replace the addnode result. |
| `InitProperties.LateOverridesFollowProfile` | daemon/init.js:135-163 | A valid port, the credentials, the enable flag and an accepted rpcport win over any profile defaults. |
| `InitProperties.PortRange` | daemon/init.js:142 | The range test accepts exactly 0..65535. |
| `InitProperties.PortOverrideRule` | daemon/init.js:140-147 | A port in 0..65535 is assigned and nothing is logged. An out-of-range port logs an error naming it and leaves the port unchanged. No other network field is touched. |
| `InitProperties.CredentialRules` | daemon/init.js:148-155 | RPC is enabled when either credential is given. rpcuser changes only `username` and rpcpassword changes only `password`. |
| `InitProperties.RpcPortRule` | daemon/init.js:156-163 | rpcport is assigned exactly when no network port was given or the given one is in range. Otherwise the port is unchanged and the error names the rpcport value. |
| `InitProperties.RpcPortUncheckedWithoutPort` | daemon/init.js:156-163 | With no port option, any rpcport value is assigned and nothing is logged. |
| `InitProperties.RpcPortRejectedByPort` | daemon/init.js:140-163 | An out-of-range port rejects even a valid rpcport. Two errors are logged: the port's, then the rpcport's. |
| `InitProperties.ModsRule` | daemon/init.js:176-179 | An existing string m becomes `m + "," + mods`, and its split is m's pieces followed by the new ones. A non-string becomes `mods` as given. An empty option changes nothing. |
| `InitProperties.DebugFlagsSetOwnLevel` | daemon/init.js:164-175 | Each set flag sets its own channel to 1. Every other channel keeps its level. No other key appears. |
| `InitProperties.MissingConfigExits` | daemon/init.js:95-117 | A not-found load logs a warning and prints a remedy naming the looked-up path, recorded as one `NoConfigFound(path)` entry; an explicit config path wins. It then logs the invalid-configuration error and exits with 1. |
| `InitProperties.OtherLoadErrorPropagates` | daemon/init.js:98-111 | Any other load exception is rethrown unchanged, and nothing is logged. |
| `InitProperties.LookalikeRejected` | daemon/init.js:114-117 | Any loaded value that is not a `Settings` instance logs the error and exits with 1. |

## Left out

- `daemon/start.js`: an older entry point. Its gate (`daemon/start.js:50-56`) and profile choice (`daemon/start.js:59-63`) repeat `daemon/init.js:114-117` and `:135-139`; it only adds starting the node.
- Command-line parsing by `yanop` (`daemon/init.js:17-85`): the parsed options are an input value, `Init.Options`. A port scalar is `Some(p)` when it was given.
- Numeric conversion of port scalars: unary `+` on a non-numeric string gives NaN, which passes both range tests, and it can give fractions. These are floating-point behaviours; ports are modelled as integers.
- Module loading and path resolution (`require`, `path.resolve`): the load is an input outcome, and the looked-up path is the abstract `Init.ConfigPath`.
- The remedy text printed when no settings module is found, and the `Loading configuration` info line: the log records only the warning with its path and the errors.
- The welcome banner and the defaulting of `initConfig` (`daemon/init.js:12-14`, `:88-90`): side effects only.
- The rewrites of `opts.port`, `opts.rpcport` and `opts.connect`: `opts` is local. Its coerced port is the model's integer, the only later read of it (`:158`).
- The contents of `setLivenetDefaults`, `setTestnetDefaults` and the node constructor: the node library is not part of this model.
- The unused module-level `mods` array (`daemon/init.js:9`).
- Thrown values without a message: `Init.Exception` always has one. If the settings module throws such a value (`throw null`), reading `e.message` at `daemon/init.js:99` raises a TypeError, and that error propagates instead of the thrown value.
