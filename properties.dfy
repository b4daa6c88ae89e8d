/**
 * What the override pipeline of `getConfig` guarantees, stated over the
 * specification functions that `Init.ApplyOverrides` and `Init.GetConfig`
 * are proved to follow.
 */
module InitProperties {
  import opened Wrappers
  import opened Strings
  import opened Bitcoin
  import opened Init

  /** No override option is present (the config path may still be given). */
  predicate NothingPresent(o: Options)
  {
    o.(config := "") == NoOptions
  }

  // ---- No options --------------------------------------------------------

  /** Without any override the loaded settings and the logger come back untouched. */
  lemma NoOverridesKeepSettings(c: Config, o: Options, presets: Presets, levels: map<string, int>)
    requires NothingPresent(o)
    ensures Resolve(c, o, presets) == c
    ensures OverrideLog(o) == []
    ensures DebugLevels(levels, o) == levels
  {
  }

  // ---- Peers, connect, nolisten -----------------------------------------

  /** addnode alone appends to initialPeers, keeping earlier entries and the given order. */
  lemma AddNodeAppends(n: Network, o: Options)
    requires |o.addnode| > 0 && |o.forcenode| == 0
    ensures PeerOverrides(n, o).initialPeers == n.initialPeers + o.addnode
    ensures PeerOverrides(n, o).initialPeers[..|n.initialPeers|] == n.initialPeers
    ensures PeerOverrides(n, o).initialPeers[|n.initialPeers|..] == o.addnode
    ensures PeerOverrides(n, o).forcePeers == n.forcePeers
  {
  }

  /** forcenode makes initialPeers the forcePeers followed by the forcenode list. */
  lemma ForceNodeSetsInitialPeers(n: Network, o: Options)
    requires |o.forcenode| > 0
    ensures PeerOverrides(n, o).initialPeers == n.forcePeers + o.forcenode
    ensures PeerOverrides(n, o).forcePeers == n.forcePeers
  {
  }

  /** As written, forcenode discards whatever addnode appended just before it. */
  lemma ForceNodeDiscardsAddNode(n: Network, o: Options, added: seq<string>)
    requires |o.forcenode| > 0
    ensures PeerOverrides(n, o.(addnode := added)) == PeerOverrides(n, o.(addnode := []))
  {
  }

  /**
   * connect: a comma-separated value becomes its pieces (one more than there
   * are commas, none containing a comma, joining back to the value); any
   * other non-empty value is kept as one address; an empty one changes nothing.
   */
  lemma ConnectOverride(n: Network, o: Options)
    ensures |o.connect| == 0 ==> PeerOverrides(n, o).connect == n.connect
    ensures |o.connect| > 0 && ',' !in o.connect ==> PeerOverrides(n, o).connect == Single(o.connect)
    ensures |o.connect| > 0 && ',' in o.connect ==>
      var r := PeerOverrides(n, o).connect;
      && r.Several?
      && |r.addresses| == Count(o.connect, ',') + 1
      && (forall i :: 0 <= i < |r.addresses| ==> ',' !in r.addresses[i])
      && Join(r.addresses, ',') == o.connect
  {
    SplitLength(o.connect, ',');
    SplitPiecesFree(o.connect, ',');
    JoinSplit(o.connect, ',');
  }

  /** A comma-separated connect value holds at least two pieces. */
  lemma ConnectListHasSeveral(c: string)
    requires ',' in c
    ensures ConnectValue(c).Several? && |ConnectValue(c).addresses| >= 2
  {
    SplitLength(c, ',');
    CountPositive(c, ',');
  }

  /** Two comma-free addresses joined by a comma (`--connect=1.1.1.1,2.2.2.2`) give exactly those two. */
  lemma ConnectTwoAddresses(first: string, second: string)
    requires ',' !in first && ',' !in second
    ensures ConnectValue(first + "," + second) == Several([first, second])
  {
    var both := first + "," + second;
    assert both[|first|] == ',';
    SplitWithoutSeparator(first, ',');
    SplitWithoutSeparator(second, ',');
    SplitConcat(first, second, ',');
  }

  lemma {:induction false} CountPositive(s: string, c: char)
    requires c in s
    ensures Count(s, c) > 0
  {
    if s[0] != c {
      assert c in s[1..] by {
        var k :| 0 <= k < |s| && s[k] == c;
        assert s[1..][k - 1] == c;
      }
      CountPositive(s[1..], c);
    }
  }

  /** nolisten only ever sets noListen; the network port and forcePeers are left to later steps. */
  lemma PeerOverridesFrame(n: Network, o: Options)
    ensures PeerOverrides(n, o).noListen == (n.noListen || o.nolisten)
    ensures PeerOverrides(n, o).forcePeers == n.forcePeers
    ensures PeerOverrides(n, o).port == n.port
    ensures |o.addnode| == 0 && |o.forcenode| == 0 ==> PeerOverrides(n, o).initialPeers == n.initialPeers
  {
  }

  // ---- Profiles ----------------------------------------------------------

  /** With livenet set, the livenet defaults are applied after the peer options and before the rest. */
  lemma LivenetApplied(c: Config, o: Options, p: Presets)
    requires o.livenet
    ensures Resolve(c, o, p) == LateOverrides(p(Livenet, c.(network := PeerOverrides(c.network, o))), o)
  {
  }

  /** With testnet alone, the testnet defaults are applied after the peer options and before the rest. */
  lemma TestnetApplied(c: Config, o: Options, p: Presets)
    requires !o.livenet && o.testnet
    ensures Resolve(c, o, p) == LateOverrides(p(Testnet, c.(network := PeerOverrides(c.network, o))), o)
  {
  }

  /** With livenet set only the livenet defaults matter, whatever testnet says. */
  lemma LivenetOnly(c: Config, o: Options, p: Presets, q: Presets)
    requires o.livenet
    requires forall x :: p(Livenet, x) == q(Livenet, x)
    ensures Resolve(c, o, p) == Resolve(c, o, q)
    ensures Resolve(c, o.(testnet := !o.testnet), p) == Resolve(c, o, p)
  {
  }

  /** testnet alone: only the testnet defaults matter. */
  lemma TestnetOnly(c: Config, o: Options, p: Presets, q: Presets)
    requires !o.livenet && o.testnet
    requires forall x :: p(Testnet, x) == q(Testnet, x)
    ensures Resolve(c, o, p) == Resolve(c, o, q)
  {
  }

  /** Neither flag: no profile is applied, so the presets play no part. */
  lemma NoProfile(c: Config, o: Options, p: Presets, q: Presets)
    requires !o.livenet && !o.testnet
    ensures Resolve(c, o, p) == Resolve(c, o, q)
  {
  }

  /** The profile runs after the peer options: defaults it sets for initialPeers win over addnode. */
  lemma ProfileFollowsPeerOverrides(c: Config, o: Options, p: Presets, seeds: seq<string>)
    requires o.livenet
    requires forall x :: p(Livenet, x).network.initialPeers == seeds
    ensures Resolve(c, o, p).network.initialPeers == seeds
  {
  }

  /** The profile runs before port, credentials, rpcport and mods: those overrides win over it. */
  lemma LateOverridesFollowProfile(c: Config, o: Options, p: Presets)
    ensures o.port.Some? && PortInRange(o.port.value) ==> Resolve(c, o, p).network.port == o.port.value
    ensures |o.rpcuser| > 0 ==> Resolve(c, o, p).jsonrpc.username == o.rpcuser
    ensures |o.rpcpassword| > 0 ==> Resolve(c, o, p).jsonrpc.password == o.rpcpassword
    ensures |o.rpcuser| > 0 || |o.rpcpassword| > 0 ==> Resolve(c, o, p).jsonrpc.enable
    ensures o.rpcport.Some? && RpcPortAccepted(o) ==> Resolve(c, o, p).jsonrpc.port == o.rpcport.value
  {
  }

  // ---- Port, credentials, rpcport ---------------------------------------

  /** The range test accepts exactly the ports 0 through 65535. */
  lemma PortRange(p: int)
    ensures PortInRange(p) <==> 0 <= p <= 65535
  {
  }

  /** port: set when in range; otherwise an error naming it and the port unchanged. */
  lemma PortOverrideRule(c: Config, o: Options)
    ensures LateOverrides(c, o).network == c.network.(port := LateOverrides(c, o).network.port)
    ensures o.port.None? ==> LateOverrides(c, o).network.port == c.network.port
    ensures o.port.Some? && 0 <= o.port.value <= 65535 ==>
      LateOverrides(c, o).network.port == o.port.value
    ensures o.port.Some? && 0 <= o.port.value <= 65535 ==> OverrideLog(o) == []
    ensures o.port.Some? && !(0 <= o.port.value <= 65535) ==>
      && LateOverrides(c, o).network.port == c.network.port
      && OverrideLog(o)[0] == InvalidPortSetting(o.port.value)
  {
  }

  /** Credentials: either one enables JSON-RPC; each changes only its own field. */
  lemma CredentialRules(c: Config, o: Options)
    ensures LateOverrides(c, o).jsonrpc.enable == (c.jsonrpc.enable || |o.rpcuser| > 0 || |o.rpcpassword| > 0)
    ensures LateOverrides(c, o).jsonrpc.username == if |o.rpcuser| > 0 then o.rpcuser else c.jsonrpc.username
    ensures LateOverrides(c, o).jsonrpc.password == if |o.rpcpassword| > 0 then o.rpcpassword else c.jsonrpc.password
  {
  }

  /** rpcport: assigned unless a network port was given out of range, in which case an error names the rpcport. */
  lemma RpcPortRule(c: Config, o: Options)
    ensures o.rpcport.None? ==> LateOverrides(c, o).jsonrpc.port == c.jsonrpc.port
    ensures o.rpcport.Some? && RpcPortAccepted(o) ==> LateOverrides(c, o).jsonrpc.port == o.rpcport.value
    ensures o.rpcport.Some? && !RpcPortAccepted(o) ==>
      && LateOverrides(c, o).jsonrpc.port == c.jsonrpc.port
      && OverrideLog(o)[|OverrideLog(o)| - 1] == InvalidPortSetting(o.rpcport.value)
    ensures RpcPortAccepted(o) <==> (o.port.None? || 0 <= o.port.value <= 65535)
  {
  }

  /** As written, with no port option any rpcport is taken, in range or not. */
  lemma RpcPortUncheckedWithoutPort(c: Config, o: Options)
    requires o.port.None? && o.rpcport.Some?
    ensures LateOverrides(c, o).jsonrpc.port == o.rpcport.value
    ensures OverrideLog(o) == []
  {
  }

  /** As written, an out-of-range port rejects even a valid rpcport, and both are logged. */
  lemma RpcPortRejectedByPort(c: Config, o: Options)
    requires o.port.Some? && !(0 <= o.port.value <= 65535)
    requires o.rpcport.Some?
    ensures LateOverrides(c, o).jsonrpc.port == c.jsonrpc.port
    ensures OverrideLog(o) == [InvalidPortSetting(o.port.value), InvalidPortSetting(o.rpcport.value)]
  {
  }

  // ---- mods --------------------------------------------------------------

  /**
   * mods: appended to an existing string after a comma, keeping the earlier
   * entries in front of the new ones; set as given otherwise.
   */
  lemma ModsRule(c: Config, o: Options)
    ensures |o.mods| == 0 ==> LateOverrides(c, o).mods == c.mods
    ensures |o.mods| > 0 && c.mods.None? ==> LateOverrides(c, o).mods == Some(o.mods)
    ensures |o.mods| > 0 && c.mods.Some? ==>
      && LateOverrides(c, o).mods == Some(c.mods.value + "," + o.mods)
      && Split(LateOverrides(c, o).mods.value, ',') == Split(c.mods.value, ',') + Split(o.mods, ',')
  {
    if |o.mods| > 0 && c.mods.Some? {
      SplitConcat(c.mods.value, o.mods, ',');
    } else if |o.mods| > 0 {
      assert "" + o.mods == o.mods;
    }
  }

  // ---- Debug levels ------------------------------------------------------

  /** Each debug flag sets its own channel to 1 and no other channel changes. */
  lemma DebugFlagsSetOwnLevel(levels: map<string, int>, o: Options)
    ensures DebugLevels(levels, o).Keys == levels.Keys + DebugChannels(o)
    ensures forall k :: k in DebugChannels(o) ==> DebugLevels(levels, o)[k] == 1
    ensures forall k :: k in levels && k !in DebugChannels(o) ==> DebugLevels(levels, o)[k] == levels[k]
  {
  }

  // ---- Loading -----------------------------------------------------------

  /** A missing settings module warns with the looked-up path, then exits with 1. */
  lemma MissingConfigExits(o: Options, e: Exception)
    requires IsModuleNotFound(e)
    ensures Validate(Threw(e)) == Exit(1)
    ensures LoadLog(o, Threw(e)) == [NoConfigFound(ConfigPathOf(o)), InvalidConfiguration]
    ensures |o.config| > 0 ==> ConfigPathOf(o) == Resolved(o.config)
  {
  }

  /** Any other load failure propagates unchanged, with nothing logged. */
  lemma OtherLoadErrorPropagates(o: Options, e: Exception)
    requires !IsModuleNotFound(e)
    ensures Validate(Threw(e)) == Propagate(e)
    ensures LoadLog(o, Threw(e)) == []
  {
  }

  /** A value that is not a `Settings` instance, even one with the same fields, exits with 1. */
  lemma LookalikeRejected(o: Options, v: Value)
    requires !v.Instance?
    ensures Validate(Returned(v)) == Exit(1)
    ensures LoadLog(o, Returned(v)) == [InvalidConfiguration]
  {
  }
}
