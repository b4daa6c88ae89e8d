/**
 * The interface of the node library that the configuration pipeline reaches:
 * the `Settings` object it loads and mutates, the two network profiles, and
 * the `Node` built from finished settings. The library's own defaults are not
 * modelled; a profile is an arbitrary transformer supplied by the caller.
 */
module Bitcoin {
  import opened Wrappers

  /** `network.connect`: unset, one address, or the pieces of a comma-separated list. */
  datatype Connect = Unset | Single(address: string) | Several(addresses: seq<string>)

  /** The `network` section of the settings. */
  datatype Network = Network(
    initialPeers: seq<string>,
    forcePeers: seq<string>,
    connect: Connect,
    noListen: bool,
    port: int)

  /** The `jsonrpc` section of the settings. */
  datatype JsonRpc = JsonRpc(enable: bool, username: string, password: string, port: int)

  /**
   * The part of a `Settings` object this core reads and writes; `mods` is None
   * when the loaded value holds anything but a string there.
   */
  datatype Config = Config(network: Network, jsonrpc: JsonRpc, mods: Option<string>)

  datatype Profile = Livenet | Testnet

  /** What `setLivenetDefaults` and `setTestnetDefaults` do to the settings. */
  type Presets = (Profile, Config) -> Config

  /** A genuine `Settings` instance: the only value the validity gate lets through. */
  class Settings {
    var network: Network
    var jsonrpc: JsonRpc
    var mods: Option<string>

    /** The state of this object as a value. */
    function View(): Config
      reads this
    {
      Config(network, jsonrpc, mods)
    }

    /** `setLivenetDefaults()`. */
    method SetLivenetDefaults(presets: Presets)
      modifies this
      ensures View() == presets(Livenet, old(View()))
    {
      var c := presets(Livenet, View());
      network, jsonrpc, mods := c.network, c.jsonrpc, c.mods;
    }

    /** `setTestnetDefaults()`. */
    method SetTestnetDefaults(presets: Presets)
      modifies this
      ensures View() == presets(Testnet, old(View()))
    {
      var c := presets(Testnet, View());
      network, jsonrpc, mods := c.network, c.jsonrpc, c.mods;
    }
  }

  /** A node, built from one finished `Settings` object. */
  datatype Node = Node(settings: Settings)
}
