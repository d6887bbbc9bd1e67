/** The command line's configuration object, as far as account setup uses it:
    a key-to-value record of settings (a key that is absent reads as None),
    the snapshot last written by `save`, the machine-auth key and the
    wallet's current address. */
module CliConfig {

  type Bytes = seq<bv8>

  datatype Option<T> = None | Some(value: T)

  /** The two settings account setup writes. */
  const UsernameKey: string := "username"
  const PubkeyKey: string := "mining_auth_pubkey"

  /** Python truthiness of an optional string: None and "" are false. */
  predicate Truthy(s: Option<string>)
  {
    s.Some? && s.value != ""
  }

  /** Reading a setting as an attribute: absent keys read as None. */
  function Lookup(settings: map<string, string>, key: string): Option<string>
  {
    if key in settings then Some(settings[key]) else None
  }

  /** A snapshot of a configuration object.  `machineAuth` holds the compressed
      bytes of the machine-auth public key, or None when auth is not initialised. */
  datatype ConfigState = ConfigState(
    settings: map<string, string>,
    saved: map<string, string>,
    saves: nat,
    machineAuth: Option<Bytes>,
    walletAddress: string)

  class Config {
    var settings: map<string, string>
    var saved: map<string, string>
    var saves: nat
    const machineAuth: Option<Bytes>
    const walletAddress: string

    /** The abstract value of this object. */
    function State(): ConfigState
      reads this
    {
      ConfigState(settings, saved, saves, machineAuth, walletAddress)
    }

    constructor (settings: map<string, string>, machineAuth: Option<Bytes>, walletAddress: string)
      ensures State() == ConfigState(settings, settings, 0, machineAuth, walletAddress)
    {
      this.settings := settings;
      this.saved := settings;
      this.saves := 0;
      this.machineAuth := machineAuth;
      this.walletAddress := walletAddress;
    }

    /** `update_key`: sets one setting and leaves everything else as it was. */
    method UpdateKey(key: string, value: string)
      modifies this
      ensures settings == old(settings)[key := value]
      ensures saved == old(saved) && saves == old(saves)
    {
      settings := settings[key := value];
    }

    /** `save`: the persisted snapshot becomes the current settings. */
    method Save()
      modifies this
      ensures settings == old(settings)
      ensures saved == old(settings) && saves == old(saves) + 1
    {
      saved := settings;
      saves := saves + 1;
    }
  }
}
