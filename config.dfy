/** The configuration the harness runs with. Reading and YAML-decoding the file are not part of the
    model: a `Config` value is an input. */
module Config {
  import opened Wrappers

  /** One IRC account; Go strings are byte strings, so the credentials are bytes. */
  datatype AccountConfig = AccountConfig(username: seq<byte>, password: seq<byte>)

  datatype ServerConfig = ServerConfig(address: string, tls: bool, password: Option<string>, resetBetweenTests: bool)

  datatype Config = Config(server: ServerConfig, accounts: seq<AccountConfig>)
}
