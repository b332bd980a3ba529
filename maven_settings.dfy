/** The parts of Maven's settings.xml model the plugin reads. */
module MavenSettings {
  import opened Wrappers

  /** A <server> entry: credentials, each of which may be absent. */
  datatype Server = Server(username: Option<string>, password: Option<string>)

  /** The active <proxy> entry; Maven keeps the port as an int. */
  datatype Proxy = Proxy(host: Option<string>, port: int)

  datatype Settings = Settings(
    interactiveMode: bool,
    servers: map<string, Server>,
    activeProxy: Option<Proxy>)
  {
    /** Settings.getServer(id): the entry with that id, or null. */
    function GetServer(id: string): (r: Option<Server>)
      ensures r.Some? <==> id in servers
      ensures r.Some? ==> r.value == servers[id]
    {
      if id in servers then Some(servers[id]) else None
    }
  }
}
