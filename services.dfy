/** The two stand-alone checks of services.py: an HTTP(S) service judged by
    its status code, and a game server judged by a TCP connect to the port in
    its address. The request and the socket are inputs. */
module Services {
  import opened Wrappers
  import opened Text

  /** What requests.get produced: a response with its status code, or a
      RequestException. */
  datatype HttpOutcome = Response(status: int) | RequestFailed(message: string)

  /** What socket.connect_ex produced: its return value (0 on success, an
      errno otherwise), or an exception raised by the socket layer. */
  datatype ConnectOutcome = Returned(code: int) | SocketRaised(message: string)

  /** An HTTP GET of a URL with a timeout in seconds. */
  type HttpGet = (string, nat) -> HttpOutcome

  /** A TCP connect to host and port with a timeout in seconds. */
  type Connect = (string, int, nat) -> ConnectOutcome

  const Online: string := "🟢 Онлайн"
  const Offline: string := "🔴 Офлайн"
  const Failed: string := "🔴 Ошибка"
  const DegradedPrefix: string := "🟡 Ошибка "

  /** The port used when the address names none. */
  const DefaultGamePort: int := 25565

  predicate IsSuccessStatus(status: int)
  {
    200 <= status < 300
  }

  /** check_service_status */
  function CheckServiceStatus(url: string, timeout: nat, get: HttpGet): string
  {
    match get(url, timeout)
    case Response(status) =>
      if IsSuccessStatus(status) then Online else DegradedPrefix + IntToString(status)
    case RequestFailed(_) => Offline
  }

  /** A service is reported online exactly when it answers with a 2xx status;
      any other status is reported with its code, which reads back from the
      text; a failed request is reported offline. */
  lemma ServiceStatusClassification(url: string, timeout: nat, get: HttpGet)
    ensures CheckServiceStatus(url, timeout, get) == Online <==>
      get(url, timeout).Response? && IsSuccessStatus(get(url, timeout).status)
    ensures CheckServiceStatus(url, timeout, get) == Offline <==> get(url, timeout).RequestFailed?
    ensures get(url, timeout).Response? && !IsSuccessStatus(get(url, timeout).status) ==>
      var text := CheckServiceStatus(url, timeout, get);
      StartsWith(text, DegradedPrefix) &&
      ParseInt(text[|DegradedPrefix|..]) == Some(get(url, timeout).status)
  {
    match get(url, timeout)
    case Response(status) =>
      if !IsSuccessStatus(status) {
        var text := DegradedPrefix + IntToString(status);
        assert text[0] != Online[0] && text[0] != Offline[0];
        assert text[|DegradedPrefix|..] == IntToString(status);
        ParseIntToString(status);
      }
    case RequestFailed(_) =>
  }

  /** Where check_minecraft_server connects: `host, port = address.split(':')`
      and int(port) when the address has a colon, the default port otherwise.
      A second colon (too many values to unpack) or a port int() rejects is an
      error. */
  function GameServerTarget(address: string): Result<(string, int)>
  {
    if ':' in address then
      var pieces := SplitOn(address, ':');
      if |pieces| != 2 then Err("too many values to unpack")
      else
        match ParseInt(pieces[1])
        case Some(port) => Ok((pieces[0], port))
        case None => Err("invalid literal for int()")
    else Ok((address, DefaultGamePort))
  }

  /** check_minecraft_server */
  function CheckGameServer(address: string, timeout: nat, connect: Connect): string
  {
    match GameServerTarget(address)
    case Err(_) => Failed
    case Ok((host, port)) =>
      match connect(host, port, timeout)
      case Returned(code) => if code == 0 then Online else Offline
      case SocketRaised(_) => Failed
  }

  /** An address written as host:port (host without a colon) is read back as
      that host and port; a bare host gets the default port. */
  lemma GameServerTargetRoundTrip(host: string, port: int)
    requires ':' !in host
    ensures GameServerTarget(host + ":" + IntToString(port)) == Ok((host, port))
    ensures GameServerTarget(host) == Ok((host, DefaultGamePort))
  {
    var portText := IntToString(port);
    IntToStringIsWord(port);
    assert ':' !in portText;
    SplitOnJoin([host, portText], ':');
    assert Join([host, portText], [':']) == host + ":" + portText by {
      assert [host, portText][1..] == [portText];
    }
    ParseIntToString(port);
    assert (host + ":" + portText)[|host|] == ':';
  }

  /** An address with two or more colons is never connected to. */
  lemma GameServerTooManyColons(address: string, i: nat, j: nat, timeout: nat, connect: Connect)
    requires i < j < |address| && address[i] == ':' && address[j] == ':'
    ensures GameServerTarget(address).Err?
    ensures CheckGameServer(address, timeout, connect) == Failed
  {
    SplitOnSpec(address, ':');
  }

  /** An address host:port whose port int() rejects is never connected to. */
  lemma GameServerBadPort(host: string, port: string, timeout: nat, connect: Connect)
    requires ':' !in host && ':' !in port && ParseInt(port).None?
    ensures GameServerTarget(host + ":" + port).Err?
    ensures CheckGameServer(host + ":" + port, timeout, connect) == Failed
  {
    SplitOnJoin([host, port], ':');
    assert Join([host, port], [':']) == host + ":" + port by {
      assert [host, port][1..] == [port];
    }
    assert (host + ":" + port)[|host|] == ':';
  }

  /** The server is reported online exactly when its address names a target
      and the connect to it returns 0. */
  lemma GameServerOnline(address: string, timeout: nat, connect: Connect)
    ensures CheckGameServer(address, timeout, connect) == Online <==>
      GameServerTarget(address).Ok? &&
      connect(GameServerTarget(address).value.0, GameServerTarget(address).value.1, timeout) == Returned(0)
  {
  }
}
