/** Finding the machine's public IP address from an ordered list of sources:
    an HTTP endpoint, a shell command, or a network interface. The outside
    world (HTTP, processes, interfaces and the IP address parser) is an
    `Env` value handed in by the caller. */
module Ip {
  import opened Wrappers
  import opened Strings
  import Config

  /** An IP address as the interface listing gives it: its text, whether it
      is a loopback address, and whether it has a 4-byte form. */
  datatype IpValue = IpValue(text: string, loopback: bool, v4: bool)

  /** An interface address: a network or a plain address holding an IP, or
      an address of another kind, which holds none. */
  datatype Addr = IpNet(ip: IpValue) | IpAddr(ip: IpValue) | OtherAddr

  datatype Interface = Interface(name: string, addrs: Result<seq<Addr>, string>)

  /** What an HTTP GET answered: the status code and what the first read of
      the body delivered, with whether that read reported an error. */
  datatype HttpReply = HttpReply(status: int, chunk: string, readFailed: bool)

  datatype Env = Env(
    httpGet: (string, map<string, string>, int) -> Result<HttpReply, string>,  // url, headers, timeout
    shell: (string, int) -> Result<string, string>,                            // command, timeout
    interfaces: Result<seq<Interface>, string>,
    isIP: string -> bool)                                                      // the address parser accepts

  datatype IpError =
    | RequestFailed(msg: string)
    | BadStatus(status: int)
    | ReadFailed
    | InvalidIp(ip: string)
    | CommandFailed(msg: string)
    | InterfacesUnavailable(msg: string)
    | AddrsUnavailable(name: string, msg: string)
    | NoAddress(name: string)
    | UnknownSourceType(sourceType: string)
    | AllSourcesFailed

  const StatusOK := 200
  const ReadBufferSize := 1024
  const NilText := "<nil>"

  // ---------------------------------------------------------------------
  // HTTP and command sources
  // ---------------------------------------------------------------------

  /** The part of the body the single read fills into the buffer. */
  function FirstRead(chunk: string): (r: string)
    ensures |r| <= ReadBufferSize && HasPrefix(chunk, r)
    ensures |chunk| <= ReadBufferSize ==> r == chunk
  {
    if |chunk| <= ReadBufferSize then chunk else chunk[..ReadBufferSize]
  }

  /** The address a source printed, accepted only when the parser takes it. */
  function Checked(env: Env, text: string): (r: Result<string, IpError>)
    ensures r.Success? <==> env.isIP(TrimSpace(text))
    ensures r.Success? ==> r.value == TrimSpace(text)
    ensures r.Failure? ==> r.error == InvalidIp(TrimSpace(text))
  {
    var ip := TrimSpace(text);
    if env.isIP(ip) then Success(ip) else Failure(InvalidIp(ip))
  }

  /** `getIPFromHTTP`. */
  function FromHttp(env: Env, src: Config.IpSource): Result<string, IpError> {
    match env.httpGet(src.url, src.headers, src.timeout)
    case Failure(msg) => Failure(RequestFailed(msg))
    case Success(reply) =>
      if reply.status != StatusOK then Failure(BadStatus(reply.status))
      else
        var body := FirstRead(reply.chunk);
        if reply.readFailed && |body| == 0 then Failure(ReadFailed)
        else Checked(env, body)
  }

  /** `getIPFromCommand`. */
  function FromCommand(env: Env, src: Config.IpSource): Result<string, IpError> {
    match env.shell(src.cmd, src.timeout)
    case Failure(msg) => Failure(CommandFailed(msg))
    case Success(output) => Checked(env, output)
  }

  /** What an HTTP source answers: an address only on status 200, and then
      the trimmed start of the body, which the parser accepts. */
  lemma HttpAnswer(env: Env, src: Config.IpSource)
    ensures var r := FromHttp(env, src);
            var got := env.httpGet(src.url, src.headers, src.timeout);
            && (got.Failure? ==> r == Failure(RequestFailed(got.error)))
            && (got.Success? && got.value.status != StatusOK ==> r == Failure(BadStatus(got.value.status)))
            && (r.Success? ==>
                  && got.Success? && got.value.status == StatusOK
                  && r.value == TrimSpace(FirstRead(got.value.chunk))
                  && env.isIP(r.value) && Trimmed(r.value) && |r.value| <= ReadBufferSize)
  {
  }

  /** A read error loses the answer only when it came with no data. */
  lemma HttpReadErrorWithData(env: Env, src: Config.IpSource)
    requires var got := env.httpGet(src.url, src.headers, src.timeout);
             got.Success? && got.value.status == StatusOK && got.value.readFailed && |got.value.chunk| > 0
    ensures FromHttp(env, src) == Checked(env, FirstRead(env.httpGet(src.url, src.headers, src.timeout).value.chunk))
  {
  }

  /** What a command source answers: an address only when the command
      succeeded, and then its trimmed output, which the parser accepts. */
  lemma CommandAnswer(env: Env, src: Config.IpSource)
    ensures var r := FromCommand(env, src);
            var out := env.shell(src.cmd, src.timeout);
            && (out.Failure? ==> r == Failure(CommandFailed(out.error)))
            && (r.Success? <==> out.Success? && env.isIP(TrimSpace(out.value)))
            && (r.Success? ==> r.value == TrimSpace(out.value) && Trimmed(r.value))
  {
  }

  // ---------------------------------------------------------------------
  // Interface source
  // ---------------------------------------------------------------------

  /** The IP an address holds; an address of another kind holds the nil IP,
      which is not loopback, has no 4-byte form and prints as "<nil>". */
  function AddrIp(a: Addr): IpValue {
    match a
    case IpNet(ip) => ip
    case IpAddr(ip) => ip
    case OtherAddr => IpValue(NilText, false, false)
  }

  /** An address the interface source may answer with: not loopback, and of
      the requested family. */
  predicate Eligible(a: Addr, v6: bool) {
    var ip := AddrIp(a);
    !ip.loopback && (v6 <==> !ip.v4)
  }

  predicate FirstEligible(addrs: seq<Addr>, v6: bool, k: int) {
    && 0 <= k < |addrs| && Eligible(addrs[k], v6)
    && forall j :: 0 <= j < k ==> !Eligible(addrs[j], v6)
  }

  /** The first eligible address of one interface. */
  function PickAddr(addrs: seq<Addr>, v6: bool): (r: Option<string>)
    ensures r.None? <==> forall k :: 0 <= k < |addrs| ==> !Eligible(addrs[k], v6)
  {
    if addrs == [] then None
    else if Eligible(addrs[0], v6) then Some(AddrIp(addrs[0]).text)
    else PickAddr(addrs[1..], v6)
  }

  /** A picked address is the first eligible one. */
  lemma {:induction false} PickAddrFirst(addrs: seq<Addr>, v6: bool)
    requires PickAddr(addrs, v6).Some?
    ensures exists k :: FirstEligible(addrs, v6, k) && PickAddr(addrs, v6).value == AddrIp(addrs[k]).text
  {
    if Eligible(addrs[0], v6) {
      assert FirstEligible(addrs, v6, 0);
    } else {
      PickAddrFirst(addrs[1..], v6);
      var k :| FirstEligible(addrs[1..], v6, k) && PickAddr(addrs[1..], v6).value == AddrIp(addrs[1..][k]).text;
      assert FirstEligible(addrs, v6, k + 1);
    }
  }

  /** The interfaces with the configured name, in order, are searched for an
      eligible address; the first one whose addresses cannot be listed ends
      the search. */
  function FromInterfaces(ifaces: seq<Interface>, name: string, v6: bool): Result<string, IpError> {
    if ifaces == [] then Failure(NoAddress(name))
    else if ifaces[0].name != name then FromInterfaces(ifaces[1..], name, v6)
    else
      match ifaces[0].addrs
      case Failure(msg) => Failure(AddrsUnavailable(name, msg))
      case Success(addrs) =>
        match PickAddr(addrs, v6)
        case Some(ip) => Success(ip)
        case None => FromInterfaces(ifaces[1..], name, v6)
  }

  /** `getIPFromInterface`. */
  function FromInterface(env: Env, src: Config.IpSource): Result<string, IpError> {
    match env.interfaces
    case Failure(msg) => Failure(InterfacesUnavailable(msg))
    case Success(ifaces) => FromInterfaces(ifaces, src.interfaceName, src.ipv6)
  }

  function Named(ifaces: seq<Interface>, name: string): (r: seq<Interface>)
    ensures forall i :: 0 <= i < |r| ==> r[i].name == name
  {
    if ifaces == [] then []
    else if ifaces[0].name == name then [ifaces[0]] + Named(ifaces[1..], name)
    else Named(ifaces[1..], name)
  }

  /** Only the interfaces with the configured name matter. */
  lemma {:induction false} OnlyNamedInterface(ifaces: seq<Interface>, name: string, v6: bool)
    ensures FromInterfaces(ifaces, name, v6) == FromInterfaces(Named(ifaces, name), name, v6)
  {
    if ifaces != [] {
      OnlyNamedInterface(ifaces[1..], name, v6);
      if ifaces[0].name == name {
        assert ([ifaces[0]] + Named(ifaces[1..], name))[1..] == Named(ifaces[1..], name);
      }
    }
  }

  /** An answer is an eligible address of an interface with the configured
      name; without such an interface the answer is "not found". */
  lemma {:induction false} InterfaceAnswer(ifaces: seq<Interface>, name: string, v6: bool)
    ensures var r := FromInterfaces(ifaces, name, v6);
            && (r.Success? ==> exists i, k :: 0 <= i < |ifaces| && ifaces[i].name == name && ifaces[i].addrs.Success?
                                   && 0 <= k < |ifaces[i].addrs.value| && Eligible(ifaces[i].addrs.value[k], v6)
                                   && r.value == AddrIp(ifaces[i].addrs.value[k]).text)
            && ((forall i :: 0 <= i < |ifaces| ==> ifaces[i].name != name) ==> r == Failure(NoAddress(name)))
  {
    if ifaces != [] {
      InterfaceAnswer(ifaces[1..], name, v6);
      var r := FromInterfaces(ifaces, name, v6);
      if r.Success? {
        if ifaces[0].name == name && PickAddr(ifaces[0].addrs.value, v6).Some? {
          PickAddrFirst(ifaces[0].addrs.value, v6);
          var k :| FirstEligible(ifaces[0].addrs.value, v6, k) && r.value == AddrIp(ifaces[0].addrs.value[k]).text;
          assert 0 <= 0 < |ifaces| && ifaces[0].name == name;
        } else {
          assert r == FromInterfaces(ifaces[1..], name, v6);
          var i, k :| 0 <= i < |ifaces[1..]| && ifaces[1..][i].name == name && ifaces[1..][i].addrs.Success?
                      && 0 <= k < |ifaces[1..][i].addrs.value| && Eligible(ifaces[1..][i].addrs.value[k], v6)
                      && r.value == AddrIp(ifaces[1..][i].addrs.value[k]).text;
          assert ifaces[i + 1] == ifaces[1..][i];
        }
      }
      if forall i :: 0 <= i < |ifaces| ==> ifaces[i].name != name {
        assert ifaces[0].name != name;
        assert forall i :: 0 <= i < |ifaces[1..]| ==> ifaces[1..][i].name != name by {
          forall i | 0 <= i < |ifaces[1..]| ensures ifaces[1..][i].name != name {
            assert ifaces[1..][i] == ifaces[i + 1];
          }
        }
      }
    }
  }

  /** An address that holds no IP answers a request for an IPv6 address
      with the text "<nil>". */
  lemma NilAddressAnswersIpv6(name: string)
    ensures FromInterfaces([Interface(name, Success([OtherAddr]))], name, true) == Success(NilText)
  {
  }

  /** `getIPFromInterface`, scanning the interfaces and their addresses. */
  method GetIPFromInterface(env: Env, src: Config.IpSource) returns (r: Result<string, IpError>)
    ensures r == FromInterface(env, src)
  {
    if env.interfaces.Failure? {
      return Failure(InterfacesUnavailable(env.interfaces.error));
    }
    var ifaces := env.interfaces.value;
    var name := src.interfaceName;
    var i := 0;
    while i < |ifaces|
      invariant 0 <= i <= |ifaces|
      invariant FromInterfaces(ifaces, name, src.ipv6) == FromInterfaces(ifaces[i..], name, src.ipv6)
    {
      assert ifaces[i..][1..] == ifaces[i + 1..];
      if ifaces[i].name == name {
        if ifaces[i].addrs.Failure? {
          return Failure(AddrsUnavailable(name, ifaces[i].addrs.error));
        }
        var addrs := ifaces[i].addrs.value;
        var j := 0;
        while j < |addrs|
          invariant 0 <= j <= |addrs|
          invariant PickAddr(addrs, src.ipv6) == PickAddr(addrs[j..], src.ipv6)
        {
          assert addrs[j..][1..] == addrs[j + 1..];
          var ip := AddrIp(addrs[j]);
          if !ip.loopback {
            if src.ipv6 && !ip.v4 {
              return Success(ip.text);
            }
            if !src.ipv6 && ip.v4 {
              return Success(ip.text);
            }
          }
          j := j + 1;
        }
      }
      i := i + 1;
    }
    return Failure(NoAddress(name));
  }

  // ---------------------------------------------------------------------
  // Choosing among the sources
  // ---------------------------------------------------------------------

  /** `getIPFromSource`: dispatch on the source type. */
  function FromSource(env: Env, src: Config.IpSource): Result<string, IpError> {
    match src.sourceType
    case "http" => FromHttp(env, src)
    case "command" => FromCommand(env, src)
    case "interface" => FromInterface(env, src)
    case _ => Failure(UnknownSourceType(src.sourceType))
  }

  /** A source that answered with an address. */
  predicate Answers(env: Env, src: Config.IpSource) {
    var r := FromSource(env, src);
    r.Success? && r.value != ""
  }

  /** `GetPublicIP`: the answer of the first source that gives a non-empty
      address; an error when there is none. */
  function Resolve(env: Env, sources: seq<Config.IpSource>): (r: Result<string, IpError>)
    ensures r.Failure? ==> r.error == AllSourcesFailed
  {
    if sources == [] then Failure(AllSourcesFailed)
    else if Answers(env, sources[0]) then FromSource(env, sources[0])
    else Resolve(env, sources[1..])
  }

  /** Resolution succeeds exactly when some source answers, and then it gives
      the answer of the first such source. */
  lemma {:induction false} ResolveFirstAnswer(env: Env, sources: seq<Config.IpSource>)
    ensures Resolve(env, sources).Success? <==> exists k :: 0 <= k < |sources| && Answers(env, sources[k])
    ensures Resolve(env, sources).Success? ==>
              exists k :: && 0 <= k < |sources| && Answers(env, sources[k])
                          && (forall j :: 0 <= j < k ==> !Answers(env, sources[j]))
                          && Resolve(env, sources) == FromSource(env, sources[k])
  {
    if sources != [] && !Answers(env, sources[0]) {
      ResolveFirstAnswer(env, sources[1..]);
      if exists k :: 0 <= k < |sources| && Answers(env, sources[k]) {
        var k :| 0 <= k < |sources| && Answers(env, sources[k]);
        assert sources[1..][k - 1] == sources[k];
      }
      if Resolve(env, sources).Success? {
        var k :| && 0 <= k < |sources[1..]| && Answers(env, sources[1..][k])
                 && (forall j :: 0 <= j < k ==> !Answers(env, sources[1..][j]))
                 && Resolve(env, sources[1..]) == FromSource(env, sources[1..][k]);
        assert forall j :: 1 <= j < k + 1 ==> sources[j] == sources[1..][j - 1];
      }
    } else if sources != [] {
      assert Answers(env, sources[0]);
    }
  }

  /** The sources after the first that answers are never consulted. */
  lemma {:induction false} LaterSourcesIgnored(env: Env, sources: seq<Config.IpSource>, more: seq<Config.IpSource>)
    requires exists k :: 0 <= k < |sources| && Answers(env, sources[k])
    ensures Resolve(env, sources + more) == Resolve(env, sources)
  {
    var all := sources + more;
    assert all[0] == sources[0];
    if !Answers(env, sources[0]) {
      var k :| 0 <= k < |sources| && Answers(env, sources[k]);
      assert sources[1..][k - 1] == sources[k];
      assert all[1..] == sources[1..] + more;
      LaterSourcesIgnored(env, sources[1..], more);
    }
  }

  /** An address that came from an HTTP or command source was accepted by
      the parser and carries no surrounding white space. */
  lemma {:induction false} ResolvedAddressChecked(env: Env, sources: seq<Config.IpSource>)
    requires forall k :: 0 <= k < |sources| ==> sources[k].sourceType in {"http", "command"}
    requires Resolve(env, sources).Success?
    ensures env.isIP(Resolve(env, sources).value) && Trimmed(Resolve(env, sources).value)
  {
    if !Answers(env, sources[0]) {
      assert forall k :: 0 <= k < |sources[1..]| ==> sources[1..][k] == sources[k + 1];
      ResolvedAddressChecked(env, sources[1..]);
    } else if sources[0].sourceType == "http" {
      HttpAnswer(env, sources[0]);
    }
  }

  /** Text that can stand as one entry of a comma-separated whitelist: no
      comma and no surrounding white space. */
  predicate PlainAddress(s: string) {
    ',' !in s && Trimmed(s)
  }

  /** What the outside world guarantees about addresses: the parser accepts
      no text holding a comma (`net.ParseIP` accepts only dotted or
      colon-separated hex forms), and every address an interface lists
      prints as plain text. */
  ghost predicate EnvWellFormed(env: Env) {
    && (forall s :: env.isIP(s) ==> ',' !in s)
    && (env.interfaces.Success? ==>
          forall i, k :: 0 <= i < |env.interfaces.value| && env.interfaces.value[i].addrs.Success?
                         && 0 <= k < |env.interfaces.value[i].addrs.value| ==>
                           PlainAddress(AddrIp(env.interfaces.value[i].addrs.value[k]).text))
  }

  /** In a well-formed environment every resolved address is plain text,
      whatever kinds of source were configured. */
  lemma {:induction false} ResolvedAddressPlain(env: Env, sources: seq<Config.IpSource>)
    requires EnvWellFormed(env)
    requires Resolve(env, sources).Success?
    ensures PlainAddress(Resolve(env, sources).value)
  {
    if !Answers(env, sources[0]) {
      ResolvedAddressPlain(env, sources[1..]);
    } else {
      var src := sources[0];
      var r := FromSource(env, src);
      if src.sourceType == "http" {
        HttpAnswer(env, src);
      } else if src.sourceType == "interface" {
        var ifaces := env.interfaces.value;
        InterfaceAnswer(ifaces, src.interfaceName, src.ipv6);
        var i, k :| 0 <= i < |ifaces| && ifaces[i].name == src.interfaceName && ifaces[i].addrs.Success?
                    && 0 <= k < |ifaces[i].addrs.value| && Eligible(ifaces[i].addrs.value[k], src.ipv6)
                    && r.value == AddrIp(ifaces[i].addrs.value[k]).text;
      }
    }
  }

  /** `getIPFromSource`. */
  method GetIPFromSource(env: Env, src: Config.IpSource) returns (r: Result<string, IpError>)
    ensures r == FromSource(env, src)
  {
    match src.sourceType
    case "http" => r := FromHttp(env, src);
    case "command" => r := FromCommand(env, src);
    case "interface" => r := GetIPFromInterface(env, src);
    case _ => r := Failure(UnknownSourceType(src.sourceType));
  }

  /** `GetPublicIP`: tries the sources in order. */
  method GetPublicIP(env: Env, sources: seq<Config.IpSource>) returns (r: Result<string, IpError>)
    ensures r == Resolve(env, sources)
  {
    var i := 0;
    while i < |sources|
      invariant 0 <= i <= |sources|
      invariant Resolve(env, sources) == Resolve(env, sources[i..])
    {
      assert sources[i..][1..] == sources[i + 1..];
      var got := GetIPFromSource(env, sources[i]);
      if got.Success? && got.value != "" {
        return got;
      }
      i := i + 1;
    }
    return Failure(AllSourcesFailed);
  }
}
