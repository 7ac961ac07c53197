/**
 * MavlinkSocket: a UDP MAVLink endpoint that moves from idle to listening (a pymavlink
 * connection exists) to established (a heartbeat arrived, the clock started). Opening the
 * endpoint and waiting for the heartbeat are done by pymavlink; here their outcomes are inputs.
 * Time is an integer millisecond clock supplied by the caller.
 */
module Socket {
  import opened Wrappers
  import opened Text
  import opened Mavlink

  /**
   * The pymavlink connection object: the ids of the vehicle it addresses, adopted from the
   * last heartbeat, and everything that happened on its link, in order.
   */
  class Master {
    var targetSystem: int
    var targetComponent: int
    var log: seq<LinkEvent>

    /** A fresh connection addresses system 0, component 0 and has sent nothing. */
    constructor ()
      ensures targetSystem == 0 && targetComponent == 0 && log == []
    {
      targetSystem := 0;
      targetComponent := 0;
      log := [];
    }
  }

  /** How opening the endpoint turns out: opened, or the socket layer rejects hostname or port. */
  datatype OpenOutcome = Opened | HostUnresolvable | PortOverflow

  const AWAIT_BEFORE_LISTEN: string :=
    "Must be listening on a port before awaiting a\n" + Spaces(31) + "heartbeat."
  const AGE_BEFORE_ESTABLISHED: string :=
    "Connection needs to be established prior to querying\n" + Spaces(31) + "its age."

  /** n blanks (the indentation Python keeps inside a triple-quoted message). */
  function Spaces(n: nat): (s: string)
    ensures |s| == n && forall i :: 0 <= i < n ==> s[i] == ' '
  {
    if n == 0 then "" else Spaces(n - 1) + " "
  }

  /** Euclidean division of a non-negative number: the quotient brackets it from below. */
  lemma DivBrackets(p: int, b: int)
    requires p >= 0 && b > 0
    ensures 0 <= p / b && (p / b) * b <= p < (p / b) * b + b
  {
    var q, m := p / b, p % b;
    assert p == q * b + m && 0 <= m < b;
  }

  /** int(a / b) for b > 0: the quotient truncated toward zero. */
  function TruncDiv(a: int, b: int): (q: int)
    requires b > 0
    ensures a >= 0 ==> 0 <= q && q * b <= a < q * b + b
    ensures a < 0 ==> q <= 0 && q * b - b < a <= q * b
  {
    if a >= 0 then
      DivBrackets(a, b);
      a / b
    else
      var n := -a / b;
      DivBrackets(-a, b);
      assert -n * b == -(n * b);
      -n
  }

  class MavlinkSocket {
    const hostname: string
    const port: int
    /** A pymavlink connection has been opened on hostname:port. */
    var listening: bool
    /** A heartbeat has arrived. */
    var established: bool
    /** The clock reading when the heartbeat arrived, in milliseconds. */
    var cnxStartTime: Option<int>
    var master: Master?

    /** The state machine's invariant: established needs listening, and each flag has its data. */
    ghost predicate Valid()
      reads this
    {
      && (established ==> listening)
      && (listening <==> master != null)
      && (cnxStartTime.Some? <==> established)
    }

    /** A new socket has neither a connection nor a heartbeat. */
    constructor (hostname: string := "0.0.0.0", port: int := 14550)
      ensures Valid()
      ensures this.hostname == hostname && this.port == port
      ensures !listening && !established && cnxStartTime == None && master == null
    {
      this.hostname := hostname;
      this.port := port;
      listening := false;
      established := false;
      cnxStartTime := None;
      master := null;
    }

    /**
     * listen(): open a pymavlink connection on CnxStr(). On success the socket listens through
     * a fresh master; a rejected hostname or port raises and leaves the socket as it was.
     */
    method Listen(outcome: OpenOutcome) returns (r: Outcome<MavlinkError>)
      requires Valid()
      modifies this
      ensures Valid()
      ensures old(listening) ==> listening
      ensures established == old(established) && cnxStartTime == old(cnxStartTime)
      ensures outcome == Opened ==>
        && r == Pass && listening && fresh(master)
        && master.targetSystem == 0 && master.targetComponent == 0 && master.log == []
      ensures outcome == HostUnresolvable ==>
        && r == Fail(MavlinkError("Provided hostname, " + hostname + ", is invalid."))
        && unchanged(this)
      ensures outcome == PortOverflow ==>
        && r == Fail(MavlinkError("Provided port, " + IntToString(port) + " is invalid."))
        && unchanged(this)
    {
      match outcome
      case Opened =>
        master := new Master();
        listening := true;
        r := Pass;
      case HostUnresolvable =>
        r := Fail(MavlinkError("Provided hostname, " + hostname + ", is invalid."));
      case PortOverflow =>
        r := Fail(MavlinkError("Provided port, " + IntToString(port) + " is invalid."));
    }

    /**
     * await_heartbeat(): once listening, block until heartbeat hb arrives at clock reading now;
     * the master then addresses hb's sender and the connection is established from now on.
     * Before listening it raises and changes nothing.
     */
    method AwaitHeartbeat(now: int, hb: Heartbeat) returns (r: Outcome<MavlinkError>)
      requires Valid()
      modifies this, master
      ensures Valid()
      ensures old(listening) ==> listening
      ensures old(established) ==> established
      ensures !old(listening) ==> r == Fail(MavlinkError(AWAIT_BEFORE_LISTEN)) && unchanged(this)
      ensures old(listening) ==>
        && r == Pass && established && cnxStartTime == Some(now)
        && master == old(master) && master.log == old(master.log)
        && TargetSystem() == Some(hb.srcSystem) && TargetComponent() == Some(hb.srcComponent)
    {
      if !listening {
        return Fail(MavlinkError(AWAIT_BEFORE_LISTEN));
      }
      master.targetSystem := hb.srcSystem;
      master.targetComponent := hb.srcComponent;
      established := true;
      cnxStartTime := Some(now);
      r := Pass;
    }

    /**
     * age_of_connection(ms): time since the heartbeat at clock reading now, in milliseconds or
     * in whole seconds truncated toward zero; it raises before a heartbeat.
     */
    function AgeOfConnection(now: int, ms: bool := true): (r: Result<int, MavlinkError>)
      reads this
      ensures r.Failure? <==> cnxStartTime.None?
      ensures r.Failure? ==> r.error == MavlinkError(AGE_BEFORE_ESTABLISHED)
      ensures r.Success? && ms ==> r.value + cnxStartTime.value == now
      ensures r.Success? && !ms && cnxStartTime.value <= now ==>
        r.value * 1000 <= now - cnxStartTime.value < r.value * 1000 + 1000
      ensures r.Success? && !ms && now < cnxStartTime.value ==>
        r.value <= 0 && r.value * 1000 - 1000 < now - cnxStartTime.value <= r.value * 1000
      ensures r.Success? && cnxStartTime.value <= now ==> r.value >= 0
    {
      match cnxStartTime
      case None => Failure(MavlinkError(AGE_BEFORE_ESTABLISHED))
      case Some(start) => Success(if ms then now - start else TruncDiv(now - start, 1000))
    }

    /** target_system: the master's target system once established, None before. */
    function TargetSystem(): (r: Option<int>)
      requires Valid()
      reads this, master
      ensures r.Some? <==> established
      ensures r.Some? ==> master != null && r.value == master.targetSystem
    {
      if established then Some(master.targetSystem) else None
    }

    /** target_component: the master's target component once established, None before. */
    function TargetComponent(): (r: Option<int>)
      requires Valid()
      reads this, master
      ensures r.Some? <==> established
      ensures r.Some? ==> master != null && r.value == master.targetComponent
    {
      if established then Some(master.targetComponent) else None
    }

    /** cnx_str: the pymavlink connection string "udp:<hostname>:<port>". */
    function CnxStr(): (s: string)
      ensures |s| == 5 + |hostname| + |IntToString(port)|
      ensures s[..4] == "udp:" && s[4..4 + |hostname|] == hostname
      ensures s[4 + |hostname|..] == ":" + IntToString(port)
    {
      "udp:" + hostname + ":" + IntToString(port)
    }
  }

  /** Reads a "udp:<hostname>:<port>" string back into its hostname and port. */
  function ParseCnxStr(s: string): Option<(string, int)> {
    var parts := Split(s, ':');
    if |parts| == 3 && parts[0] == "udp" then
      match ParseInt(parts[2])
      case Some(port) => Some((parts[1], port))
      case None => None
    else None
  }

  /** str(n) holds no colon. */
  lemma NoColonInIntToString(n: int)
    ensures ':' !in IntToString(n)
  {
    var d := NatToString(if n < 0 then -n else n);
    assert forall i :: 0 <= i < |d| ==> d[i] != ':';
    if n < 0 {
      assert IntToString(n) == "-" + d;
    }
  }

  /** The connection string names the socket's hostname and port, for a hostname without ':'. */
  lemma CnxStrRoundTrip(sock: MavlinkSocket)
    requires ':' !in sock.hostname
    ensures ParseCnxStr(sock.CnxStr()) == Some((sock.hostname, sock.port))
  {
    var p := IntToString(sock.port);
    NoColonInIntToString(sock.port);
    SplitWithoutSeparator(p, ':');
    SplitAtFirst(sock.hostname, ':', p);
    SplitAtFirst("udp", ':', sock.hostname + [':'] + p);
    assert sock.CnxStr() == "udp" + [':'] + (sock.hostname + [':'] + p);
    IntToStringRoundTrip(sock.port);
  }
}
