/** PeerInfo: what a node knows about one peer. The fields are set by the
    constructor and by setters; lastSeen holds a clock reading in
    milliseconds, which the model takes as a parameter. */
module PeerInfos {
  import opened Strings

  /** The text toString gives for a peer: "name (ip:port) - Online" or
      "... - Offline". */
  function Describe(name: string, ip: string, port: int, online: bool): (s: string)
    ensures |s| >= |name| + 2 + 9
    ensures s[..|name| + 2] == name + " ("
    ensures online ==> s[|s| - 9..] == " - Online"
    ensures !online ==> s[|s| - 10..] == " - Offline"
  {
    var head := name + " (";
    var address := ip + ":" + IntToString(port);
    var middle := address + ")";
    var tail := if online then " - Online" else " - Offline";
    ThreeParts(head, middle, tail);
    head + middle + tail
  }

  /** The text shows the address as "ip:port". */
  lemma DescribeShowsAddress(name: string, ip: string, port: int, online: bool)
    ensures Contains(Describe(name, ip, port, online), ip + ":" + IntToString(port))
  {
    var head := name + " (";
    var address := ip + ":" + IntToString(port);
    var tail := if online then " - Online" else " - Offline";
    Regroup(head, address, ")", tail);
    ContainsInfix(head, address, ")" + tail);
  }

  /** The status at the end of the text tells an online peer from an
      offline one, whatever the name and address hold. */
  lemma DescribeShowsStatus(name: string, ip: string, port: int, online: bool)
    ensures var s := Describe(name, ip, port, online);
      |s| >= 9 && (s[|s| - 9..] == " - Online" <==> online)
  {
    var s := Describe(name, ip, port, online);
    if !online {
      assert s[|s| - 9..] == (s[|s| - 10..])[1..];
      assert s[|s| - 9..][0] == '-';
    }
  }

  /** A snapshot of the six fields. */
  datatype PeerValue = PeerValue(
    peerId: string, peerName: string, ipAddress: string, port: int, isOnline: bool, lastSeen: int)

  class PeerInfo {
    var peerId: string
    var peerName: string
    var ipAddress: string
    var port: int
    var isOnline: bool
    var lastSeen: int

    function Value(): PeerValue
      reads this
    {
      PeerValue(peerId, peerName, ipAddress, port, isOnline, lastSeen)
    }

    /** The four given fields are stored as they are; a new peer is online
        and was last seen at the current time `now`. */
    constructor (peerId: string, peerName: string, ipAddress: string, port: int, now: int)
      ensures Value() == PeerValue(peerId, peerName, ipAddress, port, true, now)
    {
      this.peerId := peerId;
      this.peerName := peerName;
      this.ipAddress := ipAddress;
      this.port := port;
      isOnline := true;
      lastSeen := now;
    }

    method SetPeerId(peerId: string)
      modifies this
      ensures Value() == old(Value()).(peerId := peerId)
    {
      this.peerId := peerId;
    }

    method SetPeerName(peerName: string)
      modifies this
      ensures Value() == old(Value()).(peerName := peerName)
    {
      this.peerName := peerName;
    }

    method SetIpAddress(ipAddress: string)
      modifies this
      ensures Value() == old(Value()).(ipAddress := ipAddress)
    {
      this.ipAddress := ipAddress;
    }

    method SetPort(port: int)
      modifies this
      ensures Value() == old(Value()).(port := port)
    {
      this.port := port;
    }

    method SetOnline(online: bool)
      modifies this
      ensures Value() == old(Value()).(isOnline := online)
    {
      isOnline := online;
    }

    method SetLastSeen(lastSeen: int)
      modifies this
      ensures Value() == old(Value()).(lastSeen := lastSeen)
    {
      this.lastSeen := lastSeen;
    }

    /** updateLastSeen: lastSeen becomes the current time `now`. */
    method UpdateLastSeen(now: int)
      modifies this
      ensures Value() == old(Value()).(lastSeen := now)
    {
      lastSeen := now;
    }

    /** toString. */
    function ToString(): (s: string)
      reads this
      ensures s == Describe(peerName, ipAddress, port, isOnline)
    {
      Describe(peerName, ipAddress, port, isOnline)
    }
  }
}
