/** P2PMessage: one message between browser nodes, with its kind, its
    sender, a payload and the time it was made. The time is the rendered
    clock reading, which the model takes as a parameter. */
module P2PMessages {
  import opened Strings
  import opened PeerInfos

  /** The nine kinds of message. */
  datatype MessageType =
    | Discover
    | Connect
    | Disconnect
    | ShareHistory
    | ShareBookmark
    | SharePage
    | RequestPage
    | ChatMessage
    | SyncRequest

  /** The name of a constant, as the enum's toString writes it. */
  function TypeName(t: MessageType): string {
    match t
    case Discover => "DISCOVER"
    case Connect => "CONNECT"
    case Disconnect => "DISCONNECT"
    case ShareHistory => "SHARE_HISTORY"
    case ShareBookmark => "SHARE_BOOKMARK"
    case SharePage => "SHARE_PAGE"
    case RequestPage => "REQUEST_PAGE"
    case ChatMessage => "CHAT_MESSAGE"
    case SyncRequest => "SYNC_REQUEST"
  }

  /** Different kinds have different names. */
  lemma TypeNameInjective(a: MessageType, b: MessageType)
    requires TypeName(a) == TypeName(b)
    ensures a == b
  {
    var n := TypeName(a);
    assert n[0] == TypeName(b)[0] && |n| == |TypeName(b)|;
    if a.ShareHistory? || a.ShareBookmark? || a.SharePage? {
      assert n[6] == TypeName(b)[6];
    }
  }

  /** The payload object: null, a PeerInfo (what a CONNECT carries), or any
      other object the model does not look into. */
  datatype Payload = Null | PeerPayload(peer: PeerInfo) | OtherPayload

  /** The text toString gives: "[timestamp] TYPE from senderName (senderId)". */
  function Render(timestamp: string, t: MessageType, senderName: string, senderId: string): (s: string)
    ensures |s| == |timestamp| + |TypeName(t)| + |senderName| + |senderId| + 12
    ensures s[..|timestamp| + 3 + |TypeName(t)|] == "[" + timestamp + "] " + TypeName(t)
    ensures s[|s| - |senderId| - 3..] == " (" + (senderId + ")")
  {
    var head := "[" + timestamp + "] " + TypeName(t);
    var middle := " from " + senderName;
    var tail := " (" + (senderId + ")");
    ThreeParts(head, middle, tail);
    head + middle + tail
  }

  /** The text names the sender between " from " and " (". */
  lemma RenderNamesSender(timestamp: string, t: MessageType, senderName: string, senderId: string)
    ensures Contains(Render(timestamp, t, senderName, senderId), " from " + senderName + " (")
  {
    var head := "[" + timestamp + "] " + TypeName(t);
    Regroup(head, " from " + senderName, " (", senderId + ")");
    ContainsInfix(head, " from " + senderName + " (", senderId + ")");
  }

  /** A snapshot of the five fields. */
  datatype MessageValue = MessageValue(
    msgType: MessageType, senderId: string, senderName: string, payload: Payload, timestamp: string)

  class P2PMessage {
    var msgType: MessageType
    var senderId: string
    var senderName: string
    var payload: Payload
    var timestamp: string

    function Value(): MessageValue
      reads this
    {
      MessageValue(msgType, senderId, senderName, payload, timestamp)
    }

    /** The four given fields are stored as they are; the timestamp is the
        current time `now`, set once here. */
    constructor (msgType: MessageType, senderId: string, senderName: string, payload: Payload, now: string)
      ensures Value() == MessageValue(msgType, senderId, senderName, payload, now)
    {
      this.msgType := msgType;
      this.senderId := senderId;
      this.senderName := senderName;
      this.payload := payload;
      timestamp := now;
    }

    method SetType(msgType: MessageType)
      modifies this
      ensures Value() == old(Value()).(msgType := msgType)
    {
      this.msgType := msgType;
    }

    method SetSenderId(senderId: string)
      modifies this
      ensures Value() == old(Value()).(senderId := senderId)
    {
      this.senderId := senderId;
    }

    method SetSenderName(senderName: string)
      modifies this
      ensures Value() == old(Value()).(senderName := senderName)
    {
      this.senderName := senderName;
    }

    method SetPayload(payload: Payload)
      modifies this
      ensures Value() == old(Value()).(payload := payload)
    {
      this.payload := payload;
    }

    method SetTimestamp(timestamp: string)
      modifies this
      ensures Value() == old(Value()).(timestamp := timestamp)
    {
      this.timestamp := timestamp;
    }

    /** toString. */
    function ToString(): (s: string)
      reads this
      ensures s == Render(timestamp, msgType, senderName, senderId)
    {
      Render(timestamp, msgType, senderName, senderId)
    }
  }
}
