/** Vocabulary shared by the client, the server and the network. */
module RpcTypes {
  datatype Option<+T> = None | Some(value: T)

  type byte = b: int | 0 <= b < 256
  type bytes = seq<byte>

  /** Result code carried by a response header. */
  datatype RpcResult = Succeeded | Failed | TimedOut | IfaceNotFound | MethodNotFound

  /** What a failed cell stores: any result code but success. */
  type Reason = r: RpcResult | r != Succeeded witness Failed

  /** A field of a Thrift struct: its value and, for an optional field, its `__isset` bit. */
  datatype Slot = Slot(isset: bool, val: Val)

  /** The values that cells hold and that travel in message payloads. */
  datatype Val =
    | VBool(b: bool)
    | VInt(i: int)
    | VDouble(bits: nat)
    | VString(s: bytes)
    | VStruct(slots: seq<Slot>)
    | VSeq(items: seq<Val>)
    | VMap(pairs: seq<(Val, Val)>)

  /** The part of a message header that a server echoes. */
  datatype Header = Header(version: nat, ifaceIndex: nat, methodIndex: nat, seqId: nat)

  datatype Request = Request(header: Header, payload: bytes)

  datatype Response = Response(header: Header, result: RpcResult, payload: bytes)
}
