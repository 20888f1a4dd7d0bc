/** Identifiers and messages exchanged between gates and the gate master. */
module RegistryMessages {
  datatype Option<+T> = None | Some(value: T)

  /** A `uint16_t` as stored in the tables. */
  type Id = x: int | 0 <= x < 0x1_0000

  /** `static_cast<uint16_t>`: the wire carries wider integers than the tables. */
  function U16(x: int): Id {
    x % 0x1_0000
  }

  datatype Address = Address(host: string, port: string)

  /** `s_service_info`; `id` is a wire integer, not yet narrowed. */
  datatype ServiceInfo = ServiceInfo(id: int, tp: int, online: bool)

  /** `s_gate_info`. */
  datatype GateInfo = GateInfo(id: int, addresses: seq<Address>, services: seq<ServiceInfo>)

  datatype Request =
    | Register(info: GateInfo)
    | Upload(services: seq<ServiceInfo>)

  /** What the master writes to a connection. A failed acknowledgement carries no gates. */
  datatype Message =
    | RegisterAck(session: nat, ok: bool, gates: seq<GateInfo>)
    | UploadAck(session: nat, ok: bool)
    | RegisterBrd(gates: seq<GateInfo>)

  ghost predicate NoDuplicates<K>(s: seq<K>) {
    forall i, j | 0 <= i < j < |s| :: s[i] != s[j]
  }

  /** `order` is one possible iteration order of an unordered container holding `keys`. */
  ghost predicate Enumerates<K(!new)>(order: seq<K>, keys: set<K>) {
    && (forall i | 0 <= i < |order| :: order[i] in keys)
    && (forall k | k in keys :: k in order)
    && NoDuplicates(order)
  }
}
