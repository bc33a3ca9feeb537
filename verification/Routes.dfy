/** Destinations, routes and the kernel's view of a route, shared by the
    forwarding-plane modules. */
module Routes {

  type Byte = b: int | 0 <= b < 256

  datatype Option<+T> = None | Some(value: T)

  datatype Afi = Ipv4 | Ipv6

  /** A destination.  `addr` is the packed address, already masked. */
  datatype Prefix = Prefix(afi: Afi, plen: nat, addr: seq<Byte>)

  /** The engine's best route for a destination, as far as a sink reads it. */
  datatype Route = Route(prefix: Prefix, nexthop: seq<Byte>, distance: nat)

  /** What the sink writes besides the key: packed gateway and interface. */
  datatype Hop = Hop(gateway: seq<Byte>, oif: nat)

  /** The kernel's route identity within one table. */
  datatype Key = Key(prefix: Prefix, priority: nat)

  /** The sink's configuration; `oif` stands for the embedder's `oif_fn`. */
  datatype Conf = Conf(
    table: nat, protocol: nat,
    priorities: map<nat, nat>, fallback: nat,
    oif: Route -> nat, window: nat, batch: nat, ackBatch: nat, ackTimeout: real)

  const U32: nat := 0x1_0000_0000

  function AddrWidth(afi: Afi): nat {
    match afi case Ipv4 => 4 case Ipv6 => 16
  }

  /** `int(x) & 0xffffffff` of a non-negative number. */
  function PriorityFor(c: Conf, r: Route): nat {
    (if r.distance in c.priorities then c.priorities[r.distance] else c.fallback) % U32
  }

  datatype Target = Target(priority: nat, hop: Hop)

  /** An all-zero next hop is written as no gateway at all. */
  function HopOf(c: Conf, r: Route): Hop {
    Hop(if r.nexthop == seq(AddrWidth(r.prefix.afi), _ => 0) then [] else r.nexthop, c.oif(r) % U32)
  }

  /** `_attrs`: None when the next hop's width is not the destination family's. */
  function Attrs(c: Conf, r: Route): Option<Target> {
    if r.nexthop != [] && |r.nexthop| != AddrWidth(r.prefix.afi) then None
    else Some(Target(PriorityFor(c, r), HopOf(c, r)))
  }

  predicate Expressible(c: Conf, r: Route) {
    Attrs(c, r).Some?
  }
}
