/** Addresses and flows. */
module Net {
  import opened Prelude

  datatype Proto = Udp | Tcp

  type Octets4 = s: seq<byte> | |s| == 4 witness [0, 0, 0, 0]
  type Octets16 = s: seq<byte> | |s| == 16 witness seq(16, _ => 0)

  datatype IpAddr = V4(v4: Octets4) | V6(v6: Octets16)

  datatype SocketAddr = SocketAddr(ip: IpAddr, port: u16)

  datatype Flow5Tuple = Flow5Tuple(proto: Proto, src: SocketAddr, dst: SocketAddr)
}
