/** The binary PROXY protocol header (section 2.2 of the PROXY protocol specification) that carries an alias port. */
module ProxyHeader {
  import opened Common

  type Byte = b: int | 0 <= b < 256
  type Word16 = w: int | 0 <= w < 65536

  const SIGNATURE: seq<Byte> := [0x0D, 0x0A, 0x0D, 0x0A, 0x00, 0x0D, 0x0A, 0x51, 0x55, 0x49, 0x54, 0x0A]

  /** Version 2, command PROXY. */
  const VERSION_AND_COMMAND: Byte := 0x21

  datatype Family = Inet | Inet6

  /** An address as its packed bytes, and a port. */
  datatype Endpoint = Endpoint(address: seq<Byte>, port: Word16)

  function AddressLength(f: Family): nat {
    if f == Inet then 4 else 16
  }

  function FamilyByte(f: Family): Byte {
    if f == Inet then 0x11 else 0x21
  }

  /** `struct.pack("!H", w)`. */
  function Pack(w: Word16): seq<Byte> {
    [w / 256, w % 256]
  }

  function Unpack(high: Byte, low: Byte): Word16 {
    high * 256 + low
  }

  function Header(peer: Endpoint, local: Endpoint, f: Family): Result<seq<Byte>> {
    if |peer.address| != AddressLength(f) || |local.address| != AddressLength(f) then Err("address of the other family")
    else
      var block := peer.address + local.address + (Pack(peer.port) + Pack(local.port));
      Ok(SIGNATURE + [VERSION_AND_COMMAND, FamilyByte(f)] + Pack(|block|) + block)
  }

  /** What a receiver reads off the wire: the two endpoints, and the bytes that follow the header. */
  datatype Received = Received(peer: Endpoint, local: Endpoint, family: Family, payload: seq<Byte>)

  /** The receiver of section 2.2: signature, version and command, family, length, addresses, ports. */
  function Receive(wire: seq<Byte>): Option<Received> {
    if |wire| < 16 || wire[..12] != SIGNATURE || wire[12] != VERSION_AND_COMMAND then None
    else
      var length := Unpack(wire[14], wire[15]);
      if wire[13] == FamilyByte(Inet) then ReceiveBlock(wire, length, Inet)
      else if wire[13] == FamilyByte(Inet6) then ReceiveBlock(wire, length, Inet6)
      else None
  }

  function ReceiveBlock(wire: seq<Byte>, length: nat, f: Family): Option<Received>
    requires |wire| >= 16
  {
    var n := AddressLength(f);
    if length < 2 * n + 4 || |wire| < 16 + length then None
    else
      Some(Received(Endpoint(wire[16..16 + n], Unpack(wire[16 + 2 * n], wire[17 + 2 * n])),
                    Endpoint(wire[16 + n..16 + 2 * n], Unpack(wire[18 + 2 * n], wire[19 + 2 * n])),
                    f, wire[16 + length..]))
  }

  lemma PackUnpack(w: Word16)
    ensures Unpack(Pack(w)[0], Pack(w)[1]) == w
  {}

  lemma HeaderLayout(peer: Endpoint, local: Endpoint, f: Family, payload: seq<Byte>)
    requires |peer.address| == |local.address| == AddressLength(f)
    ensures var wire, n := Header(peer, local, f).value + payload, AddressLength(f);
            && |wire| == 20 + 2 * n + |payload|
            && wire[..12] == SIGNATURE && wire[12] == VERSION_AND_COMMAND && wire[13] == FamilyByte(f)
            && Unpack(wire[14], wire[15]) == 2 * n + 4
            && wire[16..16 + n] == peer.address && wire[16 + n..16 + 2 * n] == local.address
            && Unpack(wire[16 + 2 * n], wire[17 + 2 * n]) == peer.port
            && Unpack(wire[18 + 2 * n], wire[19 + 2 * n]) == local.port
            && wire[20 + 2 * n..] == payload
  {
    PackUnpack(peer.port);
    PackUnpack(local.port);
  }

  /** Both endpoints, the family and every byte after the header survive; a header exists iff both addresses fit the family. */
  lemma HeaderRoundTrip(peer: Endpoint, local: Endpoint, f: Family, payload: seq<Byte>)
    ensures Header(peer, local, f).Ok? <==> |peer.address| == |local.address| == AddressLength(f)
    ensures Header(peer, local, f).Ok? ==>
              Receive(Header(peer, local, f).value + payload) == Some(Received(peer, local, f, payload))
  {
    if |peer.address| == |local.address| == AddressLength(f) { HeaderLayout(peer, local, f, payload); }
  }

  /** No proper beginning of a header is taken for a header, so a receiver never acts on a truncated address. */
  lemma TruncatedHeaderIsRefused(peer: Endpoint, local: Endpoint, f: Family, k: nat)
    requires Header(peer, local, f).Ok? && k < |Header(peer, local, f).value|
    ensures Receive(Header(peer, local, f).value[..k]) == None
  {
    HeaderLayout(peer, local, f, []);
    var h := Header(peer, local, f).value;
    assert h + [] == h;
    if k >= 16 { assert h[..k][14] == h[14] && h[..k][15] == h[15]; }
  }
}
