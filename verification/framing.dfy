/**
 * The receive path's frame header, shared by src/server/socket.ts,
 * src/server/server.ts and src/public/socket.ts: `DataView.getUint16(0)`
 * reads the first two bytes big-endian, the top 4 bits are the channel
 * (`main`) and the low 12 bits the message number (`sub`).
 */
module Framing {
  import opened Options

  /** A byte of an `ArrayBuffer`. */
  type byte = bv8

  /** `view.getUint16(0)`: the first two bytes, most significant first. */
  function Header(b0: byte, b1: byte): bv16 {
    ((b0 as bv16) << 8) | (b1 as bv16)
  }

  /** `(header & 0xF000) >> 12`. */
  function MainOf(header: bv16): bv16 {
    (header & 0xF000) >> 12
  }

  /** `header & 0x0FFF`. */
  function SubOf(header: bv16): bv16 {
    header & 0x0FFF
  }

  lemma HeaderBytes(b0: byte, b1: byte)
    ensures Header(b0, b1) / 256 == b0 as bv16 && Header(b0, b1) % 256 == b1 as bv16
  {
  }

  lemma Quotient256(x: bv16)
    ensures (x / 256) as int == x as int / 256
  {
  }

  lemma Remainder256(x: bv16)
    ensures (x % 256) as int == x as int - (x / 256) as int * 256
  {
  }

  lemma Quotient4096(x: bv16)
    ensures (x / 4096) as int == x as int / 4096
  {
  }

  lemma Remainder4096(x: bv16)
    ensures (x % 4096) as int == x as int - (x / 4096) as int * 4096
  {
  }

  lemma Widen(b: byte)
    ensures (b as bv16) as int == b as int
  {
  }

  lemma MaskIsRemainder(x: bv16)
    ensures SubOf(x) == x % 4096 && MainOf(x) == x / 4096
  {
  }

  /** The value `getUint16(0)` reads is byte0 · 256 + byte1. */
  lemma {:induction false} HeaderValue(b0: byte, b1: byte)
    ensures Header(b0, b1) as int == b0 as int * 256 + b1 as int
  {
    var h := Header(b0, b1);
    HeaderBytes(b0, b1);
    Quotient256(h);
    Remainder256(h);
    Widen(b0);
    Widen(b1);
  }

  /** The split loses nothing: main is in 0..15, sub in 0..4095, and together they rebuild the header. */
  lemma {:induction false} SplitHeader(header: bv16)
    ensures MainOf(header) as int == header as int / 4096 && MainOf(header) as int < 16
    ensures SubOf(header) as int == header as int % 4096
    ensures MainOf(header) as int * 4096 + SubOf(header) as int == header as int
  {
    MaskIsRemainder(header);
    Quotient4096(header);
    Remainder4096(header);
    Split4096(header as int, MainOf(header) as int, SubOf(header) as int);
  }

  /** Quotient and remainder by 4096 of a 16-bit value. */
  lemma Split4096(n: int, q: int, r: int)
    requires 0 <= n < 0x1_0000 && q == n / 4096 && r == n - q * 4096
    ensures q < 16 && r == n % 4096 && q * 4096 + r == n
  {
  }

  /** A routed frame: the (main, sub) pair a registry is called with. */
  datatype Route = Route(main: int, sub: int)

  function RouteOf(b0: byte, b1: byte): Route {
    var h := Header(b0, b1);
    Route(MainOf(h) as int, SubOf(h) as int)
  }

  /** The server's `onPacket`: frames shorter than two bytes are dropped. */
  function ServerRoute(data: seq<byte>): (r: Option<Route>)
    ensures r.None? <==> |data| < 2
    ensures r.Some? ==> 0 <= r.value.main < 16 && 0 <= r.value.sub < 4096
    ensures r.Some? ==> r.value.main * 4096 + r.value.sub == data[0] as int * 256 + data[1] as int
  {
    if |data| < 2 then None
    else
      SplitHeader(Header(data[0], data[1]));
      HeaderValue(data[0], data[1]);
      Some(RouteOf(data[0], data[1]))
  }

  /** A header has one (main, sub) decomposition. */
  lemma RouteUnique(r: Route, s: Route)
    requires 0 <= r.main < 16 && 0 <= r.sub < 4096 && 0 <= s.main < 16 && 0 <= s.sub < 4096
    requires r.main * 4096 + r.sub == s.main * 4096 + s.sub
    ensures r == s
  {
  }

  /** The high and low header bytes of (main, sub), as integers. */
  lemma HeaderDigits(main: int, sub: int, hi: int, lo: int)
    requires 0 <= main < 16 && 0 <= sub < 4096
    requires hi == main * 16 + sub / 256 && lo == sub % 256
    ensures 0 <= hi < 256 && 0 <= lo < 256 && hi * 256 + lo == main * 4096 + sub
  {
  }

  /** The byte holding a value 0..255, built up from 0 to keep the solver on bit-vector increments. */
  function ByteOf(n: nat): (b: byte)
    requires n < 256
    ensures b as int == n
  {
    if n == 0 then 0
    else
      var p := ByteOf(n - 1);
      assert p < 255;
      p + 1
  }

  /** The two header bytes a sender writes for (main, sub): the split undoes them. */
  function Frame(route: Route): (data: seq<byte>)
    requires 0 <= route.main < 16 && 0 <= route.sub < 4096
    ensures |data| == 2
    ensures ServerRoute(data) == Some(route)
  {
    var hi := route.main * 16 + route.sub / 256;
    var lo := route.sub % 256;
    HeaderDigits(route.main, route.sub, hi, lo);
    var b0 := ByteOf(hi);
    var b1 := ByteOf(lo);
    RouteUnique(ServerRoute([b0, b1]).value, route);
    [b0, b1]
  }

  /** The client's `onmessage` has no length check: `getUint16(0)` throws a RangeError. */
  datatype ClientRoute = Dispatch(route: Route) | RangeError

  function ClientRouteOf(data: seq<byte>): (r: ClientRoute)
    ensures r.RangeError? <==> |data| < 2
    ensures r.Dispatch? ==> ServerRoute(data) == Some(r.route)
  {
    if |data| < 2 then RangeError else Dispatch(RouteOf(data[0], data[1]))
  }
}
