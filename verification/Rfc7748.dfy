/** X25519 as section 5 of RFC 7748 defines it: the Montgomery ladder over the integers modulo
    2^255 - 19, on little-endian byte strings. */
module Rfc7748 {
  import opened Arith
  import opened TwosComplement

  const TWO255: int := 0x8000_0000_0000_0000_0000_0000_0000_0000_0000_0000_0000_0000_0000_0000_0000_0000
  const P: int := TWO255 - 19

  /** The element of the field that an integer stands for. */
  function Mod(x: int): int {
    x % P
  }

  function LittleEndian(b: seq<int>): int {
    if b == [] then 0 else b[0] + 256 * LittleEndian(b[1..])
  }

  /** The three least significant bits cleared, the top bit cleared, the one below it set. */
  function Clamp(k: seq<Byte>): seq<Byte>
    requires |k| == 32
  {
    k[0 := k[0] - k[0] % 8][31 := k[31] % 64 + 64]
  }

  function DecodeScalar(k: seq<Byte>): int
    requires |k| == 32
  {
    LittleEndian(Clamp(k))
  }

  /** The unused top bit is masked. */
  function DecodeU(u: seq<Byte>): int
    requires |u| == 32
  {
    LittleEndian(u) % TWO255
  }

  datatype Points = Points(x2: int, z2: int, x3: int, z3: int)

  function Swapped(swap: bool, s: Points): Points {
    if swap then Points(s.x3, s.z3, s.x2, s.z2) else s
  }

  /** One step of the ladder: doubling (x2 : z2) and adding it to (x3 : z3). */
  function Step(x1: int, s: Points): Points {
    var A := s.x2 + s.z2;
    var AA := A * A;
    var B := s.x2 - s.z2;
    var BB := B * B;
    var E := AA - BB;
    var C := s.x3 + s.z3;
    var D := s.x3 - s.z3;
    var DA := D * A;
    var CB := C * B;
    Points(Mod(AA * BB),
           Mod(E * (AA + 121665 * E)),
           Mod((DA + CB) * (DA + CB)),
           Mod(x1 * ((DA - CB) * (DA - CB))))
  }

  function Bit(k: int, t: nat): bool {
    (k / Two(t)) % 2 == 1
  }

  datatype Rung = Rung(points: Points, swap: bool)

  /** The state after the bits 254 down to 255 - n, the last swap still pending. */
  function Ladder(k: int, u: int, n: nat): Rung
    requires n <= 255
  {
    if n == 0 then
      Rung(Points(1, 0, u, 1), false)
    else
      var r := Ladder(k, u, n - 1);
      var bit := Bit(k, 255 - n);
      Rung(Step(u, Swapped(r.swap != bit, r.points)), bit)
  }

  function X25519(scalar: seq<Byte>, u: seq<Byte>): int
    requires |scalar| == |u| == 32
  {
    var r := Ladder(DecodeScalar(scalar), DecodeU(u), 255);
    var s := Swapped(r.swap, r.points);
    Mod(s.x2 * Power(s.z2, P - 2))
  }
}
