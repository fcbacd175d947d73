/** Fixed-width unsigned integers as bytes, in both byte orders. */
module ByteCodec {

  type Byte = b: int | 0 <= b < 256

  function Power(width: nat): nat
    ensures Power(width) > 0
  {
    if width == 0 then 1 else 256 * Power(width - 1)
  }

  function Big(n: nat, width: nat): (s: seq<Byte>)
    ensures |s| == width
  {
    if width == 0 then [] else Big(n / 256, width - 1) + [n % 256]
  }

  function FromBig(s: seq<Byte>): nat {
    if s == [] then 0 else FromBig(s[..|s| - 1]) * 256 + s[|s| - 1]
  }

  function Little(n: nat, width: nat): (s: seq<Byte>)
    ensures |s| == width
  {
    if width == 0 then [] else [n % 256] + Little(n / 256, width - 1)
  }

  function FromLittle(s: seq<Byte>): nat {
    if s == [] then 0 else s[0] + 256 * FromLittle(s[1..])
  }

  lemma {:induction false} BigRoundTrip(n: nat, width: nat)
    requires n < Power(width)
    ensures FromBig(Big(n, width)) == n
  {
    if width > 0 {
      BigRoundTrip(n / 256, width - 1);
      var s := Big(n, width);
      assert s[..|s| - 1] == Big(n / 256, width - 1);
    }
  }

  lemma {:induction false} LittleRoundTrip(n: nat, width: nat)
    requires n < Power(width)
    ensures FromLittle(Little(n, width)) == n
  {
    if width > 0 {
      LittleRoundTrip(n / 256, width - 1);
      assert Little(n, width)[1..] == Little(n / 256, width - 1);
    }
  }
}
