/** The display identifier `vvvv:pppp` that portInfo builds from a port's USB ids. */
module UsbId {
  import opened SerialTypes

  predicate IsHexDigit(c: char)
  {
    '0' <= c <= '9' || 'a' <= c <= 'f'
  }

  predicate IsHex(s: string)
  {
    forall i :: 0 <= i < |s| ==> IsHexDigit(s[i])
  }

  function DigitValue(c: char): (d: nat)
    requires IsHexDigit(c)
    ensures d < 16
  {
    if c <= '9' then c as int - '0' as int else c as int - 'a' as int + 10
  }

  /** The lowercase digit of value d, as Number.prototype.toString(16) writes it. */
  function HexDigit(d: nat): (c: char)
    requires d < 16
    ensures IsHexDigit(c) && DigitValue(c) == d
    ensures c != ':'
  {
    if d < 10 then ('0' as int + d) as char else ('a' as int + d - 10) as char
  }

  /** n.toString(16) for a non-negative integer: lowercase digits, no leading zero. */
  function ToHex(n: nat): (s: string)
    ensures |s| >= 1 && IsHex(s)
    ensures |s| > 1 ==> s[0] != '0'
  {
    if n < 16 then [HexDigit(n)] else ToHex(n / 16) + [HexDigit(n % 16)]
  }

  /** The value of a string of hex digits, most significant first; "" is 0. */
  function ParseHex(s: string): nat
    requires IsHex(s)
  {
    if s == [] then 0 else ParseHex(s[..|s| - 1]) * 16 + DigitValue(s[|s| - 1])
  }

  function Pow16(k: nat): (p: nat)
    ensures p >= 1
  {
    if k == 0 then 1 else 16 * Pow16(k - 1)
  }

  /** n copies of c. */
  function Repeat(c: char, n: nat): (r: string)
    ensures |r| == n
    ensures forall i :: 0 <= i < n ==> r[i] == c
  {
    if n == 0 then [] else [c] + Repeat(c, n - 1)
  }

  /** String.prototype.padStart(width, fill) with a one-character fill. */
  function PadStart(s: string, width: nat, fill: char): (r: string)
    ensures |r| == if |s| < width then width else |s|
    ensures r[|r| - |s|..] == s
    ensures forall i :: 0 <= i < |r| - |s| ==> r[i] == fill
  {
    if |s| >= width then s
    else
      var pad := Repeat(fill, width - |s|);
      assert (pad + s)[|pad|..] == s;
      pad + s
  }

  /** The usbId field of portInfo. */
  function UsbIdText(vendor: nat, product: nat): string
  {
    PadStart(ToHex(vendor), 4, '0') + ":" + PadStart(ToHex(product), 4, '0')
  }

  /** Index of the first c in s. */
  function IndexOf(s: string, c: char): (r: Option<nat>)
    ensures r.Some? ==> r.value < |s| && s[r.value] == c && forall j :: 0 <= j < r.value ==> s[j] != c
    ensures r.None? ==> forall j :: 0 <= j < |s| ==> s[j] != c
  {
    if s == [] then None
    else if s[0] == c then Some(0)
    else match IndexOf(s[1..], c)
      case None => None
      case Some(k) => Some(k + 1)
  }

  /** Reads a display id back into its vendor and product ids. */
  function ParseUsbId(s: string): Option<(nat, nat)>
  {
    match IndexOf(s, ':')
    case None => None
    case Some(k) =>
      var a, b := s[..k], s[k + 1..];
      if |a| > 0 && |b| > 0 && IsHex(a) && IsHex(b) then Some((ParseHex(a), ParseHex(b))) else None
  }

  /** The record portInfo returns. */
  datatype PortDisplay = PortDisplay(usbVendorId: nat, usbProductId: nat, usbId: string)

  /** portInfo(port) applied to port.getInfo(); a missing id makes `.toString` throw. */
  function PortInfo(info: UsbInfo): (r: Result<PortDisplay>)
    ensures r.Ok? <==> info.usbVendorId.Some? && info.usbProductId.Some?
    ensures r.Err? ==> r.error == TypeError
    ensures r.Ok? ==> (&& r.value.usbVendorId == info.usbVendorId.value
                       && r.value.usbProductId == info.usbProductId.value
                       && ParseUsbId(r.value.usbId) == Some((r.value.usbVendorId, r.value.usbProductId)))
    ensures r.Ok? && r.value.usbVendorId < 0x1_0000 && r.value.usbProductId < 0x1_0000 ==>
      var s := r.value.usbId;
      && |s| == 9 && s[4] == ':'
      && IsHex(s[..4]) && ParseHex(s[..4]) == r.value.usbVendorId
      && IsHex(s[5..]) && ParseHex(s[5..]) == r.value.usbProductId
  {
    match (info.usbVendorId, info.usbProductId)
    case (Some(v), Some(p)) =>
      UsbIdRoundTrip(v, p);
      if v < 0x1_0000 && p < 0x1_0000 then UsbIdShape(v, p); Ok(PortDisplay(v, p, UsbIdText(v, p)))
      else Ok(PortDisplay(v, p, UsbIdText(v, p)))
    case _ => Err(TypeError)
  }

  lemma {:induction false} ToHexRoundTrip(n: nat)
    ensures ParseHex(ToHex(n)) == n
  {
    if n >= 16 {
      var s := ToHex(n);
      assert s[..|s| - 1] == ToHex(n / 16);
      ToHexRoundTrip(n / 16);
    }
  }

  lemma {:induction false} ToHexLength(n: nat, k: nat)
    requires k >= 1 && n < Pow16(k)
    ensures |ToHex(n)| <= k
  {
    if n >= 16 {
      assert k >= 2;
      ToHexLength(n / 16, k - 1);
    }
  }

  lemma {:induction false} ParseHexLeadingZero(s: string)
    requires IsHex(s)
    ensures IsHex("0" + s) && ParseHex("0" + s) == ParseHex(s)
  {
    if s != [] {
      var t := "0" + s;
      assert t[..|t| - 1] == "0" + s[..|s| - 1];
      ParseHexLeadingZero(s[..|s| - 1]);
    }
  }

  lemma {:induction false} ParseHexZeros(s: string, k: nat)
    requires IsHex(s)
    ensures IsHex(Repeat('0', k) + s) && ParseHex(Repeat('0', k) + s) == ParseHex(s)
  {
    if k > 0 {
      ParseHexZeros(s, k - 1);
      assert Repeat('0', k) + s == "0" + (Repeat('0', k - 1) + s);
      ParseHexLeadingZero(Repeat('0', k - 1) + s);
    } else {
      assert Repeat('0', k) + s == s;
    }
  }

  lemma ParseHexPadded(s: string, width: nat)
    requires IsHex(s)
    ensures IsHex(PadStart(s, width, '0')) && ParseHex(PadStart(s, width, '0')) == ParseHex(s)
  {
    if |s| < width {
      ParseHexZeros(s, width - |s|);
    }
  }

  lemma {:induction false} IndexOfAfter(a: string, rest: string, c: char)
    requires rest != [] && rest[0] == c
    requires forall j :: 0 <= j < |a| ==> a[j] != c
    ensures IndexOf(a + rest, c) == Some(|a|)
  {
    if a != [] {
      assert (a + rest)[1..] == a[1..] + rest;
      IndexOfAfter(a[1..], rest, c);
    }
  }

  /** Two non-empty hex strings joined by ':' read back as their values. */
  lemma ParseJoined(a: string, b: string)
    requires |a| > 0 && |b| > 0 && IsHex(a) && IsHex(b)
    ensures ParseUsbId(a + ":" + b) == Some((ParseHex(a), ParseHex(b)))
  {
    var s := a + ":" + b;
    assert forall j :: 0 <= j < |a| ==> a[j] != ':';
    assert s == a + (":" + b);
    IndexOfAfter(a, ":" + b, ':');
    assert s[..|a|] == a;
    assert s[|a| + 1..] == b;
  }

  /** Reading the display id back gives the two ids, whatever their size. */
  lemma UsbIdRoundTrip(vendor: nat, product: nat)
    ensures ParseUsbId(UsbIdText(vendor, product)) == Some((vendor, product))
  {
    ParseHexPadded(ToHex(vendor), 4);
    ParseHexPadded(ToHex(product), 4);
    ToHexRoundTrip(vendor);
    ToHexRoundTrip(product);
    ParseJoined(PadStart(ToHex(vendor), 4, '0'), PadStart(ToHex(product), 4, '0'));
  }

  /** For 16-bit ids the display id is exactly four lowercase hex digits of each, split by ':'. */
  lemma UsbIdShape(vendor: nat, product: nat)
    requires vendor < 0x1_0000 && product < 0x1_0000
    ensures var s := UsbIdText(vendor, product);
      && |s| == 9 && s[4] == ':'
      && IsHex(s[..4]) && ParseHex(s[..4]) == vendor
      && IsHex(s[5..]) && ParseHex(s[5..]) == product
  {
    assert Pow16(4) == 0x1_0000;
    ToHexLength(vendor, 4);
    ToHexLength(product, 4);
    var a, b := PadStart(ToHex(vendor), 4, '0'), PadStart(ToHex(product), 4, '0');
    var s := a + ":" + b;
    ParseHexPadded(ToHex(vendor), 4);
    ParseHexPadded(ToHex(product), 4);
    ToHexRoundTrip(vendor);
    ToHexRoundTrip(product);
    assert s[..4] == a;
    assert s[5..] == b;
  }

  /** Two different id pairs never share a display id. */
  lemma UsbIdInjective(v1: nat, p1: nat, v2: nat, p2: nat)
    requires UsbIdText(v1, p1) == UsbIdText(v2, p2)
    ensures v1 == v2 && p1 == p2
  {
    UsbIdRoundTrip(v1, p1);
    UsbIdRoundTrip(v2, p2);
  }

  lemma VendorHexExample()
    ensures ToHex(0x10C4) == "10c4"
  {
    assert HexDigit(1) == '1' && HexDigit(0) == '0' && HexDigit(12) == 'c' && HexDigit(4) == '4';
    assert ToHex(0x1) == "1";
    assert ToHex(0x10) == "10";
    assert ToHex(0x10C) == "10c";
  }

  lemma ProductHexExample()
    ensures ToHex(0xEA60) == "ea60"
  {
    assert HexDigit(14) == 'e' && HexDigit(10) == 'a' && HexDigit(6) == '6' && HexDigit(0) == '0';
    assert ToHex(0xE) == "e";
    assert ToHex(0xEA) == "ea";
    assert ToHex(0xEA6) == "ea6";
  }

  /** The example of the CP210x bridge: vendor 0x10C4, product 0xEA60. */
  lemma UsbIdExample()
    ensures UsbIdText(0x10C4, 0xEA60) == "10c4:ea60"
  {
    VendorHexExample();
    ProductHexExample();
    var v, p := ToHex(0x10C4), ToHex(0xEA60);
    assert PadStart(v, 4, '0') == v;
    assert PadStart(p, 4, '0') == p;
    assert UsbIdText(0x10C4, 0xEA60) == v + ":" + p;
  }
}
