/**
 Addresses in text form. IPv4 is spelled out; the IPv6 half of the parser, the
 IPv6 printer and the internal-network lookup are library code and parameters here.
 */
module Address {
  import opened Text

  type Octet = n: nat | n < 256

  datatype IpAddr = V4(a: Octet, b: Octet, c: Octet, d: Octet) | V6(groups: seq<nat>)

  /** The library: internal(ip) is None when the lookup itself fails. */
  datatype Net = Net(
    parseV6: string -> Option<IpAddr>,
    showV6: seq<nat> -> string,
    internal: IpAddr -> Option<bool>)

  /** One to three digits below 256, no leading zero. */
  function ParseOctet(s: string): Option<Octet> {
    if s == "" || |s| > 3 || !AllDigits(s) || (|s| > 1 && s[0] == '0') || ValueOf(s) >= 256 then None
    else Some(ValueOf(s))
  }

  function ParseV4(s: string): Option<IpAddr> {
    var f := Split(s, '.');
    if |f| != 4 then None
    else
      match (ParseOctet(f[0]), ParseOctet(f[1]), ParseOctet(f[2]), ParseOctet(f[3]))
      case (Some(a), Some(b), Some(c), Some(d)) => Some(V4(a, b, c, d))
      case _ => None
  }

  /** The first separator in s decides which grammar applies. */
  function FirstMark(s: string): Option<char> {
    if s == "" then None
    else if s[0] == '.' || s[0] == ':' || s[0] == '%' then Some(s[0])
    else FirstMark(s[1..])
  }

  function ParseIP(net: Net, s: string): Option<IpAddr> {
    match FirstMark(s)
    case Some(mark) => if mark == '.' then ParseV4(s) else if mark == ':' then net.parseV6(s) else None
    case None => None
  }

  function ShowIP(net: Net, ip: IpAddr): string {
    match ip
    case V4(a, b, c, d) => ShowV4(a, b, c, d)
    case V6(groups) => net.showV6(groups)
  }

  function ShowV4(a: Octet, b: Octet, c: Octet, d: Octet): string {
    Join([PrintNat(a), PrintNat(b), PrintNat(c), PrintNat(d)], '.')
  }

  lemma OctetRoundTrip(n: Octet)
    ensures ParseOctet(PrintNat(n)) == Some(n)
  {
    ValueOfPrintNat(n);
    if n >= 10 {
      assert PrintNat(n) == PrintNat(n / 10) + [DigitChar(n % 10)];
      if n >= 100 {
        assert PrintNat(n / 10) == PrintNat(n / 100) + [DigitChar(n / 10 % 10)];
      }
    }
  }

  /** Exactly the printed form of an IPv4 address is read as that address. */
  lemma ParseV4Exactly(s: string, a: Octet, b: Octet, c: Octet, d: Octet)
    ensures ParseV4(s) == Some(V4(a, b, c, d)) <==>
            s == PrintNat(a) + "." + PrintNat(b) + "." + PrintNat(c) + "." + PrintNat(d)
    ensures ParseV4(s).Some? ==>
              var ip := ParseV4(s).value;
              ip.V4? && ip.a <= 255 && ip.b <= 255 && ip.c <= 255 && ip.d <= 255
    ensures a <= 255 && b <= 255 && c <= 255 && d <= 255
  {
    hide Split, Join, PrintNat, ParseOctet;
    var printed := [PrintNat(a), PrintNat(b), PrintNat(c), PrintNat(d)];
    JoinFour(printed[0], printed[1], printed[2], printed[3]);
    OctetExactly(printed[0], a);
    OctetExactly(printed[1], b);
    OctetExactly(printed[2], c);
    OctetExactly(printed[3], d);
    SplitJoin(printed, '.');
    if ParseV4(s) == Some(V4(a, b, c, d)) {
      var f := Split(s, '.');
      OctetExactly(f[0], a);
      OctetExactly(f[1], b);
      OctetExactly(f[2], c);
      OctetExactly(f[3], d);
      assert f == printed;
      JoinSplit(s, '.');
    }
  }

  lemma JoinFour(a: string, b: string, c: string, d: string)
    ensures Join([a, b, c, d], '.') == a + "." + b + "." + c + "." + d
  {
    var fields := [a, b, c, d];
    assert Join(fields, '.') == a + ['.'] + Join(fields[1..], '.');
    assert Join(fields[1..], '.') == b + ['.'] + Join(fields[1..][1..], '.');
    assert Join(fields[1..][1..], '.') == c + ['.'] + d;
  }

  lemma OctetExactly(s: string, n: Octet)
    ensures ParseOctet(s) == Some(n) <==> s == PrintNat(n)
    ensures '.' !in PrintNat(n)
  {
    PrintNatExactly(s, n);
    OctetRoundTrip(n);
  }

  /** An IPv4 address is shown as its four numbers, and read back from there; an IPv6 address as the library does. */
  lemma ShowIPExactly(net: Net, ip: IpAddr)
    ensures ip.V4? ==>
              ShowIP(net, ip) == PrintNat(ip.a) + "." + PrintNat(ip.b) + "." + PrintNat(ip.c) + "." + PrintNat(ip.d)
    ensures ip.V6? ==> ShowIP(net, ip) == net.showV6(ip.groups)
  {
    hide Join, PrintNat;
    if ip.V4? {
      JoinFour(PrintNat(ip.a), PrintNat(ip.b), PrintNat(ip.c), PrintNat(ip.d));
    }
  }

  /** Which grammar an address is read by: the first dot, colon or percent sign decides. */
  lemma {:induction false} ParseIPByMark(net: Net, s: string, i: nat)
    requires i <= |s| && forall j | 0 <= j < i :: s[j] != '.' && s[j] != ':' && s[j] != '%'
    ensures i == |s| ==> ParseIP(net, s) == None
    ensures i < |s| && s[i] == '.' ==> ParseIP(net, s) == ParseV4(s)
    ensures i < |s| && s[i] == ':' ==> ParseIP(net, s) == net.parseV6(s)
    ensures i < |s| && s[i] == '%' ==> ParseIP(net, s) == None
  {
    hide ParseV4;
    FirstMarkAt(s, i);
  }

  lemma {:induction false} FirstMarkAt(s: string, i: nat)
    requires i <= |s| && forall j | 0 <= j < i :: s[j] != '.' && s[j] != ':' && s[j] != '%'
    ensures i == |s| ==> FirstMark(s) == None
    ensures i < |s| && (s[i] == '.' || s[i] == ':' || s[i] == '%') ==> FirstMark(s) == Some(s[i])
  {
    if i > 0 {
      FirstMarkAt(s[1..], i - 1);
    }
  }

  lemma {:induction false} FirstMarkAfterDigits(digits: string, rest: string)
    requires AllDigits(digits)
    ensures FirstMark(digits + ['.'] + rest) == Some('.')
  {
    var s := digits + ['.'] + rest;
    if digits == "" {
    } else {
      FirstMarkAfterDigits(digits[1..], rest);
      assert s[1..] == digits[1..] + ['.'] + rest;
      assert IsDigit(digits[0]);
    }
  }

  /** Printing an IPv4 address and parsing it again gives the address back. */
  lemma ParseShowV4(net: Net, ip: IpAddr)
    requires ip.V4?
    ensures ParseIP(net, ShowIP(net, ip)) == Some(ip)
    ensures forall c | c in ShowIP(net, ip) :: IsDigit(c) || c == '.'
  {
    var V4(a, b, c, d) := ip;
    var fields := [PrintNat(a), PrintNat(b), PrintNat(c), PrintNat(d)];
    SplitJoin(fields, '.');
    OctetRoundTrip(a);
    OctetRoundTrip(b);
    OctetRoundTrip(c);
    OctetRoundTrip(d);
    assert Join(fields, '.') == fields[0] + ['.'] + Join(fields[1..], '.');
    assert Join(fields[1..], '.') == fields[1] + ['.'] + Join(fields[1..][1..], '.');
    assert Join(fields[1..][1..], '.') == fields[2] + ['.'] + fields[3];
    FirstMarkAfterDigits(fields[0], Join(fields[1..], '.'));
  }
}
