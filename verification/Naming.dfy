/** The keys of TcpServer's connection map: the server name, the listening address and a
  * decimal number, the last two squeezed through a 64-byte `snprintf` buffer. */
module Naming {
  const NAME_BUFFER: nat := 64
  const INT_MAX: nat := 0x7FFF_FFFF

  function Digit(d: nat): char requires d < 10 { '0' + d as char }

  /** Decimal digits, as `%d` and `%u` print a non-negative number. */
  function Decimal(n: nat): (s: string)
    ensures |s| > 0
  {
    if n < 10 then [Digit(n)] else Decimal(n / 10) + [Digit(n % 10)]
  }

  function Parse(s: string): int
    decreases |s|
  {
    if s == [] then 0 else 10 * Parse(s[..|s| - 1]) + (s[|s| - 1] as int - '0' as int)
  }

  lemma {:induction false} ParseDecimal(n: nat)
    ensures Parse(Decimal(n)) == n
    decreases n
  {
    if n < 10 {
      assert [Digit(n)][..0] == [];
      assert Parse([]) == 0;
    } else {
      ParseDecimal(n / 10);
      var s := Decimal(n);
      assert s[..|s| - 1] == Decimal(n / 10);
    }
  }

  function PowerOfTen(k: nat): nat { if k == 0 then 1 else 10 * PowerOfTen(k - 1) }

  lemma {:induction false} DecimalLength(n: nat, k: nat)
    requires k > 0 && n < PowerOfTen(k)
    ensures |Decimal(n)| <= k
    decreases n
  {
    if n >= 10 { DecimalLength(n / 10, k - 1); }
  }

  /** InetAddress::toIpPort: four octets, then " : " and the port. */
  function IpPort(ip: (nat, nat, nat, nat), port: nat): string {
    Decimal(ip.0) + "." + Decimal(ip.1) + "." + Decimal(ip.2) + "." + Decimal(ip.3) + " : " + Decimal(port)
  }

  lemma IpPortLength(ip: (nat, nat, nat, nat), port: nat)
    requires ip.0 < 256 && ip.1 < 256 && ip.2 < 256 && ip.3 < 256 && port < 65536
    ensures |IpPort(ip, port)| <= 23
  {
    assert PowerOfTen(3) == 1000 && PowerOfTen(5) == 100000;
    DecimalLength(ip.0, 3);
    DecimalLength(ip.1, 3);
    DecimalLength(ip.2, 3);
    DecimalLength(ip.3, 3);
    DecimalLength(port, 5);
  }

  /** What is left in a buffer of `size` bytes, the terminating NUL aside. */
  function Snprintf(s: string, size: nat): string
    requires size > 0
  {
    if |s| < size then s else s[..size - 1]
  }

  function Suffix(ipPort: string, id: nat): string { "-" + ipPort + "$" + Decimal(id) }

  function ConnName(server: string, ipPort: string, id: nat): string {
    server + Snprintf(Suffix(ipPort, id), NAME_BUFFER)
  }

  /** The longest address text with which every id fits. */
  const LONGEST_ADDRESS: nat := 51

  lemma SuffixFits(ipPort: string, id: nat)
    requires id <= INT_MAX
    ensures |Suffix(ipPort, id)| <= |ipPort| + 12
    ensures |ipPort| <= LONGEST_ADDRESS ==> |Suffix(ipPort, id)| < NAME_BUFFER
  {
    assert PowerOfTen(5) == 100000 && PowerOfTen(10) == 100000 * PowerOfTen(5) by {
      assert PowerOfTen(8) == 1000 * PowerOfTen(5);
    }
    DecimalLength(id, 10);
  }

  /** No two connections of a server ever get the same key. */
  lemma NamesAreUnique(server: string, ipPort: string, i: nat, j: nat)
    requires |ipPort| <= LONGEST_ADDRESS && i <= INT_MAX && j <= INT_MAX
    ensures ConnName(server, ipPort, i) == ConnName(server, ipPort, j) <==> i == j
  {
    SuffixFits(ipPort, i);
    SuffixFits(ipPort, j);
    var head := server + ("-" + ipPort + "$");
    assert ConnName(server, ipPort, i) == head + Decimal(i) && ConnName(server, ipPort, j) == head + Decimal(j);
    if ConnName(server, ipPort, i) == ConnName(server, ipPort, j) {
      assert (head + Decimal(i))[|head|..] == Decimal(i) && (head + Decimal(j))[|head|..] == Decimal(j);
      ParseDecimal(i);
      ParseDecimal(j);
    }
  }

  /** With a longer address text the buffer cuts the last digit of some ids off. */
  lemma LongAddressesCollide(server: string, ipPort: string)
    requires |ipPort| > LONGEST_ADDRESS
    ensures ConnName(server, ipPort, 1000000000) == ConnName(server, ipPort, 1000000001)
    ensures |ipPort| >= NAME_BUFFER - 2 ==>
      forall i: nat, j: nat :: ConnName(server, ipPort, i) == ConnName(server, ipPort, j)
  {
    var i, j := 1000000000, 1000000001;
    assert Decimal(i) == Decimal(100000000) + "0" && Decimal(j) == Decimal(100000000) + "1";
    assert |Decimal(100000000)| == 9;
    var head := "-" + ipPort + "$" + Decimal(100000000);
    assert Suffix(ipPort, i) == head + "0" && Suffix(ipPort, j) == head + "1";
    assert Suffix(ipPort, i)[..NAME_BUFFER - 1] == head[..NAME_BUFFER - 1] == Suffix(ipPort, j)[..NAME_BUFFER - 1];
  }

  /** Exactly for which address texts all connections of a server have different names. */
  lemma NamesAreUniqueIff(server: string, ipPort: string)
    ensures |ipPort| <= LONGEST_ADDRESS <==>
      forall i: nat, j: nat ::
        i <= INT_MAX && j <= INT_MAX && ConnName(server, ipPort, i) == ConnName(server, ipPort, j) ==> i == j
  {
    if |ipPort| <= LONGEST_ADDRESS {
      forall i: nat, j: nat | i <= INT_MAX && j <= INT_MAX && ConnName(server, ipPort, i) == ConnName(server, ipPort, j)
        ensures i == j
      {
        NamesAreUnique(server, ipPort, i, j);
      }
    } else {
      LongAddressesCollide(server, ipPort);
    }
  }
}
