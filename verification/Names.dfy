/** The names a server gives its connections. */
module Names {

  /** Connection ids are ints. */
  const INT_LIMIT: nat := 0x8000_0000
  const NAME_BUF: nat := 64

  function Digit(d: nat): char
    requires d < 10
  {
    '0' + d as char
  }

  /** printf's %d of a number that is not negative. */
  function Decimal(n: nat): string {
    if n < 10 then [Digit(n)] else Decimal(n / 10) + [Digit(n % 10)]
  }

  function DigitValue(c: char): nat {
    if '0' <= c <= '9' then (c - '0') as nat else 0
  }

  /** The number a string of digits stands for. */
  function Value(text: string): nat {
    if text == "" then 0 else 10 * Value(text[..|text| - 1]) + DigitValue(text[|text| - 1])
  }

  lemma {:induction false} DecimalReadsBack(n: nat)
    ensures Value(Decimal(n)) == n
  {
    if n < 10 {
      assert Value("") == 0;
      assert Decimal(n)[..0] == "";
    } else {
      var text := Decimal(n);
      assert text[..|text| - 1] == Decimal(n / 10);
      DecimalReadsBack(n / 10);
    }
  }

  function Power10(k: nat): nat {
    if k == 0 then 1 else 10 * Power10(k - 1)
  }

  lemma {:induction false} DecimalFits(n: nat, k: nat)
    requires 0 < k && n < Power10(k)
    ensures 0 < |Decimal(n)| <= k
  {
    if n >= 10 {
      DecimalFits(n / 10, k - 1);
    }
  }

  /** What snprintf leaves in a buffer of the size given. */
  function Snprintf(size: nat, text: string): string
    requires size > 0
  {
    if |text| < size then text else text[..size - 1]
  }

  datatype Address = Address(a: nat, b: nat, c: nat, d: nat, port: nat) {
    predicate Valid() {
      a < 256 && b < 256 && c < 256 && d < 256 && port < 65536
    }

    /** The dotted address, a colon and the port. */
    function ToIpPort(): string {
      Decimal(a) + "." + Decimal(b) + "." + Decimal(c) + "." + Decimal(d) + ":" + Decimal(port)
    }
  }

  lemma IpPortFits(address: Address)
    requires address.Valid()
    ensures |address.ToIpPort()| <= 21
  {
    assert Power10(3) == 1000 && Power10(5) == 100_000;
    DecimalFits(address.a, 3);
    DecimalFits(address.b, 3);
    DecimalFits(address.c, 3);
    DecimalFits(address.d, 3);
    DecimalFits(address.port, 5);
  }

  /** What newConnection prints into its buffer, before truncation. */
  function Suffix(ipPort: string, id: nat): string {
    "-" + ipPort + "#" + Decimal(id)
  }

  function ConnName(name: string, ipPort: string, id: nat): string {
    name + Snprintf(NAME_BUF, Suffix(ipPort, id))
  }

  lemma NothingIsCut(address: Address, id: nat)
    requires address.Valid() && id < INT_LIMIT
    ensures |Suffix(address.ToIpPort(), id)| <= 33
    ensures forall name :: ConnName(name, address.ToIpPort(), id)
                           == name + ("-" + address.ToIpPort() + "#" + Decimal(id))
  {
    IpPortFits(address);
    assert Power10(5) == 100_000;
    assert Power10(10) == 10_000_000_000;
    DecimalFits(id, 10);
  }

  /** A connection's name gives its id back, so no two ids share a name. */
  lemma NamesAreDistinct(name: string, address: Address, i: nat, j: nat)
    requires address.Valid() && i < INT_LIMIT && j < INT_LIMIT
    ensures ConnName(name, address.ToIpPort(), i) == ConnName(name, address.ToIpPort(), j) <==> i == j
  {
    NothingIsCut(address, i);
    NothingIsCut(address, j);
    var head := name + "-" + address.ToIpPort() + "#";
    var p, q := ConnName(name, address.ToIpPort(), i), ConnName(name, address.ToIpPort(), j);
    assert p == head + Decimal(i) && q == head + Decimal(j);
    assert p[|head|..] == Decimal(i) && q[|head|..] == Decimal(j);
    DecimalReadsBack(i);
    DecimalReadsBack(j);
  }

  /** The buffer is what the distinctness rests on: with an address text of 62
      characters or more the id would be cut off and every name be the same. */
  lemma LongAddressesCollide(name: string, ipPort: string, i: nat, j: nat)
    requires |ipPort| >= NAME_BUF - 2
    ensures ConnName(name, ipPort, i) == ConnName(name, ipPort, j)
  {
    var cut := ("-" + ipPort)[..NAME_BUF - 1];
    assert Suffix(ipPort, i)[..NAME_BUF - 1] == cut;
    assert Suffix(ipPort, j)[..NAME_BUF - 1] == cut;
  }

  lemma LoopbackPort()
    ensures Decimal(127) == "127" && Decimal(8000) == "8000"
  {
    assert Decimal(12) == "12";
    assert Decimal(80) == "80" && Decimal(800) == "800";
  }

  lemma LoopbackText()
    ensures Address(127, 0, 0, 1, 8000).ToIpPort() == "127.0.0.1:8000"
  {
    LoopbackPort();
    assert Decimal(0) == "0" && Decimal(1) == "1";
  }

  /** The second connection of an echo server on the loopback address. */
  lemma NameOfTheSecond()
    ensures ConnName("EchoServer", Address(127, 0, 0, 1, 8000).ToIpPort(), 2) == "EchoServer-127.0.0.1:8000#2"
  {
    LoopbackText();
    NothingIsCut(Address(127, 0, 0, 1, 8000), 2);
    assert Decimal(2) == "2";
  }
}
