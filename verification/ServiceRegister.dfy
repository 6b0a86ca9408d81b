/** The service register: names of service instances, the cached instance lists, and round-robin selection. */
module ServiceRegister {
  import opened Arithmetic
  import opened RpcTypes

  datatype ServiceId = ServiceId(address: nat, port: nat)

  datatype Instance = Instance(id: ServiceId, version: string)

  const PORTS: nat := 0x1_0000
  const COUNTERS: nat := 0x1_0000_0000_0000_0000  // values of size_t, and of unsigned long

  // ---------------------------------------------------------------- node names

  /** string::find of one character: its first place, or the length. */
  function Find(s: string, c: char): (i: nat)
    ensures i <= |s| && (i < |s| ==> s[i] == c)
    ensures forall k :: 0 <= k < i ==> s[k] != c
  {
    if s == "" || s[0] == c then 0 else 1 + Find(s[1..], c)
  }

  predicate IsDigit(c: char) { '0' <= c <= '9' }

  /** The value of a digit of any base up to 16. */
  function DigitValue(c: char): (v: nat)
    ensures IsDigit(c) ==> v == c as nat - '0' as nat
  {
    if IsDigit(c) then c as nat - '0' as nat
    else if 'a' <= c <= 'f' then c as nat - 'a' as nat + 10
    else if 'A' <= c <= 'F' then c as nat - 'A' as nat + 10
    else 16
  }

  /** The leading digits of `s` in this base, after `acc`. */
  function Digits(s: string, base: nat, acc: nat): nat
    decreases |s|
  {
    if s == "" || DigitValue(s[0]) >= base then acc else Digits(s[1..], base, acc * base + DigitValue(s[0]))
  }

  function SkipSpace(s: string): string
    decreases |s|
  {
    if s != "" && s[0] in {' ', '\t', '\n', '\r', '\U{0b}', '\U{0c}'} then SkipSpace(s[1..]) else s
  }

  /** `strtoul` with base 0: 0x introduces hexadecimal, another leading 0 octal; too large a number is clamped. */
  function Strtoul(s: string): nat {
    var t := SkipSpace(s);
    var negative := t != "" && t[0] == '-';
    var u := if t != "" && (t[0] == '-' || t[0] == '+') then t[1..] else t;
    var n := if |u| > 2 && u[0] == '0' && u[1] in {'x', 'X'} && DigitValue(u[2]) < 16 then Digits(u[2..], 16, 0)
             else if u != "" && u[0] == '0' then Digits(u, 8, 0)
             else Digits(u, 10, 0);
    if n >= COUNTERS then COUNTERS - 1 else if negative && n > 0 then COUNTERS - n else n
  }

  /** str_to_service_id; `resolve` stands for address::from_string. */
  function StrToServiceId(resolve: string -> nat, endpoint: string): Option<ServiceId> {
    var sep := Find(endpoint, ':');
    if sep == |endpoint| then None
    else Some(ServiceId(resolve(endpoint[..sep]), Strtoul(endpoint[sep + 1..]) % PORTS))
  }

  /** service_version_of. */
  function ServiceVersionOf(endpoint: string): string {
    var sep := Find(endpoint, '#');
    if sep == |endpoint| then "" else endpoint[sep + 1..]
  }

  function Decimal(n: nat): (s: string)
    ensures s != "" && forall i :: 0 <= i < |s| ==> IsDigit(s[i])
  {
    var d := ['0' + (n % 10) as char];
    if n < 10 then d else Decimal(n / 10) + d
  }

  function SignedDecimal(i: int): string {
    if i < 0 then "-" + Decimal(-i) else Decimal(i)
  }

  /** The node created for an instance; the endpoint is the text that the caller of register_service passed. */
  function NodeName(endpoint: string, session: int, version: string): string {
    endpoint + "@" + SignedDecimal(session) + "#" + version
  }

  /** What decimal digits stand for. */
  function DecimalValue(digits: string): nat { Digits(digits, 10, 0) }

  predicate AllDigits(s: string) { forall i :: 0 <= i < |s| ==> IsDigit(s[i]) }

  lemma {:induction false} DigitsOfConcat(s: string, rest: string, base: nat, acc: nat)
    requires forall i :: 0 <= i < |s| ==> DigitValue(s[i]) < base
    ensures Digits(s + rest, base, acc) == Digits(rest, base, Digits(s, base, acc))
    decreases |s|
  {
    if s == "" {
      assert s + rest == rest;
    } else {
      assert (s + rest)[1..] == s[1..] + rest;
      DigitsOfConcat(s[1..], rest, base, acc * base + DigitValue(s[0]));
    }
  }

  lemma {:induction false} DigitsOfDecimal(n: nat, rest: string)
    requires rest == "" || DigitValue(rest[0]) >= 10
    ensures Digits(Decimal(n) + rest, 10, 0) == n
    decreases n
  {
    var d := ['0' + (n % 10) as char];
    assert Digits(d + rest, 10, n / 10) == n by {
      assert (d + rest)[1..] == rest;
    }
    if n < 10 {
      assert Decimal(n) == d;
    } else {
      DigitsOfDecimal(n / 10, "");
      assert Decimal(n / 10) + "" == Decimal(n / 10);
      DigitsOfConcat(Decimal(n / 10), d + rest, 10, 0);
      assert Decimal(n) + rest == Decimal(n / 10) + (d + rest);
    }
  }

  lemma {:induction false} NoLeadingZero(n: nat)
    ensures n > 0 ==> Decimal(n)[0] != '0'
    decreases n
  {
    if n >= 10 {
      NoLeadingZero(n / 10);
    }
  }

  lemma {:induction false} MoreDigits(s: string, acc: nat)
    requires AllDigits(s)
    ensures Digits(s, 10, acc) >= acc
    ensures s != "" ==> Digits(s, 10, acc) >= 10 * acc
    decreases |s|
  {
    if s != "" {
      MoreDigits(s[1..], acc * 10 + DigitValue(s[0]));
    }
  }

  /** Once a digit other than 0 has been read, every further digit makes the octal value fall behind. */
  lemma {:induction false} OctalFallsBehind(s: string, tail: string, a: nat, b: nat)
    requires AllDigits(s) && (tail == "" || DigitValue(tail[0]) >= 10) && a <= b
    requires a < b || (s != "" && b > 0)
    ensures Digits(s + tail, 8, a) < Digits(s, 10, b)
    decreases |s|
  {
    if s == "" {
      assert s + tail == tail;
    } else {
      var d := DigitValue(s[0]);
      assert (s + tail)[0] == s[0] && (s + tail)[1..] == s[1..] + tail;
      if d >= 8 {
        MoreDigits(s[1..], b * 10 + d);
      } else {
        OctalFallsBehind(s[1..], tail, a * 8 + d, b * 10 + d);
      }
    }
  }

  /** Digits read as octal give their decimal value only if that is below 8. */
  lemma {:induction false} OctalIffSmall(s: string, tail: string)
    requires AllDigits(s) && (tail == "" || DigitValue(tail[0]) >= 10)
    ensures Digits(s + tail, 8, 0) <= DecimalValue(s)
    ensures Digits(s + tail, 8, 0) == DecimalValue(s) <==> DecimalValue(s) < 8
    decreases |s|
  {
    if s == "" {
      assert s + tail == tail;
    } else {
      var d := DigitValue(s[0]);
      assert (s + tail)[0] == s[0] && (s + tail)[1..] == s[1..] + tail;
      if d == 0 {
        OctalIffSmall(s[1..], tail);
      } else if d >= 8 {
        MoreDigits(s[1..], d);
      } else if |s| == 1 {
        assert s[1..] == "" && s[1..] + tail == tail;
        assert Digits(tail, 8, d) == d && Digits(s[1..], 10, d) == d;
      } else {
        OctalFallsBehind(s[1..], tail, d, d);
        MoreDigits(s[1..], d);
      }
    }
  }

  /** The number that strtoul makes of a port text and what follows it. */
  lemma StrtoulOfDigits(d: string, rest: string)
    requires d != "" && AllDigits(d) && DecimalValue(d) < PORTS
    ensures Strtoul(d + "@" + rest) <= DecimalValue(d)
    ensures Strtoul(d + "@" + rest) == DecimalValue(d) <==> d[0] != '0' || DecimalValue(d) < 8
  {
    var s := d + "@" + rest;
    var tail := "@" + rest;
    assert s == d + tail && s[0] == d[0] && IsDigit(s[0]);
    assert |d| > 1 ==> s[1] == d[1] && IsDigit(d[1]);
    assert |d| == 1 ==> s[1] == '@';
    DigitsOfConcat(d, tail, 10, 0);
    OctalIffSmall(d, tail);
  }

  lemma {:induction false} FindAfter(s: string, c: char, rest: string)
    requires c !in s
    ensures Find(s + [c] + rest, c) == |s|
  {
    var t := s + [c] + rest;
    assert t[|s|] == c;
    assert forall k :: 0 <= k < |s| ==> t[k] == s[k] && t[k] in s;
  }

  lemma AfterColon(resolve: string -> nat, ip: string, tail: string)
    requires ':' !in ip
    ensures StrToServiceId(resolve, ip + ":" + tail) == Some(ServiceId(resolve(ip), Strtoul(tail) % PORTS))
  {
    hide Strtoul;
    FindAfter(ip, ':', tail);
    var node := ip + [':'] + tail;
    assert node[..|ip|] == ip && node[|ip| + 1..] == tail;
  }

  lemma EndpointOf(resolve: string -> nat, ip: string, digits: string, rest: string)
    requires ':' !in ip
    ensures StrToServiceId(resolve, ip + ":" + digits + "@" + rest)
            == Some(ServiceId(resolve(ip), Strtoul(digits + "@" + rest) % PORTS))
  {
    hide Strtoul, StrToServiceId;
    AfterColon(resolve, ip, digits + "@" + rest);
    Regroup(ip + ":", digits, "@", rest);
  }

  /**
   * A port given as decimal digits is discovered as registered if and only if the text has no leading 0 or the port
   * is below 8; any other text is taken for octal, and a different port is discovered.
   */
  lemma PortTextRoundTrip(resolve: string -> nat, ip: string, d: string, rest: string)
    requires ':' !in ip && d != "" && AllDigits(d) && DecimalValue(d) < PORTS
    ensures StrToServiceId(resolve, ip + ":" + d + "@" + rest) == Some(ServiceId(resolve(ip), DecimalValue(d)))
            <==> d[0] != '0' || DecimalValue(d) < 8
  {
    hide Strtoul, StrToServiceId, DecimalValue;
    StrtoulOfDigits(d, rest);
    EndpointOf(resolve, ip, d, rest);
  }

  lemma VersionRoundTrip(head: string, version: string)
    requires '#' !in head
    ensures ServiceVersionOf(head + "#" + version) == version
  {
    assert head + "#" + version == head + ['#'] + version;
    FindAfter(head, '#', version);
    assert (head + "#" + version)[|head| + 1..] == version;
  }

  /**
   * What is registered is discovered: a node name gives back its version, for every session and version text, and
   * its address and port exactly when the port text has no leading 0 or the port is below 8.
   */
  lemma NodeNameRoundTrip(resolve: string -> nat, ip: string, d: string, session: int, version: string)
    requires ':' !in ip && '#' !in ip && d != "" && AllDigits(d) && DecimalValue(d) < PORTS
    ensures var node := NodeName(ip + ":" + d, session, version);
            && ServiceVersionOf(node) == version
            && (StrToServiceId(resolve, node) == Some(ServiceId(resolve(ip), DecimalValue(d)))
                <==> d[0] != '0' || DecimalValue(d) < 8)
  {
    var endpoint := ip + ":" + d + "@";
    NoHash(ip, d, session);
    PortTextRoundTrip(resolve, ip, d, SignedDecimal(session) + "#" + version);
    VersionRoundTrip(endpoint + SignedDecimal(session), version);
    Regroup(endpoint, SignedDecimal(session), "#", version);
    hide SignedDecimal, StrToServiceId, ServiceVersionOf, DecimalValue;
  }

  /** A port printed as usual always comes back. */
  lemma PrintedPortRoundTrip(resolve: string -> nat, ip: string, port: nat, session: int, version: string)
    requires ':' !in ip && '#' !in ip && port < PORTS
    ensures StrToServiceId(resolve, NodeName(ip + ":" + Decimal(port), session, version))
            == Some(ServiceId(resolve(ip), port))
  {
    var d := Decimal(port);
    DigitsOfDecimal(port, "");
    assert d + "" == d;
    NoLeadingZero(port);
    NodeNameRoundTrip(resolve, ip, d, session, version);
  }

  lemma NoHash(ip: string, d: string, session: int)
    requires '#' !in ip && AllDigits(d)
    ensures '#' !in ip + ":" + d + "@" + SignedDecimal(session)
  {
    assert '#' !in d && '#' !in SignedDecimal(session);
    hide SignedDecimal;
  }

  lemma Regroup(a: string, b: string, c: string, d: string)
    ensures a + b + c + d == a + (b + c + d)
  {
  }

  /** Each session has a node of its own, even for one endpoint and version. */
  lemma SessionsApart(endpoint: string, session: int, other: int, version: string)
    ensures NodeName(endpoint, session, version) == NodeName(endpoint, other, version) <==> session == other
    ensures endpoint + "@" <= NodeName(endpoint, session, version)
  {
    hide SignedDecimal;
    if NodeName(endpoint, session, version) == NodeName(endpoint, other, version) {
      var a, b := SignedDecimal(session) + "#" + version, SignedDecimal(other) + "#" + version;
      assert NodeName(endpoint, session, version)[|endpoint| + 1..] == a;
      assert NodeName(endpoint, other, version)[|endpoint| + 1..] == b;
      assert a[..|a| - |version| - 1] == SignedDecimal(session);
      assert b[..|b| - |version| - 1] == SignedDecimal(other);
      NumbersApart(session, other);
    }
  }

  lemma NumbersApart(i: int, j: int)
    requires SignedDecimal(i) == SignedDecimal(j)
    ensures i == j
  {
    var (m, n) := (if i < 0 then -i else i, if j < 0 then -j else j);
    DigitsOfDecimal(m, "");
    DigitsOfDecimal(n, "");
    assert Decimal(m) + "" == Decimal(m) && Decimal(n) + "" == Decimal(n);
    if i < 0 { assert SignedDecimal(i)[1..] == Decimal(m); }
    if j < 0 { assert SignedDecimal(j)[1..] == Decimal(n); }
  }

  /** Each further digit counts once, the ones before it a base more. */
  lemma {:induction false} DigitsPositional(s: string, c: char, base: nat)
    requires DigitValue(c) < base && forall i :: 0 <= i < |s| ==> DigitValue(s[i]) < base
    ensures Digits("", base, 0) == 0
    ensures Digits(s + [c], base, 0) == Digits(s, base, 0) * base + DigitValue(c)
  {
    DigitsOfConcat(s, [c], base, 0);
    assert Digits([c][1..], base, Digits(s, base, 0) * base + DigitValue(c))
        == Digits(s, base, 0) * base + DigitValue(c);
  }

  /** What strtoul makes of numbers: spaces, a sign, hexadecimal, octal, no number at all. */
  lemma StrtoulTexts()
    ensures Strtoul("80@5#v1") == 80 && Strtoul("+80") == 80 && Strtoul(" \t80") == 80
    ensures Strtoul("0x1F@5") == 31 && Strtoul("0Xa") == 10 && Strtoul("0xg") == 0
    ensures Strtoul("017:9") == 15 && Strtoul("08") == 0 && Strtoul("") == 0 && Strtoul("x") == 0
  {
    StrtoulDecimals();
    StrtoulHexadecimals();
    StrtoulOctals();
  }

  lemma StrtoulDecimals()
    ensures Strtoul("80@5#v1") == 80 && Strtoul("+80") == 80 && Strtoul(" \t80") == 80
  {
    assert "80@5#v1"[1..] == "0@5#v1" && "0@5#v1"[1..] == "@5#v1" && "80"[1..] == "0" && "0"[1..] == "";
    assert "+80"[1..] == "80" && " \t80"[1..] == "\t80" && "\t80"[1..] == "80";
  }

  lemma StrtoulHexadecimals()
    ensures Strtoul("0x1F@5") == 31 && Strtoul("0Xa") == 10 && Strtoul("0xg") == 0
  {
    assert "0x1F@5"[2..] == "1F@5" && "1F@5"[1..] == "F@5" && "F@5"[1..] == "@5";
    assert "0Xa"[2..] == "a" && "a"[1..] == "" && "0xg"[1..] == "xg";
  }

  lemma StrtoulOctals()
    ensures Strtoul("017:9") == 15 && Strtoul("08") == 0 && Strtoul("") == 0 && Strtoul("x") == 0
  {
    assert "017:9"[1..] == "17:9" && "17:9"[1..] == "7:9" && "7:9"[1..] == ":9" && "08"[1..] == "8";
  }

  /** The digits of the bases up to 16, in both cases of letters, and nothing else. */
  lemma DigitValues(c: char, v: nat)
    requires v < 16
    ensures DigitValue(c) == v <==> c == "0123456789abcdef"[v] || c == "0123456789ABCDEF"[v]
  {
  }

  /** A number ends before the first character that is no digit of its base. */
  lemma DigitsEnd(d: string, rest: string, base: nat)
    requires forall i :: 0 <= i < |d| ==> DigitValue(d[i]) < base
    requires rest == "" || DigitValue(rest[0]) >= base
    ensures Digits(d + rest, base, 0) == Digits(d, base, 0)
  {
    DigitsOfConcat(d, rest, base, 0);
  }

  /** A number after 0x is hexadecimal, whatever follows it. */
  lemma StrtoulAfterX(x: char, d: string, rest: string)
    requires x in {'x', 'X'} && d != "" && (rest == "" || DigitValue(rest[0]) >= 16)
    requires (forall i :: 0 <= i < |d| ==> DigitValue(d[i]) < 16) && Digits(d, 16, 0) <= 18446744073709551615
    ensures Strtoul(['0', x] + d + rest) == Digits(d, 16, 0)
  {
    hide DigitValue, Digits, Strtoul;
    var s := ['0', x] + d + rest;
    DigitsEnd(d, rest, 16);
    assert s[2..] == d + rest && s[0] == '0' && s[1] == x && s[2] == d[0];
    Hexadecimal(s);
  }

  lemma Hexadecimal(s: string)
    requires |s| > 2 && s[0] == '0' && s[1] in {'x', 'X'} && DigitValue(s[2]) < 16
    requires Digits(s[2..], 16, 0) <= 18446744073709551615
    ensures Strtoul(s) == Digits(s[2..], 16, 0)
  {
    assert SkipSpace(s) == s;
    hide DigitValue, Digits, SkipSpace;
  }

  /** Another number after a 0 is octal. */
  lemma StrtoulAfterZero(d: string, rest: string)
    requires d != "" && (rest == "" || DigitValue(rest[0]) >= 8)
    requires (forall i :: 0 <= i < |d| ==> DigitValue(d[i]) < 8) && Digits(d, 8, 0) <= 18446744073709551615
    ensures Strtoul("0" + d + rest) == Digits(d, 8, 0)
  {
    hide DigitValue, Digits, Strtoul;
    var s := "0" + d + rest;
    XIsNoDigit(d[0]);
    DigitsEnd(d, rest, 8);
    assert s[1..] == d + rest && s[0] == '0' && s[1] == d[0];
    Octal(s);
  }

  lemma XIsNoDigit(c: char)
    ensures c in {'x', 'X'} ==> DigitValue(c) == 16
  {
  }

  lemma Octal(s: string)
    requires |s| > 1 && s[0] == '0' && s[1] !in {'x', 'X'} && Digits(s[1..], 8, 0) <= 18446744073709551615
    ensures Strtoul(s) == Digits(s[1..], 8, 0)
  {
    assert SkipSpace(s) == s && Digits(s, 8, 0) == Digits(s[1..], 8, 0);
    hide DigitValue, Digits, SkipSpace;
  }

  /** White space before a number does not count. */
  lemma StrtoulAfterSpace(c: char, s: string)
    requires c in {' ', '\t', '\n', '\r', '\U{0b}', '\U{0c}'}
    ensures Strtoul([c] + s) == Strtoul(s)
  {
    hide DigitValue, Digits;
    assert ([c] + s)[1..] == s;
  }

  /** Numbers are those of unsigned long: negative ones wrap around, too large ones are clamped. */
  lemma StrtoulLimits(d: string)
    requires d != "" && AllDigits(d) && d[0] != '0'
    ensures Strtoul(d) == if DecimalValue(d) <= 18446744073709551615 then DecimalValue(d) else 18446744073709551615
    ensures Strtoul("-" + d)
            == if DecimalValue(d) <= 18446744073709551615 then 18446744073709551616 - DecimalValue(d)
               else 18446744073709551615
  {
    assert ("-" + d)[1..] == d;
    DigitIsPositive(d);
  }

  lemma DigitIsPositive(d: string)
    requires d != "" && AllDigits(d) && d[0] != '0'
    ensures DecimalValue(d) > 0
  {
    MoreDigits(d[1..], DigitValue(d[0]));
  }

  /** A port is the lowest 16 bits of the number; without a colon there is no address. */
  lemma PortTexts(resolve: string -> nat, ip: string, d: string)
    requires ':' !in ip && d != "" && AllDigits(d) && d[0] != '0' && DecimalValue(d) <= 18446744073709551615
    ensures StrToServiceId(resolve, ip + ":" + d) == Some(ServiceId(resolve(ip), DecimalValue(d) % 65536))
    ensures StrToServiceId(resolve, ip) == None
  {
    StrtoulLimits(d);
    AfterColon(resolve, ip, d);
    hide Strtoul, DecimalValue;
  }

  /** The name of a node. */
  lemma NodeTexts(endpoint: string, version: string)
    ensures NodeName(endpoint, -15, version) == endpoint + "@-15#" + version
    ensures NodeName(endpoint, 0, version) == endpoint + "@0#" + version
    ensures NodeName(endpoint, 208, version) == endpoint + "@208#" + version
  {
    Sessions();
    hide SignedDecimal;
  }

  lemma Sessions()
    ensures SignedDecimal(-15) == "-15" && SignedDecimal(0) == "0" && SignedDecimal(208) == "208"
  {
    assert Decimal(20) == "20";
  }

  /** Without a `#` in it a name has no version. */
  lemma NoVersion(s: string)
    requires '#' !in s
    ensures ServiceVersionOf(s) == ""
  {
  }

  // ---------------------------------------------------------------- instance lists

  predicate Less(a: ServiceId, b: ServiceId) {
    a.address < b.address || (a.address == b.address && a.port < b.port)
  }

  ghost predicate Sorted(instances: seq<Instance>) {
    forall i, j :: 0 <= i < j < |instances| ==>
      var a, b := instances[i].id, instances[j].id;
      a.address < b.address || (a.address == b.address && a.port < b.port)
  }

  /** set::insert: of two instances with one address and port the first stays. */
  function Insert(instances: seq<Instance>, x: Instance): (r: seq<Instance>)
    ensures forall y :: y in r ==> y in instances || y == x
    ensures forall y :: y in instances ==> y in r
    ensures exists y :: y in r && y.id == x.id
  {
    if instances == [] then [x]
    else if Less(x.id, instances[0].id) then [x] + instances
    else if x.id == instances[0].id then instances
    else
      var rest := Insert(instances[1..], x);
      assert [instances[0]] + instances[1..] == instances;
      [instances[0]] + rest
  }

  lemma {:induction false} InsertKeepsSorted(instances: seq<Instance>, x: Instance)
    requires Sorted(instances)
    ensures Sorted(Insert(instances, x))
  {
    if instances != [] && !Less(x.id, instances[0].id) && x.id != instances[0].id {
      var rest := Insert(instances[1..], x);
      InsertKeepsSorted(instances[1..], x);
      hide Insert;
      forall k | 0 <= k < |rest| ensures Less(instances[0].id, rest[k].id) {
        assert rest[k] in rest;
        assert rest[k] in instances[1..] || rest[k] == x;
      }
    }
  }

  /** `x` is what the first of the strings with its address and port says. */
  ghost predicate FirstAt(resolve: string -> nat, strings: seq<string>, x: Instance) {
    exists k :: 0 <= k < |strings| && IsAt(resolve, strings[k], x.id) && ServiceVersionOf(strings[k]) == x.version
                && forall j :: 0 <= j < k ==> !IsAt(resolve, strings[j], x.id)
  }

  predicate IsAt(resolve: string -> nat, endpoint: string, id: ServiceId) {
    StrToServiceId(resolve, endpoint) == Some(id)
  }

  ghost predicate HasInstanceAt(instances: seq<Instance>, id: ServiceId) {
    exists x :: x in instances && x.id == id
  }

  /** The instances are those of the strings: one for each address and port, and the first one. */
  ghost predicate InstancesOf(resolve: string -> nat, strings: seq<string>, instances: seq<Instance>) {
    && Sorted(instances)
    && (forall x :: x in instances ==> FirstAt(resolve, strings, x))
    && (forall k, id :: 0 <= k < |strings| && IsAt(resolve, strings[k], id) ==> HasInstanceAt(instances, id))
  }

  /** An instance that is there already stays, so only the first with its address and port is inserted. */
  lemma {:induction false} InsertAt(instances: seq<Instance>, x: Instance)
    requires Sorted(instances)
    ensures forall y :: y in Insert(instances, x) <==> y in instances || (y == x && !HasInstanceAt(instances, x.id))
  {
    if instances != [] {
      assert instances == [instances[0]] + instances[1..];
      if Less(x.id, instances[0].id) {
        assert forall k :: 0 <= k < |instances| ==> instances[k].id != x.id;
      } else if x.id == instances[0].id {
        assert HasInstanceAt(instances, x.id);
      } else {
        InsertAt(instances[1..], x);
        assert HasInstanceAt(instances, x.id) <==> HasInstanceAt(instances[1..], x.id);
      }
    }
  }

  lemma FirstAtKept(resolve: string -> nat, strings: seq<string>, s: string, x: Instance)
    requires FirstAt(resolve, strings, x)
    ensures FirstAt(resolve, strings + [s], x)
  {
    hide IsAt, ServiceVersionOf;
    var k :| 0 <= k < |strings| && IsAt(resolve, strings[k], x.id) && ServiceVersionOf(strings[k]) == x.version
             && forall j :: 0 <= j < k ==> !IsAt(resolve, strings[j], x.id);
    assert (strings + [s])[k] == strings[k];
  }

  lemma NewIsFirst(resolve: string -> nat, strings: seq<string>, s: string, instances: seq<Instance>, x: Instance)
    requires InstancesOf(resolve, strings, instances) && !HasInstanceAt(instances, x.id)
    requires IsAt(resolve, s, x.id) && ServiceVersionOf(s) == x.version
    ensures FirstAt(resolve, strings + [s], x)
  {
    hide IsAt, ServiceVersionOf, HasInstanceAt, Sorted;
    assert (strings + [s])[|strings|] == s;
  }

  /** One round of the loop. */
  lemma NextString(resolve: string -> nat, strings: seq<string>, s: string, instances: seq<Instance>, x: Instance)
    requires InstancesOf(resolve, strings, instances) && IsAt(resolve, s, x.id) && ServiceVersionOf(s) == x.version
    ensures InstancesOf(resolve, strings + [s], Insert(instances, x))
  {
    InsertKeepsSorted(instances, x);
    InsertAt(instances, x);
    var r := Insert(instances, x);
    forall y | y in r ensures FirstAt(resolve, strings + [s], y) {
      if y in instances {
        FirstAtKept(resolve, strings, s, y);
      } else {
        NewIsFirst(resolve, strings, s, instances, x);
      }
    }
    forall k, id | 0 <= k < |strings + [s]| && IsAt(resolve, (strings + [s])[k], id) ensures HasInstanceAt(r, id) {
      if k < |strings| {
        assert HasInstanceAt(instances, id);
        var y :| y in instances && y.id == id;
        assert y in r;
      }
    }
  }

  /** strings_to_instances: the addresses in order, each with the version of the first string that has it. */
  method StringsToInstances(resolve: string -> nat, strings: seq<string>) returns (instances: seq<Instance>)
    ensures InstancesOf(resolve, strings, instances)
  {
    hide Sorted, Insert, FirstAt, ServiceVersionOf, StrToServiceId;
    instances := [];
    NoInstances(resolve);
    for i := 0 to |strings|
      invariant InstancesOf(resolve, strings[..i], instances)
    {
      assert strings[..i + 1] == strings[..i] + [strings[i]];
      var id := StrToServiceId(resolve, strings[i]);
      if id.Some? {
        NextString(resolve, strings[..i], strings[i], instances, Instance(id.value, ServiceVersionOf(strings[i])));
        instances := Insert(instances, Instance(id.value, ServiceVersionOf(strings[i])));
      } else {
        SkippedString(resolve, strings[..i], strings[i], instances);
      }
    }
    assert strings[..|strings|] == strings;
  }

  lemma NoInstances(resolve: string -> nat)
    ensures InstancesOf(resolve, [], [])
  {
  }

  /** A string without an address adds nothing. */
  lemma SkippedString(resolve: string -> nat, strings: seq<string>, s: string, instances: seq<Instance>)
    requires InstancesOf(resolve, strings, instances) && StrToServiceId(resolve, s).None?
    ensures InstancesOf(resolve, strings + [s], instances)
  {
    forall y | y in instances ensures FirstAt(resolve, strings + [s], y) {
      FirstAtKept(resolve, strings, s, y);
    }
  }

  // ---------------------------------------------------------------- round robin

  type Cache = map<string, seq<Instance>>
  type Counters = map<string, nat>

  function CounterOf(counters: Counters, name: string): nat { if name in counters then counters[name] else 0 }

  /** What a lookup answers. */
  function Selected(cache: Cache, counters: Counters, name: string): Option<ServiceId> {
    if name !in cache || cache[name] == [] then None
    else if |cache[name]| == 1 then Some(cache[name][0].id)
    else Some(cache[name][CounterOf(counters, name) % |cache[name]|].id)
  }

  /** The counters after it: only a service with several instances counts. */
  function Counted(cache: Cache, counters: Counters, name: string): Counters {
    if name !in cache || |cache[name]| <= 1 then counters
    else counters[name := (CounterOf(counters, name) + 1) % COUNTERS]
  }

  /** The answers to the lookups of `name` among the lookups `names`. */
  function Picks(cache: Cache, counters: Counters, names: seq<string>, name: string): seq<Option<ServiceId>>
    decreases |names|
  {
    if names == [] then []
    else (if names[0] == name then [Selected(cache, counters, name)] else [])
         + Picks(cache, Counted(cache, counters, names[0]), names[1..], name)
  }

  /** Each list of instances is that of the node names fetched last for its service. */
  ghost predicate CacheOk(resolve: string -> nat, fetched: map<string, seq<string>>, cache: Cache) {
    cache.Keys == fetched.Keys && forall name :: name in cache ==> InstancesOf(resolve, fetched[name], cache[name])
  }

  /** A service has an instance exactly when one of the names of its nodes has an address. */
  lemma Discoverable(resolve: string -> nat, fetched: map<string, seq<string>>, cache: Cache, name: string)
    requires CacheOk(resolve, fetched, cache)
    ensures name in cache && cache[name] != [] <==>
              name in fetched && exists k :: 0 <= k < |fetched[name]| && StrToServiceId(resolve, fetched[name][k]).Some?
    ensures name in cache ==> forall m :: 0 <= m < |cache[name]| ==>
              exists k :: 0 <= k < |fetched[name]|
                          && StrToServiceId(resolve, fetched[name][k]) == Some(cache[name][m].id)
  {
    hide Sorted, ServiceVersionOf, StrToServiceId;
    if name in cache {
      var strings, instances := fetched[name], cache[name];
      forall m | 0 <= m < |instances|
        ensures exists k :: 0 <= k < |strings| && StrToServiceId(resolve, strings[k]) == Some(instances[m].id)
      {
        assert instances[m] in instances && FirstAt(resolve, strings, instances[m]);
        var k :| 0 <= k < |strings| && IsAt(resolve, strings[k], instances[m].id);
      }
      if k :| 0 <= k < |strings| && StrToServiceId(resolve, strings[k]).Some? {
        assert IsAt(resolve, strings[k], StrToServiceId(resolve, strings[k]).value);
        assert HasInstanceAt(instances, StrToServiceId(resolve, strings[k]).value);
        assert instances != [];
      }
      if instances != [] {
        var k :| 0 <= k < |strings| && StrToServiceId(resolve, strings[k]) == Some(instances[0].id);
        assert StrToServiceId(resolve, fetched[name][k]).Some?;
      }
    }
  }

  class Register {
    var servicesCache: Cache
    var roundRobin: Counters
    const resolve: string -> nat  // address::from_string

    ghost var fetched: map<string, seq<string>>

    ghost predicate Valid()
      reads this
    {
      CacheOk(resolve, fetched, servicesCache)
    }

    constructor (resolve: string -> nat)
      ensures Valid() && servicesCache == map[] && roundRobin == map[] && this.resolve == resolve
    {
      servicesCache, roundRobin, fetched := map[], map[], map[];
      this.resolve := resolve;
    }

    /**
     * fetch_and_update_instances, with the names of the nodes of a service, and the task it dispatches to the main
     * queue: counters go on where they were.
     */
    method Update(name: string, strings: seq<string>)
      requires Valid()
      modifies `servicesCache, `fetched
      ensures Valid() && fetched == old(fetched)[name := strings]
      ensures forall other :: other in servicesCache <==> other in old(servicesCache) || other == name
      ensures forall other :: other in old(servicesCache) && other != name ==>
                servicesCache[other] == old(servicesCache)[other]
    {
      hide InstancesOf;
      var instances := StringsToInstances(resolve, strings);
      servicesCache, fetched := servicesCache[name := instances], fetched[name := strings];
    }

    /** service_name_to_id. */
    method ServiceNameToId(name: string) returns (id: Option<ServiceId>)
      requires Valid()
      modifies `roundRobin
      ensures Valid()
      ensures id == Selected(servicesCache, old(roundRobin), name)
      ensures roundRobin == Counted(servicesCache, old(roundRobin), name)
      ensures id.Some? <==>
                name in fetched
                && exists k :: 0 <= k < |fetched[name]| && StrToServiceId(resolve, fetched[name][k]).Some?
      ensures id.Some? ==> exists k :: 0 <= k < |fetched[name]| && StrToServiceId(resolve, fetched[name][k]) == id
      ensures name in servicesCache && servicesCache[name] != [] ==>
                var count := if name in old(roundRobin) then old(roundRobin)[name] else 0;
                && id == Some(servicesCache[name][count % |servicesCache[name]|].id)
                && roundRobin == if |servicesCache[name]| == 1 then old(roundRobin)
                                 else old(roundRobin)[name := (count + 1) % 0x1_0000_0000_0000_0000]
      ensures name !in servicesCache || servicesCache[name] == [] ==> roundRobin == old(roundRobin)
    {
      Discoverable(resolve, fetched, servicesCache, name);
      if name !in servicesCache {
        return None;
      }
      var instances := servicesCache[name];
      if instances == [] {
        return None;
      }
      if |instances| == 1 {
        return Some(instances[0].id);
      }
      var next := if name in roundRobin then roundRobin[name] else 0;
      roundRobin := roundRobin[name := (next + 1) % COUNTERS];
      id := Some(instances[next % |instances|].id);
    }
  }

  lemma CountedOnce(cache: Cache, counters: Counters, looked: string, name: string)
    requires name in cache && cache[name] != [] && CounterOf(counters, name) + 1 < COUNTERS
    ensures CounterOf(Counted(cache, counters, looked), name)
            == CounterOf(counters, name) + if looked == name && |cache[name]| > 1 then 1 else 0
    ensures Selected(cache, counters, name) == Some(cache[name][CounterOf(counters, name) % |cache[name]|].id)
  {
  }

  /** The j-th lookup of a service answers the instance j places on, whatever other lookups come between. */
  lemma {:induction false} PickOf(cache: Cache, counters: Counters, names: seq<string>, name: string, j: nat)
    requires name in cache && cache[name] != [] && j < |Picks(cache, counters, names, name)|
    requires CounterOf(counters, name) + |names| < COUNTERS
    ensures Picks(cache, counters, names, name)[j]
            == Some(cache[name][(CounterOf(counters, name) + j) % |cache[name]|].id)
    decreases |names|
  {
    CountedOnce(cache, counters, names[0], name);
    hide Counted, CounterOf, Selected;
    var counters' := Counted(cache, counters, names[0]);
    if names[0] != name {
      PickOf(cache, counters', names[1..], name, j);
    } else if j > 0 {
      PickOf(cache, counters', names[1..], name, j - 1);
      assert |cache[name]| > 1 ==> CounterOf(counters', name) + (j - 1) == CounterOf(counters, name) + j;
      assert |cache[name]| == 1 ==> forall c: nat :: c % |cache[name]| == 0;
    }
  }

  lemma ModDistinct(a: nat, b: nat, n: nat)
    requires n > 0 && a < b < a + n
    ensures a % n != b % n
  {
    if a % n == b % n {
      var d := b / n - a / n;
      assert b - a == n * d by {
        assert a == n * (a / n) + a % n && b == n * (b / n) + b % n;
        assert n * (b / n) - n * (a / n) == n * d;
      }
      MultipleGrows(n, d);
    }
  }

  /** In each window of n numbers every remainder modulo n turns up. */
  lemma {:induction false} ModCovers(a: nat, n: nat, m: nat) returns (j: nat)
    requires m < n
    ensures j < n && (a + j) % n == m
  {
    var r := a % n;
    var q := a / n;
    assert a == n * q + r;
    j := if m >= r then m - r else m + n - r;
    if m >= r {
      assert a + j == n * q + m;
      QuotientAndRemainder(a + j, n, q, m);
    } else {
      assert a + j == n * (q + 1) + m;
      QuotientAndRemainder(a + j, n, q + 1, m);
    }
  }

  /**
   * Round-robin fairness: while the list of n instances stays as it is and the counter does not wrap around, any
   * n consecutive lookups of a service answer each of its instances exactly once.
   */
  lemma EachInstanceOnce(cache: Cache, counters: Counters, names: seq<string>, name: string, i: nat)
    requires name in cache && cache[name] != [] && Sorted(cache[name])
    requires i + |cache[name]| <= |Picks(cache, counters, names, name)|
    requires CounterOf(counters, name) + |names| < COUNTERS
    ensures var picks, n := Picks(cache, counters, names, name), |cache[name]|;
            && (forall m :: 0 <= m < n ==> Some(cache[name][m].id) in picks[i..i + n])
            && (forall j, k :: i <= j < k < i + n ==> picks[j] != picks[k])
  {
    hide Picks, CounterOf;
    var picks, n := Picks(cache, counters, names, name), |cache[name]|;
    var c := CounterOf(counters, name);
    forall m | 0 <= m < n ensures Some(cache[name][m].id) in picks[i..i + n] {
      var j := ModCovers(c + i, n, m);
      PickOf(cache, counters, names, name, i + j);
      assert c + (i + j) == c + i + j;
      assert picks[i..i + n][j] == picks[i + j];
    }
    forall j, k | i <= j < k < i + n ensures picks[j] != picks[k] {
      PickOf(cache, counters, names, name, j);
      PickOf(cache, counters, names, name, k);
      ModDistinct(c + j, c + k, n);
      var a, b := (c + j) % n, (c + k) % n;
      assert if a < b then Less(cache[name][a].id, cache[name][b].id) else Less(cache[name][b].id, cache[name][a].id);
    }
  }

  /** The instances have exactly the addresses that are among the strings. */
  lemma AddressesOf(resolve: string -> nat, strings: seq<string>, instances: seq<Instance>, id: ServiceId)
    requires InstancesOf(resolve, strings, instances)
    ensures HasInstanceAt(instances, id) <==> exists k :: 0 <= k < |strings| && IsAt(resolve, strings[k], id)
  {
    hide IsAt, Sorted, ServiceVersionOf;
    if HasInstanceAt(instances, id) {
      var x :| x in instances && x.id == id;
      assert FirstAt(resolve, strings, x);
    }
  }

  /** What is picked in n consecutive lookups are the addresses of the instances. */
  lemma PickedAddresses(cache: Cache, counters: Counters, names: seq<string>, name: string, i: nat, id: ServiceId)
    requires name in cache && cache[name] != [] && Sorted(cache[name])
    requires i + |cache[name]| <= |Picks(cache, counters, names, name)|
    requires CounterOf(counters, name) + |names| < COUNTERS
    ensures Some(id) in Picks(cache, counters, names, name)[i..i + |cache[name]|] <==> HasInstanceAt(cache[name], id)
  {
    hide Picks, CounterOf, Sorted;
    EachInstanceOnce(cache, counters, names, name, i);
    var n := |cache[name]|;
    var window := Picks(cache, counters, names, name)[i..i + n];
    if Some(id) in window {
      var j :| 0 <= j < |window| && window[j] == Some(id);
      PickOf(cache, counters, names, name, i + j);
      assert cache[name][(CounterOf(counters, name) + (i + j)) % n] in cache[name];
    }
    if HasInstanceAt(cache[name], id) {
      var x :| x in cache[name] && x.id == id;
      var m :| 0 <= m < n && cache[name][m] == x;
    }
  }

  /**
   * So do the lookups of a register: in any n consecutive ones each address among the node names fetched for the
   * service is answered exactly once, and no other address is.
   */
  lemma EachAddressOnce(resolve: string -> nat, fetched: map<string, seq<string>>, cache: Cache, counters: Counters,
                        names: seq<string>, name: string, i: nat)
    requires CacheOk(resolve, fetched, cache) && name in cache && cache[name] != []
    requires i + |cache[name]| <= |Picks(cache, counters, names, name)|
    requires CounterOf(counters, name) + |names| < COUNTERS
    ensures var window := Picks(cache, counters, names, name)[i..i + |cache[name]|];
            && (forall id :: Some(id) in window <==>
                  exists k :: 0 <= k < |fetched[name]| && IsAt(resolve, fetched[name][k], id))
            && (forall j, k :: 0 <= j < k < |window| ==> window[j] != window[k])
  {
    hide IsAt, Picks, CounterOf, HasInstanceAt, FirstAt, Sorted;
    var picks, n := Picks(cache, counters, names, name), |cache[name]|;
    EachInstanceOnce(cache, counters, names, name, i);
    var window := picks[i..i + n];
    forall j, k | 0 <= j < k < n ensures window[j] != window[k] {
      assert window[j] == picks[i + j] && window[k] == picks[i + k];
    }
    forall id ensures Some(id) in window <==>
                        exists k :: 0 <= k < |fetched[name]| && IsAt(resolve, fetched[name][k], id) {
      AddressesOf(resolve, fetched[name], cache[name], id);
      PickedAddresses(cache, counters, names, name, i, id);
    }
  }
}
