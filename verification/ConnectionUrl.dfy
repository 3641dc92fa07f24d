/** MySQL_Connection::init, where it takes the host name option apart. */
module ConnectionUrl {
  import opened Basics

  // ---------------------------------------------------------------------
  // Searching for one character
  // ---------------------------------------------------------------------

  /** host.find(c) */
  function FirstOf(s: string, c: char): (r: Option<nat>)
    ensures r.None? <==> c !in s
    ensures r.Some? ==> r.value < |s| && s[r.value] == c && c !in s[..r.value]
  {
    if s == [] then None
    else if s[0] == c then Some(0)
    else match FirstOf(s[1..], c)
      case None => assert s == [s[0]] + s[1..]; None
      case Some(i) => assert s[..i + 1] == [s[0]] + s[1..][..i]; Some(i + 1)
  }

  /** host.find_last_of(c) */
  function LastOf(s: string, c: char): (r: Option<nat>)
    ensures r.None? <==> c !in s
    ensures r.Some? ==> r.value < |s| && s[r.value] == c && c !in s[r.value + 1..]
  {
    if s == [] then None
    else
      var k := |s| - 1;
      assert s == s[..k] + [s[k]];
      if s[k] == c then Some(k)
      else match LastOf(s[..k], c)
        case None => None
        case Some(i) => assert s[i + 1..] == s[..k][i + 1..] + [s[k]]; Some(i)
  }

  lemma {:induction false} FirstIs(a: string, c: char, b: string)
    requires c !in a
    ensures FirstOf(a + [c] + b, c) == Some(|a|)
  {
    var s := a + [c] + b;
    if a == [] {
    } else {
      FirstIs(a[1..], c, b);
      assert s[1..] == a[1..] + [c] + b;
    }
  }

  lemma LastStep(s: string, c: char)
    requires s != [] && s[|s| - 1] != c
    ensures LastOf(s, c) == LastOf(s[..|s| - 1], c)
  {
  }

  lemma {:induction false} LastIs(a: string, c: char, b: string)
    requires c !in b
    ensures LastOf(a + [c] + b, c) == Some(|a|)
  {
    var s := a + [c] + b;
    if b == [] {
      assert s[|s| - 1] == c;
    } else {
      var k := |b| - 1;
      assert s[|s| - 1] == b[k] && b[k] in b;
      assert s[..|s| - 1] == a + [c] + b[..k];
      LastIs(a, c, b[..k]);
      LastStep(s, c);
      hide LastOf;
    }
  }

  predicate StartsWith(s: string, prefix: string) {
    |prefix| <= |s| && s[..|prefix|] == prefix
  }

  // ---------------------------------------------------------------------
  // atoi
  // ---------------------------------------------------------------------

  predicate IsDigit(c: char) {
    '0' <= c <= '9'
  }

  predicate IsSpace(c: char) {
    c == ' ' || '\t' <= c <= '\r'
  }

  /** The digits at the front, read after the value `acc`. */
  function Digits(s: string, acc: nat): nat {
    if s == [] || !IsDigit(s[0]) then acc
    else Digits(s[1..], 10 * acc + (s[0] as int - '0' as int))
  }

  function Number(s: string): int {
    if s != [] && IsSpace(s[0]) then Number(s[1..])
    else if s != [] && s[0] == '-' then 0 - Digits(s[1..], 0)
    else if s != [] && s[0] == '+' then Digits(s[1..], 0)
    else Digits(s, 0)
  }

  predicate IsInt(n: int) {
    -0x8000_0000 <= n < 0x8000_0000
  }

  /** Outside the range of int the result is undefined. */
  function Atoi(s: string): Option<int> {
    if IsInt(Number(s)) then Some(Number(s)) else None
  }

  // ---------------------------------------------------------------------
  // Taking the option apart
  // ---------------------------------------------------------------------

  /** What init has collected: from the other options before, for the connection after. */
  datatype Endpoint = Endpoint(
    tcp: bool, host: string, port: nat, schema: string, schemaUsed: bool, socket: string)

  function CString(s: string): string {
    match FirstOf(s, '\0')
    case None => s
    case Some(i) => s[..i]
  }

  /** The parts of a tcp URL: host[:number][/schema] */
  datatype Url = Url(host: string, number: Option<string>, schema: Option<string>)

  function CutHost(hostPort: string): (string, Option<string>) {
    match LastOf(hostPort, ':')
    case None => (hostPort, None)
    case Some(colon) => (hostPort[..colon], Some(hostPort[colon + 1..]))
  }

  /** Cut at the first slash, then at the last colon before it. */
  function Cut(body: string): Url {
    match FirstOf(body, '/')
    case None => var (host, number) := CutHost(body); Url(host, number, None)
    case Some(slash) =>
      var (host, number) := CutHost(body[..slash]);
      Url(host, number, Some(body[slash + 1..]))
  }

  /** What the parts say, over what the options said before. */
  function Take(u: Url, e: Endpoint): Option<Endpoint> {
    var e1 := if u.schema.Some? then e.(host := u.host, schema := u.schema.value, schemaUsed := true)
              else e.(host := u.host);
    match u.number
    case None => Some(e1)
    case Some(number) =>
      match Atoi(number)
      case None => None
      case Some(port) => Some(e1.(port := port % WORD32))
  }

  function NoLocalhost(e: Endpoint): Endpoint {
    if e.tcp && StartsWith(e.host, "localhost") then e.(host := "127.0.0.1") else e
  }

  function SplitUrl(hostName: string, e: Endpoint): Option<Endpoint> {
    if StartsWith(hostName, "unix://") then
      Some(e.(tcp := false, socket := hostName[|"unix://"|..], host := "localhost"))
    else if StartsWith(hostName, "tcp://") then
      match Take(Cut(hostName[|"tcp://"|..]), e)
      case None => None
      case Some(e1) => Some(NoLocalhost(e1))
    else Some(NoLocalhost(e.(host := CString(hostName))))
  }

  method InitHost(hostName: string, before: Endpoint) returns (r: Option<Endpoint>)
    ensures r == SplitUrl(hostName, before)
  {
    hide FirstOf, LastOf, Atoi;
    var tcp, host, port := before.tcp, before.host, before.port;
    var schema, schemaUsed, socket := before.schema, before.schemaUsed, before.socket;
    if StartsWith(hostName, "unix://") {
      tcp := false;
      socket := hostName[|"unix://"|..];
      host := "localhost";
    } else if StartsWith(hostName, "tcp://") {
      host := hostName[|"tcp://"|..];
      var schemaPos := FirstOf(host, '/');
      if schemaPos.Some? {
        schema := host[schemaPos.value + 1..];
        schemaUsed := true;
        host := host[..schemaPos.value];
      }
      var portPos := LastOf(host, ':');
      if portPos.Some? {
        var number := Atoi(host[portPos.value + 1..]);
        if number.None? {
          return None;
        }
        port := number.value % WORD32;
        host := host[..portPos.value];
      }
    } else {
      host := CString(hostName);
    }
    if tcp && StartsWith(host, "localhost") {
      host := "127.0.0.1";
    }
    return Some(Endpoint(tcp, host, port, schema, schemaUsed, socket));
  }

  // ---------------------------------------------------------------------
  // Cutting and showing are inverse
  // ---------------------------------------------------------------------

  function ShowHost(host: string, number: Option<string>): string {
    if number.Some? then host + [':'] + number.value else host
  }

  function Show(u: Url): string {
    if u.schema.Some? then ShowHost(u.host, u.number) + ['/'] + u.schema.value else ShowHost(u.host, u.number)
  }

  predicate HostOk(host: string, number: Option<string>) {
    if number.Some? then ':' !in number.value else ':' !in host
  }

  /** A URL whose parts do not contain what it is cut at. */
  predicate WellFormed(u: Url) {
    && '/' !in u.host && (u.number.Some? ==> '/' !in u.number.value)
    && HostOk(u.host, u.number)
  }

  lemma CutHostShow(host: string, number: Option<string>)
    requires HostOk(host, number)
    ensures CutHost(ShowHost(host, number)) == (host, number)
  {
    if number.Some? {
      LastIs(host, ':', number.value);
      var s := host + [':'] + number.value;
      assert s[..|host|] == host && s[|host| + 1..] == number.value;
    }
  }

  lemma ShowCutHost(s: string)
    ensures var (host, number) := CutHost(s); ShowHost(host, number) == s && HostOk(host, number)
  {
    var colon := LastOf(s, ':');
    hide LastOf;
    assert colon.Some? ==> s == s[..colon.value] + [':'] + s[colon.value + 1..];
  }

  lemma CutShow(u: Url)
    requires WellFormed(u)
    ensures Cut(Show(u)) == u
  {
    hide FirstOf, CutHost;
    CutHostShow(u.host, u.number);
    var front := ShowHost(u.host, u.number);
    NoSlash(u);
    if u.schema.Some? {
      FirstIs(front, '/', u.schema.value);
      var s := front + ['/'] + u.schema.value;
      assert s[..|front|] == front && s[|front| + 1..] == u.schema.value;
    }
  }

  lemma NoSlash(u: Url)
    ensures '/' !in ShowHost(u.host, u.number) <==>
            '/' !in u.host && (u.number.Some? ==> '/' !in u.number.value)
    ensures '/' !in ShowHost(u.host, u.number) ==> FirstOf(ShowHost(u.host, u.number), '/') == None
  {
  }

  /** Nothing of a URL is lost, and its parts are well formed. */
  lemma ShowCut(body: string)
    ensures Show(Cut(body)) == body && WellFormed(Cut(body))
  {
    var slash := FirstOf(body, '/');
    var hostPort := if slash.None? then body else body[..slash.value];
    ShowCutHost(hostPort);
    NoSlash(Cut(body));
    hide FirstOf, CutHost, ShowHost;
    assert slash.Some? ==> hostPort + ['/'] + body[slash.value + 1..] == body;
  }

  /** Cutting recovers the parts of a URL exactly when they are well formed. */
  lemma CutShowIff(u: Url)
    ensures Cut(Show(u)) == u <==> WellFormed(u)
  {
    ShowCut(Show(u));
    if WellFormed(u) {
      CutShow(u);
    }
  }

  // ---------------------------------------------------------------------
  // Printing a whole option and reading it back
  // ---------------------------------------------------------------------

  function DecimalNat(n: nat): (s: string)
    ensures s != [] && forall i | 0 <= i < |s| :: IsDigit(s[i])
  {
    var last := ['0' + (n % 10) as char];
    if n < 10 then last else DecimalNat(n / 10) + last
  }

  function Decimal(n: int): string {
    if n < 0 then "-" + DecimalNat(-n) else DecimalNat(n)
  }

  /** Digits read one after another: the first part, then the second on top of it. */
  lemma {:induction false} DigitsConcat(a: string, b: string, acc: nat)
    requires forall i | 0 <= i < |a| :: IsDigit(a[i])
    ensures Digits(a + b, acc) == Digits(b, Digits(a, acc))
  {
    if a == [] {
      assert a + b == b;
    } else {
      assert (a + b)[1..] == a[1..] + b;
      DigitsConcat(a[1..], b, 10 * acc + (a[0] as int - '0' as int));
    }
  }

  lemma {:induction false} SpacesSkipped(spaces: string, rest: string)
    requires forall i | 0 <= i < |spaces| :: spaces[i] == ' ' || '\t' <= spaces[i] <= '\r'
    ensures Number(spaces + rest) == Number(rest)
  {
    if spaces == [] {
      assert spaces + rest == rest;
    } else {
      assert (spaces + rest)[1..] == spaces[1..] + rest;
      SpacesSkipped(spaces[1..], rest);
    }
  }

  lemma SignedNumber(sign: string, text: string)
    requires sign in ["", "+", "-"] && text != [] && IsDigit(text[0])
    ensures Number(sign + text) == if sign == "-" then 0 - Digits(text, 0) else Digits(text, 0)
  {
    hide Digits;
    if sign == "" {
      assert sign + text == text;
    } else {
      assert (sign + text)[1..] == text && (sign + text)[0] == sign[0];
    }
  }

  /**
    atoi: leading white space, one sign, and the digits up to the first
    character that is none.
    */
  lemma AtoiReads(spaces: string, sign: string, n: nat, junk: string)
    requires forall i | 0 <= i < |spaces| :: spaces[i] == ' ' || '\t' <= spaces[i] <= '\r'
    requires sign in ["", "+", "-"] && (junk == [] || !('0' <= junk[0] <= '9'))
    ensures Number(spaces + (sign + (DecimalNat(n) + junk))) == if sign == "-" then 0 - n else n
  {
    var digits := DecimalNat(n);
    assert Digits(junk, n) == n;
    hide Digits, DecimalNat, Number;
    DigitsOfDecimal(n);
    DigitsConcat(digits, junk, 0);
    assert (digits + junk)[0] == digits[0];
    SignedNumber(sign, digits + junk);
    SpacesSkipped(spaces, sign + (digits + junk));
  }

  /** A text that starts with neither white space, a sign nor a digit is 0. */
  lemma AtoiOfNone(junk: string)
    requires junk == [] || (junk[0] !in "+- " && !('\t' <= junk[0] <= '\r') && !('0' <= junk[0] <= '9'))
    ensures Number(junk) == 0
  {
  }

  lemma {:induction false} DigitsOfDecimal(n: nat)
    ensures Digits(DecimalNat(n), 0) == n
  {
    var last := ['0' + (n % 10) as char];
    if n < 10 {
    } else {
      DigitsOfDecimal(n / 10);
      DigitsConcat(DecimalNat(n / 10), last, 0);
    }
    var acc := if n < 10 then 0 else n / 10;
    assert last[1..] == [];
    assert Digits(last, acc) == 10 * acc + n % 10;
  }

  /** A printed number is read back, and has neither of the characters the URL is cut at. */
  lemma NumberOfDecimal(n: int)
    ensures Number(Decimal(n)) == n
    ensures ':' !in Decimal(n) && '/' !in Decimal(n)
  {
    if n < 0 {
      DigitsOfDecimal(-n);
      assert Decimal(n)[1..] == DecimalNat(-n);
    } else {
      DigitsOfDecimal(n);
      assert IsDigit(Decimal(n)[0]);
    }
  }

  /**
    The URL round trip: every host without a slash, even one with colons,
    every port that is an int and every schema are read back. The host is
    kept exactly when it does not start with localhost.
    */
  lemma UrlRoundTrip(host: string, port: int, schema: string, e: Endpoint)
    requires '/' !in host && IsInt(port) && e.tcp
    ensures var r := SplitUrl("tcp://" + host + ":" + Decimal(port) + "/" + schema, e);
      && r.Some?
      && r.value == e.(host := r.value.host, port := port % WORD32, schema := schema, schemaUsed := true)
      && r.value.host == (if StartsWith(host, "localhost") then "127.0.0.1" else host)
      && (r.value.host == host <==> !StartsWith(host, "localhost"))
  {
    hide Cut, Decimal, Number, SplitUrl, StartsWith;
    NumberOfDecimal(port);
    var u := Url(host, Some(Decimal(port)), Some(schema));
    CutShow(u);
    UrlShape(host, Decimal(port), schema);
    hide Show;
    TcpUrl(Show(u), e);
    LocalhostIsNot(host);
  }

  /** A unix URL: the path is the socket, and the host is the local one whatever was set before. */
  lemma UnixUrl(path: string, e: Endpoint)
    ensures SplitUrl("unix://" + path, e) == Some(e.(tcp := false, socket := path, host := "localhost"))
  {
    var url := "unix://" + path;
    assert url[..7] == "unix://" && url[7..] == path;
  }

  /** What the driver connects to for a host name. */
  function Alias(tcp: bool, host: string): string {
    if tcp && |host| >= 9 && host[..9] == "localhost" then "127.0.0.1" else host
  }

  /**
    A tcp URL with or without its parts: a part that is there replaces what
    the options set, a part that is not leaves it.
    */
  lemma TcpParts(u: Url, e: Endpoint)
    requires WellFormed(u)
    ensures var r := SplitUrl("tcp://" + Show(u), e);
      && (r.None? <==> u.number.Some? && !IsInt(Number(u.number.value)))
      && (r.Some? ==>
            && r.value.tcp == e.tcp && r.value.socket == e.socket && r.value.host == Alias(e.tcp, u.host)
            && r.value.port == (if u.number.Some? then Number(u.number.value) % 0x1_0000_0000 else e.port)
            && r.value.schema == (if u.schema.Some? then u.schema.value else e.schema)
            && r.value.schemaUsed == (u.schema.Some? || e.schemaUsed))
  {
    hide Show, Cut, Number, SplitUrl, WellFormed, Take, NoLocalhost;
    CutShow(u);
    TcpUrl(Show(u), e);
    TakeIs(u, e);
  }

  lemma TakeIs(u: Url, e: Endpoint)
    ensures var r := Take(u, e);
      && (r.None? <==> u.number.Some? && !IsInt(Number(u.number.value)))
      && (r.Some? ==>
            && NoLocalhost(r.value) == r.value.(host := Alias(e.tcp, u.host)) && r.value.tcp == e.tcp && r.value.socket == e.socket
            && r.value.port == (if u.number.Some? then Number(u.number.value) % 0x1_0000_0000 else e.port)
            && r.value.schema == (if u.schema.Some? then u.schema.value else e.schema)
            && r.value.schemaUsed == (u.schema.Some? || e.schemaUsed))
  {
    hide Number;
  }

  /** A name with neither protocol: only the host changes, to the text before the first NUL. */
  lemma PlainName(name: string, junk: string, e: Endpoint)
    requires '\0' !in name && !StartsWith(name, "unix://") && !StartsWith(name, "tcp://")
    ensures SplitUrl(name, e) == Some(e.(host := Alias(e.tcp, name)))
    ensures !StartsWith(name + ['\0'] + junk, "unix://") && !StartsWith(name + ['\0'] + junk, "tcp://") ==>
              SplitUrl(name + ['\0'] + junk, e) == Some(e.(host := Alias(e.tcp, name)))
  {
    FirstIs(name, '\0', junk);
    hide FirstOf;
    assert (name + ['\0'] + junk)[..|name|] == name;
  }

  lemma UrlShape(host: string, number: string, schema: string)
    ensures "tcp://" + host + ":" + number + "/" + schema == "tcp://" + (host + [':'] + number + ['/'] + schema)
  {
  }

  lemma TcpUrl(body: string, e: Endpoint)
    ensures SplitUrl("tcp://" + body, e) ==
            match Take(Cut(body), e) { case None => None case Some(e1) => Some(NoLocalhost(e1)) }
  {
    hide Cut, Take, NoLocalhost;
    var url := "tcp://" + body;
    assert url[..6] == "tcp://" && url[6..] == body;
    assert url[0] == 't' && "unix://"[0] == 'u';
    assert |url| >= 7 ==> url[..7][0] == url[0];
  }

  lemma LocalhostIsNot(host: string)
    ensures StartsWith(host, "localhost") ==> host != "127.0.0.1"
  {
    assert StartsWith(host, "localhost") ==> host[..9][0] == host[0];
  }
}
