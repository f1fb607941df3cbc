/** The command line's parser of Redis URLs, and the URLs that it reads back. */
module RedisUrl {
  import opened Basics

  datatype ConnectionInfo = ConnectionInfo(host: string, port: nat, password: Option<string>, db: int)

  const DEFAULT_HOST := "localhost"
  const DEFAULT_PORT := 6379
  const SCHEME := "redis://"
  const U16_MAX := 0xFFFF
  const I64_MIN := -0x8000_0000_0000_0000
  const I64_MAX := 0x7FFF_FFFF_FFFF_FFFF

  // ---- strings ----

  /** Rust's split: the parts between the separators, at least one. */
  function Split(s: string, sep: char): (parts: seq<string>)
    ensures |parts| >= 1
    ensures forall i :: 0 <= i < |parts| ==> sep !in parts[i]
  {
    if s == "" then [""]
    else
      var rest := Split(s[1..], sep);
      if s[0] == sep then [""] + rest else [[s[0]] + rest[0]] + rest[1..]
  }

  /** Rust's rfind of a character. */
  function RFind(s: string, c: char): (r: Option<nat>)
    ensures r.Some? ==> r.value < |s| && s[r.value] == c && c !in s[r.value + 1..]
    ensures r.None? ==> c !in s
  {
    if s == "" then None
    else if s[|s| - 1] == c then Some(|s| - 1)
    else
      var r := RFind(s[..|s| - 1], c);
      assert s == s[..|s| - 1] + [s[|s| - 1]];
      assert r.Some? ==> s[r.value + 1..] == s[..|s| - 1][r.value + 1..] + [s[|s| - 1]];
      r
  }

  // ---- numerals ----

  predicate IsDigit(c: char) {
    '0' <= c <= '9'
  }

  function DigitValue(c: char): nat
    requires IsDigit(c)
  {
    (c - '0') as int
  }

  predicate AllDigits(s: string) {
    forall i :: 0 <= i < |s| ==> IsDigit(s[i])
  }

  function Value(s: string): nat
    requires AllDigits(s)
  {
    if s == "" then 0 else 10 * Value(s[..|s| - 1]) + DigitValue(s[|s| - 1])
  }

  /** Rust's parse::<u16>: an optional plus sign and digits, leading zeros allowed. */
  function ParseU16(s: string): Option<nat> {
    var digits := if s != "" && s[0] == '+' then s[1..] else s;
    if digits != "" && AllDigits(digits) && Value(digits) <= U16_MAX then Some(Value(digits)) else None
  }

  /** Rust's parse::<i64>. */
  function ParseI64(s: string): Option<int> {
    var negative := s != "" && s[0] == '-';
    var digits := if s != "" && (s[0] == '+' || s[0] == '-') then s[1..] else s;
    if digits == "" || !AllDigits(digits) then None
    else
      var n: int := if negative then 0 - Value(digits) else Value(digits);
      if I64_MIN <= n <= I64_MAX then Some(n) else None
  }

  // ---- the parser ----

  /** What parse_host_port_db leaves in its out-parameters, which hold the given values before. */
  function HostPortDb(s: string, host: string, port: nat, db: int): (string, nat, int) {
    var parts := Split(s, '/');
    var addr := parts[0];
    var colon := RFind(addr, ':');
    var parsed := if colon.Some? then ParseU16(addr[colon.value + 1..]) else None;
    var parsedDb := if |parts| > 1 then ParseI64(parts[1]) else None;
    (if parsed.Some? then addr[..colon.value] else addr,
     if parsed.Some? then parsed.value else port,
     if parsedDb.Some? then parsedDb.value else db)
  }

  method ParseHostPortDb(s: string, host0: string, port0: nat, db0: int) returns (host: string, port: nat, db: int)
    ensures (host, port, db) == HostPortDb(s, host0, port0, db0)
  {
    host, port, db := host0, port0, db0;
    var parts := Split(s, '/');
    var addr := parts[0];
    match RFind(addr, ':') {
      case Some(colon) =>
        var parsed := ParseU16(addr[colon + 1..]);
        if parsed.Some? {
          port := parsed.value;
          host := addr[..colon];
        } else {
          host := addr;
        }
      case None =>
        host := addr;
    }
    if |parts| > 1 {
      var parsed := ParseI64(parts[1]);
      if parsed.Some? {
        db := parsed.value;
      }
    }
  }

  function Parsed(url: string): ConnectionInfo {
    var rest := if SCHEME <= url then url[|SCHEME|..] else url;
    var parts := Split(rest, '@');
    if |parts| > 1 then
      var auth := parts[0];
      var password := if auth == "" then None else Some(if auth[0] == ':' then auth[1..] else auth);
      var (host, port, db) := HostPortDb(parts[1], DEFAULT_HOST, DEFAULT_PORT, 0);
      ConnectionInfo(host, port, password, db)
    else
      var (host, port, db) := HostPortDb(parts[0], DEFAULT_HOST, DEFAULT_PORT, 0);
      ConnectionInfo(host, port, None, db)
  }

  method ParseRedisUrl(url: string) returns (info: ConnectionInfo)
    ensures info == Parsed(url)
  {
    var host, port, db := DEFAULT_HOST, DEFAULT_PORT, 0;
    var password := None;
    var stripped := StripPrefix(url, SCHEME);
    var rest := if stripped.Some? then stripped.value else url;
    var parts := Split(rest, '@');
    if |parts| > 1 {
      var auth, remaining := parts[0], parts[1];
      if auth != "" {
        var bare := StripPrefix(auth, ":");
        password := Some(if bare.Some? then bare.value else auth);
      }
      host, port, db := ParseHostPortDb(remaining, host, port, db);
    } else {
      host, port, db := ParseHostPortDb(parts[0], host, port, db);
    }
    info := ConnectionInfo(host, port, password, db);
  }

  // ---- writing numbers ----

  function Digit(d: nat): char
    requires d < 10
  {
    '0' + d as char
  }

  function Decimal(n: nat): (s: string)
    ensures s != "" && AllDigits(s)
  {
    if n < 10 then [Digit(n)] else Decimal(n / 10) + [Digit(n % 10)]
  }

  function DecimalInt(i: int): string {
    if i < 0 then "-" + Decimal(-i) else Decimal(i)
  }

  lemma {:induction false} ValueDecimal(n: nat)
    ensures Value(Decimal(n)) == n
  {
    if n < 10 {
      assert Decimal(n) == [Digit(n)];
      assert Decimal(n)[..0] == "";
    } else {
      ValueDecimal(n / 10);
      assert Decimal(n)[..|Decimal(n)| - 1] == Decimal(n / 10);
    }
  }

  lemma PortReads(port: nat)
    requires port <= U16_MAX
    ensures ParseU16(Decimal(port)) == Some(port) && ':' !in Decimal(port) && '/' !in Decimal(port) && '@' !in Decimal(port)
  {
    ValueDecimal(port);
    assert IsDigit(Decimal(port)[0]);
  }

  lemma DbReads(db: int)
    requires I64_MIN <= db <= I64_MAX
    ensures ParseI64(DecimalInt(db)) == Some(db) && '/' !in DecimalInt(db) && '@' !in DecimalInt(db)
  {
    if db < 0 {
      NegativeReads(-db);
    } else {
      ValueDecimal(db);
      assert IsDigit(Decimal(db)[0]);
    }
  }

  lemma NegativeReads(n: nat)
    requires 0 < n <= -I64_MIN
    ensures ParseI64("-" + Decimal(n)) == Some(0 - n) && '/' !in "-" + Decimal(n) && '@' !in "-" + Decimal(n)
  {
    ValueDecimal(n);
    var s := "-" + Decimal(n);
    assert s[0] == '-' && s[1..] == Decimal(n);
    assert AllDigits(s[1..]);
  }

  // ---- reading back ----

  lemma {:induction false} SplitNone(s: string, sep: char)
    requires sep !in s
    ensures Split(s, sep) == [s]
  {
    if s != "" {
      assert sep !in s[1..];
      SplitNone(s[1..], sep);
      assert [s[0]] + s[1..] == s;
    }
  }

  lemma {:induction false} SplitFirst(a: string, b: string, sep: char)
    requires sep !in a
    ensures Split(a + [sep] + b, sep) == [a] + Split(b, sep)
  {
    var s := a + [sep] + b;
    if a == "" {
      assert s[1..] == b;
    } else {
      assert s[1..] == a[1..] + [sep] + b;
      assert sep !in a[1..];
      SplitFirst(a[1..], b, sep);
      assert [a[0]] + a[1..] == a;
    }
  }

  lemma {:induction false} RFindLast(a: string, b: string, c: char)
    requires c !in b
    ensures RFind(a + [c] + b, c) == Some(|a|)
    decreases |b|
  {
    var s := a + [c] + b;
    if b == "" {
      assert s[|s| - 1] == c;
    } else {
      assert s[..|s| - 1] == a + [c] + b[..|b| - 1];
      assert s[|s| - 1] == b[|b| - 1];
      assert b[|b| - 1] in b;
      assert c !in b[..|b| - 1];
      RFindLast(a, b[..|b| - 1], c);
    }
  }

  /** host:port/db */
  function Address(host: string, port: nat, db: int): string {
    host + ":" + Decimal(port) + "/" + DecimalInt(db)
  }

  lemma AddressReads(host: string, port: nat, db: int)
    requires '/' !in host && port <= U16_MAX && I64_MIN <= db <= I64_MAX
    ensures HostPortDb(Address(host, port, db), DEFAULT_HOST, DEFAULT_PORT, 0) == (host, port, db)
  {
    PortReads(port);
    DbReads(db);
    var addr := host + [':'] + Decimal(port);
    assert Address(host, port, db) == addr + ['/'] + DecimalInt(db);
    SplitFirst(addr, DecimalInt(db), '/');
    SplitNone(DecimalInt(db), '/');
    RFindLast(host, Decimal(port), ':');
    assert addr[|host| + 1..] == Decimal(port) && addr[..|host|] == host;
  }

  lemma AddressClean(host: string, port: nat, db: int)
    requires '@' !in host
    requires port <= U16_MAX && I64_MIN <= db <= I64_MAX
    ensures '@' !in Address(host, port, db)
  {
    PortReads(port);
    DbReads(db);
  }

  /** The URL with a password. */
  function WithPassword(password: string, host: string, port: nat, db: int): string {
    SCHEME + ":" + password + "@" + Address(host, port, db)
  }

  function WithoutPassword(host: string, port: nat, db: int): string {
    SCHEME + Address(host, port, db)
  }

  lemma PasswordReads(password: string, host: string, port: nat, db: int)
    requires '@' !in password && '@' !in host && '/' !in host && port <= U16_MAX && I64_MIN <= db <= I64_MAX
    ensures Parsed(WithPassword(password, host, port, db)) == ConnectionInfo(host, port, Some(password), db)
  {
    var url, address := WithPassword(password, host, port, db), Address(host, port, db);
    var auth := ":" + password;
    assert url[|SCHEME|..] == auth + ['@'] + address;
    SplitFirst(auth, address, '@');
    AddressClean(host, port, db);
    SplitNone(address, '@');
    AddressReads(host, port, db);
    assert auth[1..] == password;
  }

  /**
   * Main result: for every port and every i64 database number, the URL with a password is read
   * back as its four parts if and only if there is no '@' in the password and neither '@' nor
   * '/' in the host. (Colons in the host do not matter.)
   */
  lemma PasswordRoundTrip(password: string, host: string, port: nat, db: int)
    requires port <= U16_MAX && I64_MIN <= db <= I64_MAX
    ensures Parsed(WithPassword(password, host, port, db)) == ConnectionInfo(host, port, Some(password), db) <==>
            '@' !in password && '@' !in host && '/' !in host
  {
    if '@' !in password && '@' !in host && '/' !in host {
      PasswordReads(password, host, port, db);
    } else {
      ParsedClean(WithPassword(password, host, port, db));
    }
  }

  /** No parsed password holds an '@', no parsed host an '@' or a '/'. */
  lemma ParsedClean(url: string)
    ensures Parsed(url).password.Some? ==> '@' !in Parsed(url).password.value
    ensures '@' !in Parsed(url).host && '/' !in Parsed(url).host
  {
    var rest := if SCHEME <= url then url[|SCHEME|..] else url;
    var parts := Split(rest, '@');
    assert '@' !in parts[0];
    var address := if |parts| > 1 then parts[1] else parts[0];
    assert '@' !in address;
    SplitKeeps(address, '/', '@');
    assert '/' !in Split(address, '/')[0];
  }

  /** Splitting brings in no characters. */
  lemma {:induction false} SplitKeeps(s: string, sep: char, c: char)
    requires c !in s
    ensures forall i :: 0 <= i < |Split(s, sep)| ==> c !in Split(s, sep)[i]
  {
    if s != "" {
      assert c !in s[1..];
      SplitKeeps(s[1..], sep, c);
      var rest := Split(s[1..], sep);
      assert c != s[0];
    }
  }

  /** Without a password: read back if and only if the host holds neither '@' nor '/'. */
  lemma PlainRoundTrip(host: string, port: nat, db: int)
    requires port <= U16_MAX && I64_MIN <= db <= I64_MAX
    ensures Parsed(WithoutPassword(host, port, db)) == ConnectionInfo(host, port, None, db) <==> '@' !in host && '/' !in host
  {
    if '@' !in host && '/' !in host {
      var url := WithoutPassword(host, port, db);
      assert url[|SCHEME|..] == Address(host, port, db);
      AddressClean(host, port, db);
      SplitNone(Address(host, port, db), '@');
      AddressReads(host, port, db);
    } else {
      ParsedClean(WithoutPassword(host, port, db));
    }
  }

  /**
   * A bare host is read back, with the default port and database, if and only if the text after
   * its last colon (if it has one) is not a port number.
   */
  lemma BareHost(host: string)
    requires '@' !in host && '/' !in host
    ensures Parsed(SCHEME + host) == ConnectionInfo(host, DEFAULT_PORT, None, 0) <==>
            var colon := RFind(host, ':'); colon.None? || ParseU16(host[colon.value + 1..]).None?
  {
    assert (SCHEME + host)[|SCHEME|..] == host;
    SplitNone(host, '@');
    BareAddress(host);
  }

  lemma BareAddress(host: string)
    requires '/' !in host
    ensures var colon := RFind(host, ':');
            var parsed := if colon.Some? then ParseU16(host[colon.value + 1..]) else None;
            HostPortDb(host, DEFAULT_HOST, DEFAULT_PORT, 0) ==
              if parsed.Some? then (host[..colon.value], parsed.value, 0) else (host, DEFAULT_PORT, 0)
    ensures var colon := RFind(host, ':'); colon.Some? ==> host[..colon.value] != host
  {
    SplitNone(host, '/');
    var colon := RFind(host, ':');
    if colon.Some? {
      assert |host[..colon.value]| < |host|;
    }
  }

  // ---- the other forms ----

  /** The text after the last colon of an address is a port number. */
  predicate EndsInPort(addr: string) {
    var colon := RFind(addr, ':');
    colon.Some? && ParseU16(addr[colon.value + 1..]).Some?
  }

  /** The address and what follows the first slash are read apart from each other. */
  lemma AddressAndDb(addr: string, text: string)
    requires '/' !in addr && '/' !in text
    ensures var alone := HostPortDb(addr, DEFAULT_HOST, DEFAULT_PORT, 0);
            var db := if ParseI64(text).Some? then ParseI64(text).value else 0;
            HostPortDb(addr + "/" + text, DEFAULT_HOST, DEFAULT_PORT, 0) == (alone.0, alone.1, db)
  {
    SplitFirst(addr, text, '/');
    SplitNone(text, '/');
    SplitNone(addr, '/');
  }

  /**
   * An address with a database and without a port: read back, with port 6379, if and only if the
   * text after the host's last colon (if it has one) is not a port number.
   */
  lemma DbWithoutPort(host: string, db: int)
    requires '@' !in host && '/' !in host && I64_MIN <= db <= I64_MAX
    ensures Parsed(SCHEME + host + "/" + DecimalInt(db)) == ConnectionInfo(host, 6379, None, db) <==> !EndsInPort(host)
  {
    var rest := host + "/" + DecimalInt(db);
    assert SCHEME + host + "/" + DecimalInt(db) == SCHEME + rest;
    DbReads(db);
    NoPassword(rest);
    HostAndDb(host, db);
  }

  lemma HostAndDb(host: string, db: int)
    requires '/' !in host && I64_MIN <= db <= I64_MAX
    ensures HostPortDb(host + "/" + DecimalInt(db), DEFAULT_HOST, DEFAULT_PORT, 0) == (host, 6379, db) <==> !EndsInPort(host)
  {
    DbReads(db);
    AddressAndDb(host, DecimalInt(db));
    BareAddress(host);
  }

  lemma NoPassword(rest: string)
    requires '@' !in rest
    ensures var (host, port, db) := HostPortDb(rest, DEFAULT_HOST, DEFAULT_PORT, 0);
            Parsed(SCHEME + rest) == ConnectionInfo(host, port, None, db)
  {
    assert (SCHEME + rest)[|SCHEME|..] == rest;
    SplitNone(rest, '@');
  }

  /** A database that cannot be read counts as 0, and host and port are read all the same. */
  lemma UnreadableDb(host: string, port: nat, text: string)
    requires '@' !in host && '/' !in host && port <= U16_MAX && '@' !in text && '/' !in text && ParseI64(text).None?
    ensures Parsed(SCHEME + host + ":" + Decimal(port) + "/" + text) == ConnectionInfo(host, port, None, 0)
  {
    PortReads(port);
    var addr := host + ":" + Decimal(port);
    assert SCHEME + host + ":" + Decimal(port) + "/" + text == SCHEME + (addr + "/" + text);
    NoPassword(addr + "/" + text);
    AddressAndDb(addr, text);
    PortOnly(host, port);
  }

  lemma PortOnly(host: string, port: nat)
    requires '/' !in host && port <= U16_MAX
    ensures HostPortDb(host + ":" + Decimal(port), DEFAULT_HOST, DEFAULT_PORT, 0) == (host, port, 0)
  {
    PortReads(port);
    var addr := host + [':'] + Decimal(port);
    SplitNone(addr, '/');
    RFindLast(host, Decimal(port), ':');
    assert addr[|host| + 1..] == Decimal(port) && addr[..|host|] == host;
  }

  /**
   * A password without a colon in front of it is read back if and only if it is not empty, does
   * not begin with a colon itself and holds no '@' (and the host is clean, as ever).
   */
  lemma NakedPassword(password: string, host: string, port: nat, db: int)
    requires port <= U16_MAX && I64_MIN <= db <= I64_MAX
    ensures Parsed(SCHEME + password + "@" + Address(host, port, db)) == ConnectionInfo(host, port, Some(password), db) <==>
            password != "" && password[0] != ':' && '@' !in password && '@' !in host && '/' !in host
  {
    var address := Address(host, port, db);
    var url := SCHEME + password + "@" + address;
    if '@' !in password && '@' !in host && '/' !in host {
      assert url == SCHEME + (password + ['@'] + address);
      assert url[|SCHEME|..] == password + ['@'] + address;
      SplitFirst(password, address, '@');
      AddressClean(host, port, db);
      SplitNone(address, '@');
      AddressReads(host, port, db);
      if password != "" && password[0] == ':' { assert |password[1..]| < |password|; }
    } else {
      ParsedClean(url);
    }
  }

  /** Nothing before the '@' means no password. */
  lemma EmptyAuth(host: string, port: nat, db: int)
    requires '@' !in host && '/' !in host && port <= U16_MAX && I64_MIN <= db <= I64_MAX
    ensures Parsed(SCHEME + "@" + Address(host, port, db)) == ConnectionInfo(host, port, None, db)
  {
    var address := Address(host, port, db);
    assert (SCHEME + "@" + address)[|SCHEME|..] == "" + ['@'] + address;
    SplitFirst("", address, '@');
    AddressClean(host, port, db);
    SplitNone(address, '@');
    AddressReads(host, port, db);
  }

  /** The scheme may be left out, unless the rest begins with it once more. */
  lemma SchemeOptional(rest: string)
    ensures !(SCHEME <= rest) ==> Parsed(SCHEME + rest) == Parsed(rest)
  {
    assert (SCHEME + rest)[|SCHEME|..] == rest;
  }

  /** What follows a second '@' is ignored. */
  lemma SecondAtIgnored(auth: string, address: string, more: string)
    requires '@' !in auth && '@' !in address
    ensures Parsed(SCHEME + auth + "@" + address + "@" + more) == Parsed(SCHEME + auth + "@" + address)
  {
    var rest := auth + ['@'] + address;
    assert SCHEME + auth + "@" + address == SCHEME + rest;
    assert (SCHEME + rest)[|SCHEME|..] == rest;
    assert SCHEME + auth + "@" + address + "@" + more == SCHEME + (rest + ['@'] + more);
    assert (SCHEME + (rest + ['@'] + more))[|SCHEME|..] == auth + ['@'] + (address + ['@'] + more);
    SplitFirst(auth, address, '@');
    SplitNone(address, '@');
    SplitFirst(auth, address + ['@'] + more, '@');
    SplitFirst(address, more, '@');
  }

  /** What follows a second slash is ignored. */
  lemma SecondSlashIgnored(addr: string, text: string, more: string)
    requires '/' !in addr && '/' !in text
    ensures HostPortDb(addr + "/" + text + "/" + more, DEFAULT_HOST, DEFAULT_PORT, 0)
         == HostPortDb(addr + "/" + text, DEFAULT_HOST, DEFAULT_PORT, 0)
  {
    assert addr + "/" + text + "/" + more == addr + ['/'] + (text + ['/'] + more);
    SplitFirst(addr, text + ['/'] + more, '/');
    SplitFirst(text, more, '/');
    SplitFirst(addr, text, '/');
    SplitNone(text, '/');
  }
}
