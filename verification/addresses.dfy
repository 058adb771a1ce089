/** The address handling of `simple_connect`: `server.split(":")` is spread
    over the two parameters (host, port) of the client builder, which reads the
    port with int(). Anything but exactly one colon is a TypeError; a port that
    int() refuses is a ValueError. Both propagate to the caller. */
module Addresses {
  import opened Errors
  import opened Decimal

  datatype HostPort = HostPort(host: string, port: int)

  /** sep.join(parts), the inverse of Split. */
  function Join(parts: seq<string>, sep: char): string
    requires parts != []
  {
    if |parts| == 1 then parts[0] else parts[0] + [sep] + Join(parts[1..], sep)
  }

  /** s.split(sep) with an explicit one-character separator: every separator
      cuts and empty pieces are kept (SplitCount, SplitPieces, SplitJoin). */
  function Split(s: string, sep: char): (parts: seq<string>)
    ensures parts != []
    decreases |s|
  {
    if s == [] then [[]]
    else
      var rest := Split(s[1..], sep);
      if s[0] == sep then [[]] + rest
      else [[s[0]] + rest[0]] + rest[1..]
  }

  /** The host and port `_build_client(*server.split(":"))` receives, or the
      exception raised before any socket exists (ParseAddressSpec). */
  function ParseAddress(server: string): (r: Result<HostPort>)
    ensures r.Ok? ==> ':' !in r.value.host
  {
    var parts := Split(server, ':');
    SplitPieces(server, ':');
    if |parts| != 2 then Err(AddressArity(server))
    else
      match ParseInt(parts[1])
      case None => Err(PortNotInteger(server))
      case Some(port) => Ok(HostPort(parts[0], port))
  }

  /** There is one piece more than separators. */
  lemma {:induction false} SplitCount(s: string, sep: char)
    ensures |Split(s, sep)| == multiset(s)[sep] + 1
    decreases |s|
  {
    if s != [] {
      SplitCount(s[1..], sep);
      assert s == [s[0]] + s[1..];
      assert multiset(s) == multiset{s[0]} + multiset(s[1..]);
    }
  }

  /** No piece holds a separator. */
  lemma {:induction false} SplitPieces(s: string, sep: char)
    ensures forall i :: 0 <= i < |Split(s, sep)| ==> sep !in Split(s, sep)[i]
    decreases |s|
  {
    if s != [] {
      SplitPieces(s[1..], sep);
    }
  }

  /** Joining the pieces gives the text back. */
  lemma {:induction false} SplitJoin(s: string, sep: char)
    ensures Join(Split(s, sep), sep) == s
    decreases |s|
  {
    if s != [] {
      var rest := Split(s[1..], sep);
      SplitJoin(s[1..], sep);
      assert s == [s[0]] + s[1..];
      if s[0] != sep && |rest| > 1 {
        assert Join(rest, sep) == rest[0] + [sep] + Join(rest[1..], sep);
      }
    }
  }

  /** Exactly one colon, else TypeError; then the host is the text before the
      colon and the port is what int() reads after it, else ValueError. */
  lemma ParseAddressSpec(server: string)
    ensures ParseAddress(server) == Err(AddressArity(server)) <==> multiset(server)[':'] != 1
    ensures ParseAddress(server) == Err(PortNotInteger(server)) <==>
      multiset(server)[':'] == 1 && ParseAddress(server).Err?
    ensures ParseAddress(server).Ok? ==>
      var a := ParseAddress(server).value;
      |a.host| < |server| && server[..|a.host|] == a.host &&
      server[|a.host|] == ':' && ':' !in a.host &&
      ParseInt(server[|a.host| + 1..]) == Some(a.port)
    ensures multiset(server)[':'] == 1 ==>
      forall i :: 0 <= i < |server| && server[i] == ':' ==>
        (ParseAddress(server).Ok? <==> ParseInt(server[i + 1..]).Some?)
  {
    var parts := Split(server, ':');
    SplitCount(server, ':');
    SplitPieces(server, ':');
    SplitJoin(server, ':');
    if |parts| == 2 {
      assert Join(parts, ':') == parts[0] + [':'] + Join(parts[1..], ':');
      assert server == parts[0] + [':'] + parts[1];
      forall i | 0 <= i < |server| && server[i] == ':'
        ensures i == |parts[0]| && server[i + 1..] == parts[1]
      {
        if i != |parts[0]| {
          assert false;
        }
      }
    }
  }

  lemma {:induction false} SplitNoSeparator(s: string, sep: char)
    requires sep !in s
    ensures Split(s, sep) == [s]
    decreases |s|
  {
    if s != [] {
      SplitNoSeparator(s[1..], sep);
      assert s == [s[0]] + s[1..];
    }
  }

  /** Split reads its input one character at a time, from the left. */
  lemma SplitCons(c: char, t: string, sep: char)
    ensures Split([c] + t, sep) ==
      if c == sep then [[]] + Split(t, sep) else [[c] + Split(t, sep)[0]] + Split(t, sep)[1..]
  {
    assert ([c] + t)[1..] == t;
  }

  lemma {:induction false} SplitOnce(a: string, b: string, sep: char)
    requires sep !in a && sep !in b
    ensures Split(a + [sep] + b, sep) == [a, b]
    decreases |a|
  {
    if a == [] {
      assert a + [sep] + b == [sep] + b;
      SplitCons(sep, b, sep);
      SplitNoSeparator(b, sep);
    } else {
      var tail := a[1..] + [sep] + b;
      assert a + [sep] + b == [a[0]] + tail;
      SplitOnce(a[1..], b, sep);
      var rest := Split(tail, sep);
      assert rest == [a[1..], b];
      SplitCons(a[0], tail, sep);
      assert Split([a[0]] + tail, sep) == [[a[0]] + a[1..]] + [b];
      assert [a[0]] + a[1..] == a;
    }
  }

  /** A colon-free host and the decimal text of a port read back as that host and port. */
  lemma ParseAddressRoundTrip(host: string, port: nat)
    requires ':' !in host
    ensures ParseAddress(host + ":" + NatToString(port)) == Ok(HostPort(host, port))
  {
    var digits := NatToString(port);
    assert ':' !in digits;
    SplitOnce(host, digits, ':');
    ParseIntOfString(port);
  }
}
