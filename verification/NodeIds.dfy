/** Node identities, `name@host:port`, and the tiebreak between two opposite dials. */
module NodeIds {
  import opened Common

  type Port = p: int | 0 <= p < 0x1_0000

  datatype NodeId = NodeId(name: string, host: string, port: Port) {

    /** What `Parse` can return: an identity that no other identity prints like. */
    predicate WellFormed() {
      name != "" && '@' !in name && host != ""
    }

    function Address(): string {
      host + ":" + Decimal(port)
    }

    function ToFull(): string {
      name + "@" + Address()
    }
  }

  datatype ParseError = MissingAt | MissingPort | EmptyName | EmptyHost | InvalidPort

  // ---------- parsing ----------

  /** Index of the first `c`, or `|s|` when there is none. */
  function FirstIndex(s: string, c: char): (i: nat)
    ensures i <= |s| && (i < |s| ==> s[i] == c)
    ensures forall j :: 0 <= j < i ==> s[j] != c
  {
    if s == "" then 0
    else if s[0] == c then 0
    else 1 + FirstIndex(s[1..], c)
  }

  /** Index of the last `c`, or -1 when there is none. */
  function LastIndex(s: string, c: char): (i: int)
    ensures -1 <= i < |s| && (0 <= i ==> s[i] == c)
    ensures forall j :: i < j < |s| ==> s[j] != c
  {
    if s == "" then -1
    else if s[|s| - 1] == c then |s| - 1
    else LastIndex(s[..|s| - 1], c)
  }

  predicate IsDigit(c: char) {
    '0' <= c <= '9'
  }

  predicate AllDigits(s: string) {
    forall i :: 0 <= i < |s| ==> IsDigit(s[i])
  }

  /** Base-ten value, most significant digit first. */
  function DigitsValue(s: string): nat
    requires AllDigits(s)
  {
    if s == "" then 0
    else DigitsValue(s[..|s| - 1]) * 10 + (s[|s| - 1] as int - '0' as int)
  }

  /** Rust's `u16` parser: an optional plus sign, at least one digit, leading zeros allowed, at most 65535. */
  function ParsePort(s: string): Option<Port> {
    var digits := if s != "" && s[0] == '+' then s[1..] else s;
    if digits == "" || !AllDigits(digits) || DigitsValue(digits) >= 0x1_0000 then None
    else Some(DigitsValue(digits))
  }

  function Parse(s: string): (r: Result<NodeId, ParseError>)
    ensures r.Ok? ==> r.value.WellFormed()
  {
    var at := FirstIndex(s, '@');
    if at == |s| then Err(MissingAt)
    else
      var name, addr := s[..at], s[at + 1..];
      var colon := LastIndex(addr, ':');
      if colon < 0 then Err(MissingPort)
      else if name == "" then Err(EmptyName)
      else if colon == 0 then Err(EmptyHost)
      else match ParsePort(addr[colon + 1..])
        case None => Err(InvalidPort)
        case Some(port) => Ok(NodeId(name, addr[..colon], port))
  }

  // ---------- printing ----------

  function Digit(d: nat): char
    requires d < 10
  {
    '0' + d as char
  }

  function Decimal(n: nat): (s: string)
    ensures s != "" && AllDigits(s) && DigitsValue(s) == n
  {
    if n < 10 then [Digit(n)]
    else
      var front := Decimal(n / 10);
      var s := front + [Digit(n % 10)];
      assert s[..|s| - 1] == front;
      s
  }

  lemma {:induction false} FirstIndexUnique(s: string, c: char, i: nat)
    requires i < |s| && s[i] == c && (forall j :: 0 <= j < i ==> s[j] != c)
    ensures FirstIndex(s, c) == i
  {
    if i > 0 {
      FirstIndexUnique(s[1..], c, i - 1);
    }
  }

  lemma {:induction false} LastIndexUnique(s: string, c: char, i: nat)
    requires i < |s| && s[i] == c && (forall j :: i < j < |s| ==> s[j] != c)
    ensures LastIndex(s, c) == i
  {
    if i < |s| - 1 {
      LastIndexUnique(s[..|s| - 1], c, i);
    }
  }

  /** The first `@` ends the name, ... */
  lemma SplitAt(name: string, addr: string)
    requires '@' !in name
    ensures var s := name + "@" + addr;
            FirstIndex(s, '@') == |name| < |s| && s[..|name|] == name && s[|name| + 1..] == addr
  {
    var s := name + "@" + addr;
    assert s[..|name|] == name && s[|name| + 1..] == addr;
    FirstIndexUnique(s, '@', |name|);
  }

  /** ... and the last `:` the host. */
  lemma SplitColon(host: string, port: string)
    requires ':' !in port
    ensures var addr := host + ":" + port;
            LastIndex(addr, ':') == |host| && addr[..|host|] == host && addr[|host| + 1..] == port
  {
    var addr := host + ":" + port;
    assert addr[..|host|] == host && addr[|host| + 1..] == port;
    forall j | |host| < j < |addr|
      ensures addr[j] != ':'
    {
      assert addr[j] == port[j - |host| - 1];
    }
    LastIndexUnique(addr, ':', |host|);
  }

  lemma PortPrintParse(p: Port)
    ensures ParsePort(Decimal(p)) == Some(p)
  {
    assert IsDigit(Decimal(p)[0]);
  }

  /** Numbers above 65535 are no ports, however they are printed. */
  lemma LargePortRefused(n: nat)
    ensures ParsePort(Decimal(n)) == if n < 0x1_0000 then Some(n) else None
    ensures ParsePort("+" + Decimal(n)) == ParsePort(Decimal(n))
  {
    assert IsDigit(Decimal(n)[0]);
    assert ("+" + Decimal(n))[1..] == Decimal(n);
  }

  /** Digits count in tens. */
  lemma DigitsInTens(s: string, c: char)
    requires AllDigits(s) && IsDigit(c)
    ensures AllDigits(s + [c]) && DigitsValue(s + [c]) == 10 * DigitsValue(s) + (c as int - '0' as int)
    ensures DigitsValue("9") == 9
  {
    assert (s + [c])[..|s|] == s;
  }

  lemma ParsePieces(s: string, addr: string, digits: string, id: NodeId)
    requires id.name != "" && id.host != ""
    requires FirstIndex(s, '@') == |id.name| < |s| && s[..|id.name|] == id.name && s[|id.name| + 1..] == addr
    requires LastIndex(addr, ':') == |id.host| && addr[..|id.host|] == id.host && addr[|id.host| + 1..] == digits
    requires ParsePort(digits) == Some(id.port)
    ensures Parse(s) == Ok(id)
  {
    var at, colon := FirstIndex(s, '@'), LastIndex(addr, ':');
    assert at != |s| && s[..at] == id.name && s[at + 1..] == addr;
    assert colon > 0 && addr[..colon] == id.host && ParsePort(addr[colon + 1..]) == Some(id.port);
  }

  /** What makes a text no identity, in the order it is found out. */
  lemma ParseVerdict(name: string, host: string, port: string)
    requires '@' !in name && ':' !in port
    ensures Parse(name) == Err(MissingAt) && Parse(name + "@" + port) == Err(MissingPort)
    ensures Parse(name + "@" + (host + ":" + port))
            == if name == "" then Err(EmptyName) else if host == "" then Err(EmptyHost)
               else match ParsePort(port) case None => Err(InvalidPort) case Some(p) => Ok(NodeId(name, host, p))
  {
    SplitAt(name, port);
    SplitAt(name, host + ":" + port);
    SplitColon(host, port);
  }

  /** Printing then parsing gives an identity back exactly when it is well formed. */
  lemma PrintParse(id: NodeId)
    ensures Parse(id.ToFull()) == Ok(id) <==> id.WellFormed()
  {
    if id.WellFormed() {
      SplitAt(id.name, id.Address());
      SplitColon(id.host, Decimal(id.port));
      assert id.ToFull() == id.name + "@" + id.Address();
      PortPrintParse(id.port);
      ParsePieces(id.ToFull(), id.Address(), Decimal(id.port), id);
    }
  }

  /** Whatever `Parse` accepts survives print-and-parse; the text itself need not (`+80`, `080`). */
  lemma ParsePrintParse(s: string)
    requires Parse(s).Ok?
    ensures Parse(Parse(s).value.ToFull()) == Parse(s)
  {
    PrintParse(Parse(s).value);
  }

  lemma PrintInjective(a: NodeId, b: NodeId)
    requires a.WellFormed() && b.WellFormed() && a.ToFull() == b.ToFull()
    ensures a == b
  {
    PrintParse(a);
    PrintParse(b);
  }

  /** Outside the well-formed identities printing is not injective. */
  lemma PrintNotInjective()
    ensures var a, b := NodeId("x@y", "h", 1), NodeId("x", "y@h", 1);
            a != b && a.ToFull() == b.ToFull() && b.WellFormed() && !a.WellFormed()
  {
    assert NodeId("x@y", "h", 1).ToFull() == "x@y@h:" + Decimal(1);
    assert NodeId("x", "y@h", 1).ToFull() == "x@y@h:" + Decimal(1);
  }

  // ---------- the tiebreak ----------

  /** Lexicographic order; code-point order is byte order on UTF-8. */
  predicate Less(a: string, b: string) {
    if b == "" then false
    else if a == "" then true
    else if a[0] != b[0] then a[0] < b[0]
    else Less(a[1..], b[1..])
  }

  lemma {:induction false} LessIsTotal(a: string, b: string)
    ensures a == b ==> !Less(a, b)
    ensures a != b ==> Less(a, b) != Less(b, a)
  {
    if a != "" && b != "" && a[0] == b[0] {
      LessIsTotal(a[1..], b[1..]);
      assert a == [a[0]] + a[1..] && b == [b[0]] + b[1..];
    }
  }

  /** `a` is a proper prefix of `b`, or has the smaller character where the two first differ. */
  ghost predicate Precedes(a: string, b: string) {
    exists k: nat :: PrecedesAt(a, b, k)
  }

  ghost predicate PrecedesAt(a: string, b: string, k: nat) {
    && k <= |a| && k < |b| && a[..k] == b[..k]
    && (k == |a| || a[k] < b[k])
  }

  lemma PrecedesShift(a: string, b: string, k: nat)
    requires a != "" && b != "" && a[0] == b[0]
    ensures PrecedesAt(a[1..], b[1..], k) <==> PrecedesAt(a, b, k + 1)
  {
    if k + 1 <= |a| && k + 1 <= |b| {
      assert a[..k + 1] == [a[0]] + a[1..][..k] && b[..k + 1] == [b[0]] + b[1..][..k];
      assert a[1..][..k] == a[..k + 1][1..] && b[1..][..k] == b[..k + 1][1..];
    }
  }

  lemma PrecedesFirst(a: string, b: string, k: nat)
    requires PrecedesAt(a, b, k)
    ensures k == 0 || (a != "" && b != "" && a[0] == b[0])
  {
    if k > 0 {
      assert a[..k][0] == b[..k][0];
    }
  }

  lemma {:induction false} LessIsLexicographic(a: string, b: string)
    ensures Less(a, b) <==> Precedes(a, b)
  {
    if a == "" || b == "" || a[0] != b[0] {
      if b != "" && (a == "" || a[0] < b[0]) {
        assert PrecedesAt(a, b, 0);
      }
      forall k: nat | PrecedesAt(a, b, k)
        ensures Less(a, b)
      {
        PrecedesFirst(a, b, k);
      }
    } else {
      LessIsLexicographic(a[1..], b[1..]);
      if k: nat :| PrecedesAt(a[1..], b[1..], k) {
        PrecedesShift(a, b, k);
      }
      if k: nat :| PrecedesAt(a, b, k) {
        assert k > 0;
        PrecedesShift(a, b, k - 1);
      }
    }
  }

  /** `connection_wins_tiebreak`: the connection dialed by the smaller printed id wins. */
  predicate WinsTiebreak(local: NodeId, peer: NodeId, weAreDialer: bool) {
    var dialer := if weAreDialer then local.ToFull() else peer.ToFull();
    var acceptor := if weAreDialer then peer.ToFull() else local.ToFull();
    Less(dialer, acceptor)
  }

  /** A connection wins exactly when its dialer's printed id comes first in the lexicographic order. */
  lemma WinsIffDialerPrecedes(local: NodeId, peer: NodeId)
    ensures WinsTiebreak(local, peer, true) <==> Precedes(local.ToFull(), peer.ToFull())
    ensures WinsTiebreak(local, peer, false) <==> Precedes(peer.ToFull(), local.ToFull())
  {
    LessIsLexicographic(local.ToFull(), peer.ToFull());
    LessIsLexicographic(peer.ToFull(), local.ToFull());
  }

  /** Both ends name the same winner among the two opposite dials, and there is exactly one. */
  lemma TiebreakAgrees(a: NodeId, b: NodeId)
    requires a.WellFormed() && b.WellFormed() && a != b
    ensures WinsTiebreak(a, b, true) == WinsTiebreak(b, a, false)
    ensures WinsTiebreak(b, a, true) == WinsTiebreak(a, b, false)
    ensures WinsTiebreak(a, b, true) != WinsTiebreak(b, a, true)
  {
    if a.ToFull() == b.ToFull() {
      PrintInjective(a, b);
    }
    LessIsTotal(a.ToFull(), b.ToFull());
  }
}
