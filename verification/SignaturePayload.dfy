/** The signed text of agent/auth/auth.go and the nonce key, with the parsers that
    undo them. A `string` here is a Go string: one char per byte. */
module SignaturePayload {
  import opened Bytes

  datatype Fields = Fields(
    instanceID: string, computationID: string, role: string, method_: string, issuedAt: string, nonce: string)

  const VERSION := "agents-secure-binding-agent-auth-v3"

  // ----- Decimal numbers -----

  function Digit(d: nat): char
    requires d < 10
  {
    "0123456789"[d]
  }

  predicate IsDigit(c: char) {
    '0' <= c <= '9'
  }

  function Decimal(n: nat): (s: string)
    ensures s != [] && forall i :: 0 <= i < |s| ==> IsDigit(s[i])
  {
    if n < 10 then [Digit(n)] else Decimal(n / 10) + [Digit(n % 10)]
  }

  function ParseDecimal(s: string): Option<nat> {
    if s == [] then None
    else if !IsDigit(s[|s| - 1]) then None
    else
      var d := s[|s| - 1] as nat - '0' as nat;
      if |s| == 1 then Some(d) else
      match ParseDecimal(s[..|s| - 1])
      case None => None
      case Some(n) => Some(10 * n + d)
  }

  lemma {:induction false} DecimalParses(n: nat)
    ensures ParseDecimal(Decimal(n)) == Some(n)
  {
    if n >= 10 {
      DecimalParses(n / 10);
      assert Decimal(n)[..|Decimal(n)| - 1] == Decimal(n / 10);
    }
  }

  // ----- Reading from the front -----

  function Expect(prefix: string, s: string): Option<string> {
    if prefix <= s then Some(s[|prefix|..]) else None
  }

  /** The text before and after the first `c`. */
  function SplitAt(s: string, c: char): (r: Option<(string, string)>)
    ensures r.Some? ==> c !in r.value.0 && s == r.value.0 + [c] + r.value.1
  {
    if s == [] then None
    else if s[0] == c then Some(([], s[1..]))
    else match SplitAt(s[1..], c)
         case None => None
         case Some((a, b)) => Some(([s[0]] + a, b))
  }

  lemma Expects(prefix: string, s: string)
    ensures Expect(prefix, prefix + s) == Some(s)
  {
  }

  lemma {:induction false} Splits(a: string, c: char, b: string)
    requires c !in a
    ensures SplitAt(a + [c] + b, c) == Some((a, b))
  {
    var s := a + [c] + b;
    if a == [] {
      assert s[0] == c && s[1..] == b;
    } else {
      Splits(a[1..], c, b);
      assert s[0] == a[0] && s[1..] == a[1..] + [c] + b;
      assert [a[0]] + a[1..] == a;
    }
  }

  /** A text preceded by its decimal length and a colon. */
  function Sized(s: string): string {
    Decimal(|s|) + ":" + s
  }

  function TakeSized(s: string): Option<(string, string)> {
    match SplitAt(s, ':')
    case None => None
    case Some((digits, rest)) =>
      match ParseDecimal(digits)
      case None => None
      case Some(n) => if n <= |rest| then Some((rest[..n], rest[n..])) else None
  }

  lemma TakesSized(s: string, rest: string)
    ensures TakeSized(Sized(s) + rest) == Some((s, rest))
  {
    var digits := Decimal(|s|);
    assert forall i :: 0 <= i < |digits| ==> digits[i] != ':';
    Splits(digits, ':', s + rest);
    assert Sized(s) + rest == digits + [':'] + (s + rest);
    DecimalParses(|s|);
  }

  // ----- The payload -----

  function Tail(f: Fields): string {
    "\nrole=" + (f.role + "\n" + ("method=" + (f.method_ + "\n" + ("issued_at=" + (f.issuedAt + "\n" + ("nonce=" + f.nonce))))))
  }

  function Payload(f: Fields): string {
    VERSION + "\ninstance_id=" + (Sized(f.instanceID) + ("\ncomputation_id=" + (Sized(f.computationID) + Tail(f))))
  }

  /** One `name=value` line. */
  function TakeLine(name: string, s: string): (r: Option<(string, string)>)
    ensures r.Some? ==> '\n' !in r.value.0
  {
    match Expect(name, s)
    case None => None
    case Some(rest) => SplitAt(rest, '\n')
  }

  lemma TakesLine(name: string, value: string, rest: string)
    requires '\n' !in value
    ensures TakeLine(name, name + (value + "\n" + rest)) == Some((value, rest))
  {
    Expects(name, value + "\n" + rest);
    Splits(value, '\n', rest);
  }

  function ParseTail(instanceID: string, computationID: string, s: string): (r: Option<Fields>)
    ensures r.Some? ==> LinesAreLines(r.value)
  {
    match TakeLine("\nrole=", s)
    case None => None
    case Some((role, s1)) =>
      match TakeLine("method=", s1)
      case None => None
      case Some((method_, s2)) =>
        match TakeLine("issued_at=", s2)
        case None => None
        case Some((issuedAt, s3)) =>
          match Expect("nonce=", s3)
          case None => None
          case Some(nonce) => Some(Fields(instanceID, computationID, role, method_, issuedAt, nonce))
  }

  function Parse(s: string): (r: Option<Fields>)
    ensures r.Some? ==> LinesAreLines(r.value)
  {
    match Expect("agents-secure-binding-agent-auth-v3\ninstance_id=", s)
    case None => None
    case Some(s1) =>
      match TakeSized(s1)
      case None => None
      case Some((instanceID, s2)) =>
        match Expect("\ncomputation_id=", s2)
        case None => None
        case Some(s3) =>
          match TakeSized(s3)
          case None => None
          case Some((computationID, s4)) => ParseTail(instanceID, computationID, s4)
  }

  /** Role, method and issue time are single lines. */
  predicate LinesAreLines(f: Fields) {
    '\n' !in f.role && '\n' !in f.method_ && '\n' !in f.issuedAt
  }

  lemma TailParses(f: Fields)
    requires LinesAreLines(f)
    ensures ParseTail(f.instanceID, f.computationID, Tail(f)) == Some(f)
  {
    hide SplitAt, TakeLine, Expect;
    var s3 := "nonce=" + f.nonce;
    var s2 := "issued_at=" + (f.issuedAt + "\n" + s3);
    var s1 := "method=" + (f.method_ + "\n" + s2);
    TakesLine("\nrole=", f.role, s1);
    TakesLine("method=", f.method_, s2);
    TakesLine("issued_at=", f.issuedAt, s3);
    Expects("nonce=", f.nonce);
  }

  /** All six fields come back out of the text exactly when role, method and issue
      time contain no newline; instance, computation and nonce may be anything. */
  lemma PayloadParses(f: Fields)
    ensures Parse(Payload(f)) == Some(f) <==> LinesAreLines(f)
  {
    hide Tail, ParseTail, Expect, TakeSized;
    if LinesAreLines(f) {
      TailParses(f);
      var s4 := Tail(f);
      var s3 := Sized(f.computationID) + s4;
      var s2 := "\ncomputation_id=" + s3;
      assert VERSION + "\ninstance_id=" == "agents-secure-binding-agent-auth-v3\ninstance_id=";
      Expects("agents-secure-binding-agent-auth-v3\ninstance_id=", Sized(f.instanceID) + s2);
      TakesSized(f.instanceID, s2);
      Expects("\ncomputation_id=", s3);
      TakesSized(f.computationID, s4);
    }
  }

  /** So one signed text stands for one request. */
  lemma PayloadInjective(f: Fields, g: Fields)
    ensures LinesAreLines(f) && LinesAreLines(g) && Payload(f) == Payload(g) ==> f == g
  {
    hide Payload, Parse;
    PayloadParses(f);
    PayloadParses(g);
  }

  /** With a newline in the role, two requests share one text. */
  lemma NewlineIsAmbiguous(f: Fields)
    ensures
      var a := f.(role := f.role + "\nmethod=" + f.nonce);
      var b := f.(method_ := f.nonce + "\nmethod=" + f.method_);
      Payload(a) == Payload(b) && a != b
  {
    var rest := "issued_at=" + (f.issuedAt + "\n" + ("nonce=" + f.nonce));
    assert Tail(f.(role := f.role + "\nmethod=" + f.nonce))
        == Tail(f.(method_ := f.nonce + "\nmethod=" + f.method_)) by {
      var l := (f.role + "\nmethod=" + f.nonce) + "\n" + ("method=" + (f.method_ + "\n" + rest));
      var r := f.role + "\n" + ("method=" + ((f.nonce + "\nmethod=" + f.method_) + "\n" + rest));
      assert "\nmethod=" == "\n" + "method=";
      assert l == r;
    }
  }

  // ----- The nonce key -----

  function NonceKey(role: string, method_: string, nonce: string): string {
    role + ['\0'] + (method_ + ['\0'] + nonce)
  }

  /** The key identifies role, method and nonce, as long as role and method hold no NUL. */
  lemma NonceKeyInjective(r: string, m: string, n: string, r': string, m': string, n': string)
    requires '\0' !in r && '\0' !in m && '\0' !in r' && '\0' !in m'
    ensures NonceKey(r, m, n) == NonceKey(r', m', n') <==> r == r' && m == m' && n == n'
  {
    hide SplitAt;
    Splits(r, '\0', m + ['\0'] + n);
    Splits(r', '\0', m' + ['\0'] + n');
    Splits(m, '\0', n);
    Splits(m', '\0', n');
  }
}
