/** The address and port validators used by the login form and the server controller, and
    the port range they share. */
module NetUtil {
  import opened JavaLang

  /** `NetworkConstants.MIN_PORT` and `MAX_PORT`: the ports a server may listen on. */
  const MinPort: int := 1024
  const MaxPort: int := 65535

  /** One dotted field that `isValidIPAddress` accepts: `Integer.parseInt` succeeds and the
      value lies in 0..255. */
  predicate IsOctet(part: string)
  {
    var n := ParseInt(part);
    n.Some? && 0 <= n.value <= 255
  }

  /** What `isValidIPAddress` accepts: a non-null, non-empty string that `split("\\.")`
      cuts into exactly four octets. */
  predicate ValidAddress(ip: Option<string>)
  {
    ip.Some? && ip.value != []
    && var parts := Split(ip.value, '.');
    |parts| == 4 && forall i :: 0 <= i < 4 ==> IsOctet(parts[i])
  }

  /** `isValidIPAddress`: the loop stops at the first field that does not parse or is out
      of range. */
  method IsValidIPAddress(ip: Option<string>) returns (valid: bool)
    ensures valid <==> ValidAddress(ip)
  {
    if ip.None? || ip.value == [] {
      return false;
    }
    var parts := Split(ip.value, '.');
    if |parts| != 4 {
      return false;
    }
    var i := 0;
    while i < |parts|
      invariant 0 <= i <= |parts|
      invariant forall j :: 0 <= j < i ==> IsOctet(parts[j])
    {
      var num := ParseInt(parts[i]);
      if num.None? {
        return false;
      }
      if num.value < 0 || num.value > 255 {
        return false;
      }
      i := i + 1;
    }
    return true;
  }

  /** `isValidPort`. */
  function IsValidPort(port: int): (valid: bool)
  {
    MinPort <= port && port <= MaxPort
  }

  /** The dotted-quad text of four numbers. */
  function Dotted(a: int, b: int, c: int, d: int): string
  {
    Join(QuadFields(a, b, c, d), '.')
  }

  /** The four decimal fields of a dotted quad. */
  function QuadFields(a: int, b: int, c: int, d: int): seq<string>
  {
    [IntToString(a), IntToString(b), IntToString(c), IntToString(d)]
  }

  /** Each field of a quad in range is a non-empty octet without a dot. */
  lemma QuadFieldsAreOctets(a: int, b: int, c: int, d: int)
    requires 0 <= a <= 255 && 0 <= b <= 255 && 0 <= c <= 255 && 0 <= d <= 255
    ensures forall i :: 0 <= i < 4 ==> '.' !in QuadFields(a, b, c, d)[i]
    ensures forall i :: 0 <= i < 4 ==> QuadFields(a, b, c, d)[i] != [] && IsOctet(QuadFields(a, b, c, d)[i])
  {
    OctetField(a);
    OctetField(b);
    OctetField(c);
    OctetField(d);
  }

  /** A number in 0..255 prints as a non-empty octet without a dot. */
  lemma OctetField(n: int)
    requires 0 <= n <= 255
    ensures '.' !in IntToString(n) && IntToString(n) != [] && IsOctet(IntToString(n))
  {
    assert IntToString(n) == NatToString(n);
    ParseIntToString(n);
    assert !IsDigit('.');
  }

  /** Every address written as four numbers in 0..255 is accepted. */
  lemma DottedQuadAccepted(a: int, b: int, c: int, d: int)
    requires 0 <= a <= 255 && 0 <= b <= 255 && 0 <= c <= 255 && 0 <= d <= 255
    ensures ValidAddress(Some(Dotted(a, b, c, d)))
  {
    var fs := QuadFields(a, b, c, d);
    QuadFieldsAreOctets(a, b, c, d);
    SplitJoin(fs, '.');
    assert Dotted(a, b, c, d) != [] by {
      assert |Join(fs, '.')| >= |fs[0]|;
    }
  }

  /** An accepted address has four fields whose values are in range. */
  lemma AcceptedFieldsInRange(ip: string)
    requires ValidAddress(Some(ip))
    ensures forall i :: 0 <= i < 4 ==> 0 <= ParseInt(Split(ip, '.')[i]).value <= 255
  {
  }

  /** A text with no dot at all is never an address: `split` keeps it whole, one field. */
  lemma NoDotRejected(ip: string)
    requires '.' !in ip
    ensures !ValidAddress(Some(ip))
  {
  }

  /** The server controller's port guard rejects exactly what `isValidPort` rejects. */
  lemma PortGuardIsValidPort(port: int)
    ensures (port < MinPort || port > MaxPort) <==> !IsValidPort(port)
  {
  }

  // ---------------------------------------------------------------- a trailing dot

  /** A trailing dot is accepted: `split` drops the empty last field, so "a.b.c.d." has the
      same four fields as "a.b.c.d". */
  lemma TrailingDotAccepted(a: int, b: int, c: int, d: int)
    requires 0 <= a <= 255 && 0 <= b <= 255 && 0 <= c <= 255 && 0 <= d <= 255
    ensures ValidAddress(Some(Dotted(a, b, c, d) + "."))
  {
    var fs := QuadFields(a, b, c, d);
    var gs := fs + [""];
    var s := Dotted(a, b, c, d) + ".";
    QuadFieldsAreOctets(a, b, c, d);
    JoinEmptyLast(fs, '.');
    assert s == Join(gs, '.');
    assert forall i :: 0 <= i < |gs| ==> '.' !in gs[i];
    FieldsJoin(gs, '.');
    JoinHasSeparator(gs, '.');
    assert gs[..|gs| - 1] == fs;
    assert DropTrailingEmpty(gs) == DropTrailingEmpty(fs) == fs;
    assert Split(s, '.') == fs;
  }

  /** The validation evidently intended: exactly four dot-separated fields, no field dropped,
      each one to three plain digits with a value of at most 255. */
  predicate StrictAddress(ip: Option<string>)
  {
    ip.Some?
    && var fields := Fields(ip.value, '.');
    |fields| == 4
    && forall i :: 0 <= i < 4 ==> 1 <= |fields[i]| <= 3 && AllDigits(fields[i]) && DigitsValue(fields[i]) <= 255
  }

  /** The strict check rejects a trailing dot, which leaves five fields... */
  lemma StrictRejectsTrailingDot(ip: string)
    requires |ip| > 0 && ip[|ip| - 1] == '.'
    ensures !StrictAddress(Some(ip))
  {
    var fs := Fields(ip, '.');
    LastFieldAfterDot(ip);
    if |fs| == 4 {
      assert fs[3] == "";
    }
  }

  /** ...since a text ending in a dot has an empty last field. */
  lemma {:induction false} LastFieldAfterDot(s: string)
    requires |s| > 0 && s[|s| - 1] == '.'
    ensures Fields(s, '.')[|Fields(s, '.')| - 1] == ""
  {
    if |s| == 1 {
      assert s[1..] == "";
    } else {
      assert s[1..][|s[1..]| - 1] == '.';
      LastFieldAfterDot(s[1..]);
    }
  }

  /** Everything the strict check accepts, the source accepts too. */
  lemma StrictIsStricter(ip: Option<string>)
    requires StrictAddress(ip)
    ensures ValidAddress(ip)
  {
    var fs := Fields(ip.value, '.');
    forall i | 0 <= i < 4 ensures IsOctet(fs[i]) && fs[i] != "" {
      assert fs[i][0] != '-' && fs[i][0] != '+' by { assert IsDigit(fs[i][0]); }
    }
    assert '.' in ip.value by {
      if '.' !in ip.value { FieldsNoSeparator(ip.value, '.'); }
    }
    assert Split(ip.value, '.') == fs;
  }
}
