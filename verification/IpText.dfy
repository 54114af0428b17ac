/** Reading an IPv4 address out of running text (`ipFromText` in internal/service/agents.go).
    A token of digits and dots is an address when it is a dotted quad in the sense of
    section 3.2.2 of RFC 3986, which is what `net.ParseIP` accepts of such tokens. */
module IpText {
  import opened Strings

  predicate IsDigit(c: char) { '0' <= c <= '9' }

  predicate IsIpChar(c: char) { c == '.' || IsDigit(c) }

  /** The characters of a token, one by one. */
  lemma IpCharExact(c: char)
    ensures IsIpChar(c) <==> c in "0123456789."
  {
    assert "0123456789." == ['0', '1', '2', '3', '4', '5', '6', '7', '8', '9', '.'];
  }

  // ------------------------------------------------------------- dotted quads

  newtype Octet = n: int | 0 <= n < 256

  function Digit(n: int): char
    requires 0 <= n < 10
  {
    (n + '0' as int) as char
  }

  function PrintOctet(n: Octet): string {
    var v := n as int;
    if v < 10 then [Digit(v)]
    else if v < 100 then [Digit(v / 10), Digit(v % 10)]
    else [Digit(v / 100), Digit(v / 10 % 10), Digit(v % 10)]
  }

  function PrintQuad(a: Octet, b: Octet, c: Octet, d: Octet): string {
    PrintOctet(a) + "." + PrintOctet(b) + "." + PrintOctet(c) + "." + PrintOctet(d)
  }

  function Value(s: string): int
    requires forall i :: 0 <= i < |s| ==> IsDigit(s[i])
  {
    if s == "" then 0 else 10 * Value(s[..|s| - 1]) + (s[|s| - 1] as int - '0' as int)
  }

  /** `dec-octet`: one to three digits, no leading zero, at most 255. */
  predicate IsOctet(s: string) {
    && 1 <= |s| <= 3
    && (forall i :: 0 <= i < |s| ==> IsDigit(s[i]))
    && (|s| > 1 ==> s[0] != '0')
    && Value(s) <= 255
  }

  predicate IsQuad(token: string) {
    var fields := Split(token, '.');
    |fields| == 4 && IsOctet(fields[0]) && IsOctet(fields[1]) && IsOctet(fields[2]) && IsOctet(fields[3])
  }

  lemma ValueOfThree(s: string)
    requires 1 <= |s| <= 3 && forall i :: 0 <= i < |s| ==> IsDigit(s[i])
    ensures |s| == 1 ==> Value(s) == s[0] as int - 48
    ensures |s| == 2 ==> Value(s) == 10 * (s[0] as int - 48) + (s[1] as int - 48)
    ensures |s| == 3 ==> Value(s) == 100 * (s[0] as int - 48) + 10 * (s[1] as int - 48) + (s[2] as int - 48)
  {
    if |s| == 2 {
      assert s[..1][..0] == "";
    } else if |s| == 3 {
      assert s[..2][..1][..0] == "" && s[..2][..1] == s[..1];
    }
  }

  lemma DigitOfChar(c: char)
    requires IsDigit(c)
    ensures 0 <= c as int - 48 < 10 && Digit(c as int - 48) == c
  {
  }

  lemma OctetIsPrinted(s: string) returns (n: Octet)
    requires IsOctet(s)
    ensures s == PrintOctet(n)
  {
    ValueOfThree(s);
    n := Value(s) as Octet;
    hide Value, Digit;
    DigitOfChar(s[0]);
    if |s| == 2 {
      DigitOfChar(s[1]);
      assert s == [s[0], s[1]];
    } else if |s| == 3 {
      DigitOfChar(s[1]);
      DigitOfChar(s[2]);
      assert s == [s[0], s[1], s[2]];
    }
  }

  lemma PrintedIsOctet(n: Octet)
    ensures IsOctet(PrintOctet(n))
  {
    ValueOfThree(PrintOctet(n));
  }

  lemma PrintOctetShape(n: Octet)
    ensures IsOctet(PrintOctet(n)) && '.' !in PrintOctet(n)
    ensures forall c :: c in PrintOctet(n) ==> IsIpChar(c)
  {
    PrintedIsOctet(n);
  }

  lemma PrintedIsQuad(a: Octet, b: Octet, c: Octet, d: Octet)
    ensures IsQuad(PrintQuad(a, b, c, d))
  {
    PrintOctetShape(a); PrintOctetShape(b); PrintOctetShape(c); PrintOctetShape(d);
    var f := [PrintOctet(a), PrintOctet(b), PrintOctet(c), PrintOctet(d)];
    JoinFour(f);
    SplitJoin(f, '.');
  }

  lemma QuadIsPrinted(token: string) returns (a: Octet, b: Octet, c: Octet, d: Octet)
    requires IsQuad(token)
    ensures token == PrintQuad(a, b, c, d)
  {
    var f := Split(token, '.');
    a := OctetIsPrinted(f[0]);
    b := OctetIsPrinted(f[1]);
    c := OctetIsPrinted(f[2]);
    d := OctetIsPrinted(f[3]);
    JoinSplit(token, '.');
    JoinFour(f);
  }

  /** The tokens that count as addresses are exactly the canonical dotted quads. */
  lemma QuadPrinted(token: string)
    ensures IsQuad(token) <==> exists a, b, c, d: Octet :: token == PrintQuad(a, b, c, d)
  {
    if IsQuad(token) {
      var a, b, c, d := QuadIsPrinted(token);
    }
    forall a, b, c, d: Octet | token == PrintQuad(a, b, c, d) ensures IsQuad(token) {
      PrintedIsQuad(a, b, c, d);
    }
  }

  lemma JoinFour(f: seq<string>)
    requires |f| == 4
    ensures Join(f, '.') == f[0] + "." + f[1] + "." + f[2] + "." + f[3]
  {
    assert f[1..][1..][1..] == [f[3]];
    assert Join(f[1..][1..], '.') == f[2] + "." + f[3];
    assert Join(f[1..], '.') == f[1] + "." + (f[2] + "." + f[3]);
  }

  lemma QuadChars(token: string)
    requires IsQuad(token)
    ensures token != "" && forall i :: 0 <= i < |token| ==> IsIpChar(token[i])
  {
    var a, b, c, d := QuadIsPrinted(token);
    PrintOctetShape(a); PrintOctetShape(b); PrintOctetShape(c); PrintOctetShape(d);
    forall i | 0 <= i < |token| ensures IsIpChar(token[i]) {
      assert token[i] in PrintOctet(a) || token[i] == '.' || token[i] in PrintOctet(b)
          || token[i] in PrintOctet(c) || token[i] in PrintOctet(d);
    }
  }

  // ----------------------------------------------------------------- the scan

  function RunLength(text: string): (n: nat)
    ensures n <= |text| && (text != "" && IsIpChar(text[0]) ==> n > 0)
    ensures forall i :: 0 <= i < n ==> IsIpChar(text[i])
    ensures n < |text| ==> !IsIpChar(text[n])
  {
    if text == "" || !IsIpChar(text[0]) then 0 else 1 + RunLength(text[1..])
  }

  /** `strings.FieldsFunc` cutting at everything but digits and dots. */
  function Fields(text: string): seq<string>
    decreases |text|
  {
    if text == "" then []
    else if !IsIpChar(text[0]) then Fields(text[1..])
    else
      var n := RunLength(text);
      [text[..n]] + Fields(text[n..])
  }

  function FirstQuad(tokens: seq<string>): string {
    if tokens == [] then "" else if IsQuad(tokens[0]) then tokens[0] else FirstQuad(tokens[1..])
  }

  function IpFromText(text: string): string { FirstQuad(Fields(text)) }

  // ------------------------------------------- what the scan means in the text

  /** text[i..j] is a run of digits and dots that cannot be extended either way. */
  ghost predicate MaximalRun(text: string, i: nat, j: nat) {
    && i < j <= |text|
    && (forall k :: i <= k < j ==> IsIpChar(text[k]))
    && (i == 0 || !IsIpChar(text[i - 1]))
    && (j == |text| || !IsIpChar(text[j]))
  }

  /** `ip` is the leftmost maximal run that is a dotted quad. */
  ghost predicate LeftmostQuad(text: string, ip: string) {
    exists i: nat, j: nat ::
      && MaximalRun(text, i, j) && text[i..j] == ip && IsQuad(ip)
      && forall i': nat, j': nat :: MaximalRun(text, i', j') && i' < i ==> !IsQuad(text[i'..j'])
  }

  ghost predicate NoQuad(text: string) {
    forall i: nat, j: nat :: MaximalRun(text, i, j) ==> !IsQuad(text[i..j])
  }

  lemma RunsOfSuffix(text: string, n: nat, i: nat, j: nat)
    requires 0 < n <= |text| && (n == |text| || !IsIpChar(text[n]) || !IsIpChar(text[n - 1]))
    ensures MaximalRun(text[n..], i, j) <==> MaximalRun(text, i + n, j + n)
    ensures MaximalRun(text[n..], i, j) ==> text[n..][i..j] == text[i + n..j + n]
  {
    var rest := text[n..];
    if MaximalRun(rest, i, j) {
      assert forall k :: i + n <= k < j + n ==> text[k] == rest[k - n];
      assert i > 0 ==> rest[i - 1] == text[i + n - 1];
      assert i == 0 ==> IsIpChar(rest[0]);
    }
    if MaximalRun(text, i + n, j + n) {
      assert forall k :: i <= k < j ==> rest[k] == text[k + n];
    }
  }

  /** How far one step of the scan moves. */
  function ScanStep(text: string): (n: nat)
    requires text != ""
    ensures 0 < n <= |text| && (n == |text| || !IsIpChar(text[n]) || !IsIpChar(text[n - 1]))
  {
    if IsIpChar(text[0]) then RunLength(text) else 1
  }

  /** The runs of a text are its leading run and the runs of what the step leaves. */
  lemma RunsOfText(text: string, i: nat, j: nat)
    requires text != "" && MaximalRun(text, i, j)
    ensures i < ScanStep(text) ==> i == 0 && j == ScanStep(text) && IsIpChar(text[0])
    ensures i >= ScanStep(text) ==>
              MaximalRun(text[ScanStep(text)..], i - ScanStep(text), j - ScanStep(text))
              && text[ScanStep(text)..][i - ScanStep(text)..j - ScanStep(text)] == text[i..j]
  {
    var n := ScanStep(text);
    if i >= n {
      RunsOfSuffix(text, n, i - n, j - n);
    } else if IsIpChar(text[0]) {
      assert forall k :: 0 <= k < n ==> IsIpChar(text[k]);
    }
  }

  /** The scan returns "" only when no run is a quad. */
  lemma {:induction false} ScanMissesNothing(text: string)
    requires IpFromText(text) == ""
    ensures NoQuad(text)
    decreases |text|
  {
    if text != "" {
      var n := ScanStep(text);
      if IsIpChar(text[0]) {
        assert !IsQuad(text[..n]) by { if IsQuad(text[..n]) { QuadChars(text[..n]); } }
        assert Fields(text)[1..] == Fields(text[n..]);
      }
      ScanMissesNothing(text[n..]);
      forall i: nat, j: nat | MaximalRun(text, i, j) ensures !IsQuad(text[i..j]) {
        RunsOfText(text, i, j);
      }
    }
  }

  lemma {:induction false} ScanFinds(text: string) returns (i: nat, j: nat)
    requires IpFromText(text) != ""
    ensures MaximalRun(text, i, j) && text[i..j] == IpFromText(text) && IsQuad(text[i..j])
    ensures forall i': nat, j': nat :: MaximalRun(text, i', j') && i' < i ==> !IsQuad(text[i'..j'])
    decreases |text|
  {
    var n := ScanStep(text);
    if IsIpChar(text[0]) && IsQuad(text[..n]) {
      i, j := 0, n;
    } else {
      if IsIpChar(text[0]) { assert Fields(text)[1..] == Fields(text[n..]); }
      var k, l := ScanFinds(text[n..]);
      RunsOfSuffix(text, n, k, l);
      i, j := k + n, l + n;
      forall i': nat, j': nat | MaximalRun(text, i', j') && i' < i ensures !IsQuad(text[i'..j']) {
        RunsOfText(text, i', j');
      }
    }
  }

  lemma QuadsAreUnique(text: string, ip: string, ip': string)
    requires LeftmostQuad(text, ip) && LeftmostQuad(text, ip')
    ensures ip == ip'
  {
    var i: nat, j: nat :| MaximalRun(text, i, j) && text[i..j] == ip && IsQuad(ip)
      && forall k: nat, l: nat :: MaximalRun(text, k, l) && k < i ==> !IsQuad(text[k..l]);
    var i': nat, j': nat :| MaximalRun(text, i', j') && text[i'..j'] == ip' && IsQuad(ip')
      && forall k: nat, l: nat :: MaximalRun(text, k, l) && k < i' ==> !IsQuad(text[k..l]);
    assert i == i';
    assert forall k :: i <= k < j ==> IsIpChar(text[k]);
    assert forall k :: i <= k < j' ==> IsIpChar(text[k]);
  }

  /** The scan finds the leftmost dotted quad and nothing else, and returns "" exactly when there is none. */
  lemma IpFromTextExact(text: string, ip: string)
    requires ip != ""
    ensures IpFromText(text) == ip <==> LeftmostQuad(text, ip)
    ensures IpFromText(text) == "" <==> NoQuad(text)
  {
    if IpFromText(text) == "" {
      ScanMissesNothing(text);
    } else {
      var i, j := ScanFinds(text);
      if LeftmostQuad(text, ip) { QuadsAreUnique(text, ip, IpFromText(text)); }
    }
  }

  // ------------------------------------------------------ printing into a text

  lemma {:induction false} RunLengthOfConcat(x: string, y: string)
    requires x == "" || y == "" || !IsIpChar(x[|x| - 1]) || !IsIpChar(y[0])
    requires x != ""
    ensures RunLength(x + y) == RunLength(x)
  {
    assert (x + y)[1..] == x[1..] + y;
    if IsIpChar(x[0]) {
      if |x| == 1 {
        assert x[1..] + y == y;
      } else {
        RunLengthOfConcat(x[1..], y);
      }
    }
  }

  lemma SlicesOfConcat(x: string, y: string, n: nat)
    requires n <= |x|
    ensures (x + y)[..n] == x[..n] && (x + y)[n..] == x[n..] + y
  {
  }

  /** The first token of a text that begins with one, and the rest. */
  lemma FieldsStart(text: string)
    requires text != "" && IsIpChar(text[0])
    ensures 0 < RunLength(text) <= |text|
    ensures Fields(text) == [text[..RunLength(text)]] + Fields(text[RunLength(text)..])
  {
  }

  /** Cutting between two characters that are not both digits or dots cuts the token list. */
  lemma {:induction false} FieldsOfConcat(x: string, y: string)
    requires x == "" || y == "" || !IsIpChar(x[|x| - 1]) || !IsIpChar(y[0])
    ensures Fields(x + y) == Fields(x) + Fields(y)
    decreases |x|
  {
    if x == "" {
      assert x + y == y;
    } else if !IsIpChar(x[0]) {
      FieldsOfConcat(x[1..], y);
      SlicesOfConcat(x, y, 1);
    } else {
      hide Fields, RunLength, IsIpChar;
      FieldsStart(x);
      FieldsStart(x + y);
      RunLengthOfConcat(x, y);
      var n := RunLength(x);
      SlicesOfConcat(x, y, n);
      FieldsOfConcat(x[n..], y);
      assert [x[..n]] + (Fields(x[n..]) + Fields(y)) == ([x[..n]] + Fields(x[n..])) + Fields(y);
    }
  }

  lemma {:induction false} FirstQuadOfConcat(s: seq<string>, t: seq<string>)
    ensures FirstQuad(s + t) == if FirstQuad(s) != "" then FirstQuad(s) else FirstQuad(t)
  {
    if s == [] {
      assert s + t == t;
    } else {
      FirstQuadOfConcat(s[1..], t);
      assert (s + t)[1..] == s[1..] + t;
      if IsQuad(s[0]) { QuadChars(s[0]); }
    }
  }

  lemma {:induction false} NoFields(s: string)
    requires forall i :: 0 <= i < |s| ==> !IsIpChar(s[i])
    ensures Fields(s) == []
  {
    if s != "" { NoFields(s[1..]); }
  }

  /** A text framed by words without digits or dots reads the same as the text alone. */
  lemma IpFromFramedText(a: string, x: string, b: string)
    requires forall i :: 0 <= i < |a| ==> !IsIpChar(a[i])
    requires forall i :: 0 <= i < |b| ==> !IsIpChar(b[i])
    ensures IpFromText(a + x + b) == IpFromText(x)
  {
    FieldsOfConcat(a, x);
    FieldsOfConcat(a + x, b);
    NoFields(a);
    NoFields(b);
    assert Fields(a + x + b) == [] + Fields(x) + [] == Fields(x);
  }

  /** A text is read back whole exactly when it is a dotted quad. */
  lemma ReadsWhole(x: string)
    requires x != ""
    ensures IpFromText(x) == x <==> IsQuad(x)
  {
    if IsQuad(x) {
      QuadChars(x);
      assert x[..|x|] == x && x[|x|..] == "";
      assert Fields(x) == [x];
    } else {
      if IpFromText(x) == x { var i, j := ScanFinds(x); }
    }
  }

  /** Print any four octets into a text whose neighbouring characters are neither digits nor dots
      and whose left part holds no address: parsing returns the printed text. */
  lemma PrintThenRead(left: string, a: Octet, b: Octet, c: Octet, d: Octet, right: string)
    requires left == "" || !IsIpChar(left[|left| - 1])
    requires right == "" || !IsIpChar(right[0])
    requires IpFromText(left) == ""
    ensures IpFromText(left + PrintQuad(a, b, c, d) + right) == PrintQuad(a, b, c, d)
  {
    var ip := PrintQuad(a, b, c, d);
    PrintedIsQuad(a, b, c, d);
    QuadChars(ip);
    ReadsWhole(ip);
    FieldsOfConcat(left, ip);
    FieldsOfConcat(left + ip, right);
    FirstQuadOfConcat(Fields(left), Fields(ip));
    FirstQuadOfConcat(Fields(left) + Fields(ip), Fields(right));
  }
}
