/** Strings: splitting and joining, decimal and hexadecimal digits, key order. */
module Text {
  import opened Common

  newtype byte = x: int | 0 <= x < 256
  type Bytes = seq<byte>

  // ---------- cutting, splitting, joining ----------

  /** The parts before and after the first `sep`, and whether there was one. */
  function Cut(s: string, sep: char): (r: (string, string, bool))
    ensures r.2 ==> sep !in r.0 && s == r.0 + [sep] + r.1
    ensures !r.2 ==> r.0 == s && r.1 == "" && sep !in s
  {
    if s == "" then ("", "", false)
    else if s[0] == sep then ("", s[1..], true)
    else
      var (before, after, found) := Cut(s[1..], sep);
      assert s == [s[0]] + s[1..];
      ([s[0]] + before, after, found)
  }

  lemma {:induction false} CutAtFirst(a: string, b: string, sep: char)
    requires sep !in a
    ensures Cut(a + [sep] + b, sep) == (a, b, true)
    decreases |a|
  {
    var s := a + [sep] + b;
    if a == "" {
      assert s[1..] == b;
    } else {
      assert s[1..] == a[1..] + [sep] + b;
      CutAtFirst(a[1..], b, sep);
      assert [a[0]] + a[1..] == a;
    }
  }

  function Split(s: string, sep: char): (parts: seq<string>)
    ensures |parts| >= 1
    ensures forall i :: 0 <= i < |parts| ==> sep !in parts[i]
    decreases |s|
  {
    var (before, after, found) := Cut(s, sep);
    if found then [before] + Split(after, sep) else [s]
  }

  function Join(parts: seq<string>, sep: char): string {
    if parts == [] then ""
    else if |parts| == 1 then parts[0]
    else parts[0] + [sep] + Join(parts[1..], sep)
  }

  lemma {:induction false} JoinOfSplit(s: string, sep: char)
    ensures Join(Split(s, sep), sep) == s
    decreases |s|
  {
    var (before, after, found) := Cut(s, sep);
    if found {
      JoinOfSplit(after, sep);
      assert ([before] + Split(after, sep))[1..] == Split(after, sep);
    }
  }

  lemma {:induction false} SplitOfJoin(parts: seq<string>, sep: char)
    requires parts != [] && forall i :: 0 <= i < |parts| ==> sep !in parts[i]
    ensures Split(Join(parts, sep), sep) == parts
    decreases |parts|
  {
    if |parts| > 1 {
      CutAtFirst(parts[0], Join(parts[1..], sep), sep);
      SplitOfJoin(parts[1..], sep);
    }
  }

  // ---------- bucket paths ----------

  /** The stored form of a bucket path; there is none for the empty path. */
  function JoinPath(path: seq<string>): Option<string> {
    if path == [] then None else Some(Join(path, '/'))
  }

  /** A joined path can be taken apart again exactly when no segment contains the
      separator; so distinct paths of such segments never share documents. */
  lemma PathIsRecoverable(path: seq<string>)
    requires path != []
    ensures Split(JoinPath(path).value, '/') == path <==> forall i :: 0 <= i < |path| ==> '/' !in path[i]
  {
    if forall i :: 0 <= i < |path| ==> '/' !in path[i] {
      SplitOfJoin(path, '/');
    }
  }

  /** Any other path shares its documents with another path. */
  lemma SlashedPathCollides(path: seq<string>)
    requires exists i :: 0 <= i < |path| && '/' in path[i]
    ensures exists other :: other != path && JoinPath(other) == JoinPath(path)
  {
    var other := Split(Join(path, '/'), '/');
    JoinOfSplit(Join(path, '/'), '/');
    assert other != path && JoinPath(other) == JoinPath(path);
  }

  lemma DistinctPathsStayDistinct(a: seq<string>, b: seq<string>)
    requires forall i :: 0 <= i < |a| ==> '/' !in a[i]
    requires forall i :: 0 <= i < |b| ==> '/' !in b[i]
    ensures JoinPath(a) == JoinPath(b) <==> a == b
  {
    if a != [] && b != [] && JoinPath(a) == JoinPath(b) {
      PathIsRecoverable(a);
      PathIsRecoverable(b);
    }
  }

  // ---------- decimal ----------

  function Digit(d: nat): char
    requires d < 10
  {
    '0' + (d as char)
  }

  function Decimal(n: nat): (s: string)
    ensures |s| >= 1
  {
    if n < 10 then [Digit(n)] else Decimal(n / 10) + [Digit(n % 10)]
  }

  function DigitValue(c: char): Option<nat> {
    if '0' <= c <= '9' then Some((c as int) - ('0' as int)) else None
  }

  function ParseDigits(s: string): Option<nat>
    decreases |s|
  {
    if s == "" then Some(0)
    else
      var high, low := ParseDigits(s[..|s| - 1]), DigitValue(s[|s| - 1]);
      if high.Some? && low.Some? then Some(high.value * 10 + low.value) else None
  }

  /** Decimal integers with an optional sign; at least one digit. */
  function ParseInteger(s: string): Option<int> {
    var negative := s != "" && s[0] == '-';
    var digits := if s != "" && (s[0] == '-' || s[0] == '+') then s[1..] else s;
    var magnitude := ParseDigits(digits);
    if digits == "" || magnitude.None? then None
    else Some(if negative then -(magnitude.value as int) else magnitude.value as int)
  }

  lemma {:induction false} DigitsOfDecimal(n: nat)
    ensures ParseDigits(Decimal(n)) == Some(n)
    ensures forall i :: 0 <= i < |Decimal(n)| ==> '0' <= Decimal(n)[i] <= '9'
  {
    if n >= 10 {
      DigitsOfDecimal(n / 10);
      var s := Decimal(n);
      assert s[..|s| - 1] == Decimal(n / 10);
    } else {
      assert Decimal(n)[..0] == "";
    }
  }

  lemma IntegerOfDecimal(n: nat)
    ensures ParseInteger(Decimal(n)) == Some(n)
  {
    DigitsOfDecimal(n);
  }

  lemma DecimalIsInjective(a: nat, b: nat)
    ensures Decimal(a) == Decimal(b) <==> a == b
  {
    DigitsOfDecimal(a);
    DigitsOfDecimal(b);
  }

  // ---------- zero-padded keys and their order ----------

  const SEQ_KEY_WIDTH: nat := 20

  function Zeros(n: nat): (s: string)
    ensures |s| == n
  {
    if n == 0 then "" else "0" + Zeros(n - 1)
  }

  /** At least twenty digits, padded on the left with zeros. */
  function SeqKey(n: nat): string {
    var s := Decimal(n);
    if |s| >= SEQ_KEY_WIDTH then s else Zeros(SEQ_KEY_WIDTH - |s|) + s
  }

  function Power10(w: nat): (r: nat)
    ensures r >= 1
  {
    if w == 0 then 1 else 10 * Power10(w - 1)
  }

  /** Exactly `w` digits. */
  function Fixed(n: nat, w: nat): (s: string)
    ensures |s| == w
    decreases w
  {
    if w == 0 then "" else Fixed(n / 10, w - 1) + [Digit(n % 10)]
  }

  /** The order in which a store lists its keys. */
  predicate Before(a: string, b: string) {
    if b == "" then false
    else if a == "" then true
    else if a[0] != b[0] then a[0] < b[0]
    else Before(a[1..], b[1..])
  }

  lemma {:induction false} FixedOfZero(w: nat)
    ensures Fixed(0, w) == Zeros(w)
  {
    if w > 0 {
      FixedOfZero(w - 1);
      ZerosCommute(w - 1);
    }
  }

  lemma {:induction false} ZerosCommute(n: nat)
    ensures Zeros(n) + "0" == "0" + Zeros(n)
  {
    if n > 0 {
      ZerosCommute(n - 1);
      assert Zeros(n) + "0" == "0" + (Zeros(n - 1) + "0");
    }
  }

  lemma {:induction false} PaddedIsFixed(n: nat, w: nat)
    requires n < Power10(w)
    ensures |Decimal(n)| <= w || (w == 0 && n == 0)
    ensures w > 0 ==> Zeros(w - |Decimal(n)|) + Decimal(n) == Fixed(n, w)
    decreases w
  {
    if w > 0 {
      if n < 10 {
        FixedOfZero(w - 1);
      } else {
        PaddedIsFixed(n / 10, w - 1);
        var pad := Zeros(w - |Decimal(n)|);
        assert pad + Decimal(n) == (pad + Decimal(n / 10)) + [Digit(n % 10)];
      }
    }
  }

  lemma {:induction false} BeforeOnLastDigit(a: string, b: string, x: char, y: char)
    requires |a| == |b|
    ensures Before(a + [x], b + [y]) <==> Before(a, b) || (a == b && x < y)
    decreases |a|
  {
    if a == "" {
      assert (a + [x])[1..] == "" && (b + [y])[1..] == "";
    } else {
      assert (a + [x])[1..] == a[1..] + [x];
      assert (b + [y])[1..] == b[1..] + [y];
      BeforeOnLastDigit(a[1..], b[1..], x, y);
      assert a == b <==> a[0] == b[0] && a[1..] == b[1..];
    }
  }

  lemma {:induction false} FixedOrder(a: nat, b: nat, w: nat)
    requires a < Power10(w) && b < Power10(w)
    ensures Before(Fixed(a, w), Fixed(b, w)) <==> a < b
    ensures Fixed(a, w) == Fixed(b, w) <==> a == b
    decreases w
  {
    if w > 0 {
      FixedOrder(a / 10, b / 10, w - 1);
      BeforeOnLastDigit(Fixed(a / 10, w - 1), Fixed(b / 10, w - 1), Digit(a % 10), Digit(b % 10));
      assert Fixed(a, w) == Fixed(b, w) ==> Fixed(a / 10, w - 1) == Fixed(b / 10, w - 1) && Digit(a % 10) == Digit(b % 10) by {
        assert Fixed(a, w)[..w - 1] == Fixed(a / 10, w - 1);
        assert Fixed(b, w)[..w - 1] == Fixed(b / 10, w - 1);
      }
    }
  }

  const UINT64_LIMIT: nat := 0x1_0000_0000_0000_0000

  /** Every 64-bit sequence number fits the padded width, so store order is chain order. */
  lemma SeqKeysSortAsNumbers(a: nat, b: nat)
    requires a < UINT64_LIMIT && b < UINT64_LIMIT
    ensures Before(SeqKey(a), SeqKey(b)) <==> a < b
    ensures SeqKey(a) == SeqKey(b) <==> a == b
  {
    SeqKeyIsFixed(a);
    SeqKeyIsFixed(b);
    PaddedWidthFits(a);
    PaddedWidthFits(b);
    FixedOrder(a, b, SEQ_KEY_WIDTH);
  }

  lemma SeqKeyIsFixed(n: nat)
    requires n < UINT64_LIMIT
    ensures SeqKey(n) == Fixed(n, SEQ_KEY_WIDTH)
  {
    PaddedWidthFits(n);
    PaddedIsFixed(n, SEQ_KEY_WIDTH);
  }

  lemma PaddedWidthFits(n: nat)
    requires n < UINT64_LIMIT
    ensures n < Power10(SEQ_KEY_WIDTH)
  {
    assert Power10(5) == 100_000;
    assert Power10(10) == 10_000_000_000;
    assert Power10(15) == 1_000_000_000_000_000;
    assert Power10(20) == 100_000_000_000_000_000_000;
  }

  // ---------- hexadecimal ----------

  function HexDigit(d: nat): char
    requires d < 16
  {
    if d < 10 then '0' + (d as char) else 'a' + ((d - 10) as char)
  }

  predicate IsLowerHex(s: string) {
    forall i :: 0 <= i < |s| ==> '0' <= s[i] <= '9' || 'a' <= s[i] <= 'f'
  }

  predicate IsHexDigit(c: char) {
    '0' <= c <= '9' || 'a' <= c <= 'f' || 'A' <= c <= 'F'
  }

  function HexValue(c: char): (d: nat)
    requires IsHexDigit(c)
    ensures d < 16
  {
    if c <= '9' then (c as int) - ('0' as int)
    else if c <= 'F' then (c as int) - ('A' as int) + 10
    else (c as int) - ('a' as int) + 10
  }

  function HexEncode(b: Bytes): (s: string)
    ensures |s| == 2 * |b| && IsLowerHex(s)
  {
    seq(2 * |b|, i requires 0 <= i < 2 * |b| =>
      HexDigit(if i % 2 == 0 then b[i / 2] as nat / 16 else b[i / 2] as nat % 16))
  }

  predicate IsHex(s: string) {
    |s| % 2 == 0 && forall i :: 0 <= i < |s| ==> IsHexDigit(s[i])
  }

  function HexByte(s: string, i: nat): byte
    requires IsHex(s) && i < |s| / 2
  {
    (HexValue(s[2 * i]) * 16 + HexValue(s[2 * i + 1])) as byte
  }

  function HexDecode(s: string): Option<Bytes> {
    if IsHex(s) then Some(seq(|s| / 2, i requires 0 <= i < |s| / 2 => HexByte(s, i))) else None
  }

  lemma DecodeOfEncode(b: Bytes)
    ensures HexDecode(HexEncode(b)) == Some(b)
  {
    var s := HexEncode(b);
    assert IsHex(s);
    forall i | 0 <= i < |b| ensures HexByte(s, i) == b[i] {
      assert (2 * i) / 2 == i && (2 * i + 1) / 2 == i;
      assert s[2 * i] == HexDigit(b[i] as nat / 16);
      assert s[2 * i + 1] == HexDigit(b[i] as nat % 16);
    }
    assert HexDecode(s).value == b;
  }
}

/** The bucket paths that name a tenant. */
module Buckets {
  import opened Common
  import opened Text

  /** What a tenant id must look like to be created: up to 63 lower-case letters, digits and
      hyphens, not starting with a hyphen. */
  predicate IsTenantId(id: string) {
    && 1 <= |id| <= 63 && id[0] != '-'
    && forall i :: 0 <= i < |id| ==> 'a' <= id[i] <= 'z' || '0' <= id[i] <= '9' || id[i] == '-'
  }

  predicate IsAcmeKind(kind: string) {
    kind in ["accounts", "orders", "authzs", "challenges", "certs", "eab", "nonces"]
  }

  datatype Bucket = Certs(tenant: string) | Crls(tenant: string) | Acme(tenant: string, kind: string)

  predicate Usable(b: Bucket) {
    IsTenantId(b.tenant) && (b.Acme? ==> IsAcmeKind(b.kind))
  }

  function PathOf(b: Bucket): seq<string> {
    match b
    case Certs(tenant) => ["certs", tenant]
    case Crls(tenant) => ["crl", tenant]
    case Acme(tenant, kind) => ["acme", tenant, kind]
  }

  lemma NoSlash(b: Bucket, i: nat)
    requires Usable(b) && i < |PathOf(b)|
    ensures '/' !in PathOf(b)[i]
  {
    if i == 1 {
      assert forall j :: 0 <= j < |b.tenant| ==> b.tenant[j] != '/';
    }
  }

  /** No two tenants, and no two kinds of object of a tenant, ever share documents. */
  lemma TenantsNeverShareBuckets(a: Bucket, b: Bucket)
    requires Usable(a) && Usable(b)
    ensures JoinPath(PathOf(a)) == JoinPath(PathOf(b)) <==> a == b
  {
    forall i | 0 <= i < |PathOf(a)| ensures '/' !in PathOf(a)[i] {
      NoSlash(a, i);
    }
    forall i | 0 <= i < |PathOf(b)| ensures '/' !in PathOf(b)[i] {
      NoSlash(b, i);
    }
    DistinctPathsStayDistinct(PathOf(a), PathOf(b));
    assert PathOf(a) == PathOf(b) ==> PathOf(a)[0] == PathOf(b)[0] && PathOf(a)[1] == PathOf(b)[1];
    assert a.Acme? && PathOf(a) == PathOf(b) ==> PathOf(a)[2] == PathOf(b)[2];
  }
}
