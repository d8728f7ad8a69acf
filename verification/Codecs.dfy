/** API key tokens: the bearer format that key minting prints and authentication reads. */
module KeyToken {
  import opened Common
  import opened Text

  const KEY_PREFIX: string := "mnemoca_"
  const KEY_ID_BYTES: nat := 8
  const KEY_SECRET_BYTES: nat := 32

  datatype Parsed = Parsed(id: string, secret: string)

  /** The token printed for an id and a secret of random bytes. */
  function Mint(id: Bytes, secret: Bytes): string
    requires |id| == KEY_ID_BYTES && |secret| == KEY_SECRET_BYTES
  {
    KEY_PREFIX + HexEncode(id) + "_" + HexEncode(secret)
  }

  function ParseKey(token: string): Option<Parsed> {
    if !(KEY_PREFIX <= token) then None
    else
      var (id, secret, found) := Cut(token[|KEY_PREFIX|..], '_');
      if !found || |id| != 2 * KEY_ID_BYTES || |secret| != 2 * KEY_SECRET_BYTES
         || !IsLowerHex(id) || !IsLowerHex(secret) then None
      else Some(Parsed(id, secret))
  }

  /** Exactly the well-formed tokens are accepted, each as the one pair it spells. */
  lemma ParseKeyAcceptsExactly(token: string, id: string, secret: string)
    ensures ParseKey(token) == Some(Parsed(id, secret))
            <==> && token == "mnemoca_" + id + "_" + secret
                 && |id| == 16 && |secret| == 64 && IsLowerHex(id) && IsLowerHex(secret)
  {
    if token == KEY_PREFIX + id + "_" + secret && IsLowerHex(id) {
      assert token[|KEY_PREFIX|..] == id + ['_'] + secret;
      CutAtFirst(id, secret, '_');
    }
    if ParseKey(token) == Some(Parsed(id, secret)) {
      assert token == KEY_PREFIX + token[|KEY_PREFIX|..];
    }
  }

  lemma ParseKeyUndoesMint(id: Bytes, secret: Bytes)
    requires |id| == KEY_ID_BYTES && |secret| == KEY_SECRET_BYTES
    ensures |id| == 8 && |secret| == 32
    ensures ParseKey(Mint(id, secret)) == Some(Parsed(HexEncode(id), HexEncode(secret)))
    ensures HexDecode(ParseKey(Mint(id, secret)).value.secret) == Some(secret)
  {
    ParseKeyAcceptsExactly(Mint(id, secret), HexEncode(id), HexEncode(secret));
    DecodeOfEncode(secret);
  }
}

/** Composite private keys: a fixed-size seed, then a traditional key behind a 16-bit length. */
module KeyMaterial {
  import opened Common
  import opened Text

  const SEED_SIZE: nat := 32

  datatype Components = Components(seed: Bytes, trad: Bytes)
  datatype Decoded = Ok(value: Components) | TooShort | LengthMismatch

  function Layout(c: Components): Bytes {
    c.seed + [((|c.trad| / 256) % 256) as byte, (|c.trad| % 256) as byte] + c.trad
  }

  function Unmarshal(material: Bytes): Decoded {
    if |material| < SEED_SIZE + 2 then TooShort
    else
      var rest := material[SEED_SIZE..];
      if |rest| != 2 + rest[0] as nat * 256 + rest[1] as nat then LengthMismatch
      else Ok(Components(material[..SEED_SIZE], rest[2..]))
  }

  /** A 32-byte seed, a big-endian 16-bit length, and exactly that many bytes are accepted. */
  lemma UnmarshalAcceptsExactly(material: Bytes)
    ensures Unmarshal(material).TooShort? <==> |material| < 34
    ensures Unmarshal(material).Ok? <==> |material| >= 34 && |material| == 34 + 256 * material[32] as nat + material[33] as nat
    ensures Unmarshal(material).Ok? ==> Unmarshal(material).value == Components(material[..32], material[34..])
  {
    if |material| >= 34 {
      assert material[32..][2..] == material[34..];
    }
  }

  /** The 16-bit length holds every component shorter than 65536 bytes and no other:
      a longer one is not read back wrong, it is refused. */
  lemma UnmarshalUndoesMarshal(c: Components)
    requires |c.seed| == SEED_SIZE
    ensures |c.trad| < 65536 ==> Unmarshal(Layout(c)) == Ok(c)
    ensures |c.trad| >= 65536 ==> Unmarshal(Layout(c)) == LengthMismatch
  {
    var m := Layout(c);
    var rest := m[SEED_SIZE..];
    assert rest == m[SEED_SIZE..][..2] + c.trad;
    assert m[..SEED_SIZE] == c.seed && rest[2..] == c.trad;
    assert rest[0] as nat == (|c.trad| / 256) % 256 && rest[1] as nat == |c.trad| % 256;
  }

  /** Unmarshalling what was marshalled gives back the components, or refuses it if the
      traditional key is too long for its length field. */
  method Marshal(seed: Bytes, trad: Bytes) returns (out: Bytes)
    requires |seed| == SEED_SIZE
    ensures |trad| < 65536 ==> Unmarshal(out) == Ok(Components(seed, trad))
    ensures |trad| >= 65536 ==> Unmarshal(out) == LengthMismatch
    ensures |seed| == 32 && |out| == 34 + |trad| && out[..32] == seed && out[34..] == trad
    ensures |trad| < 65536 ==> 256 * out[32] as nat + out[33] as nat == |trad|
  {
    out := [];
    out := out + seed;
    out := out + [((|trad| / 256) % 256) as byte, (|trad| % 256) as byte];
    out := out + trad;
    UnmarshalUndoesMarshal(Components(seed, trad));
  }

  /** Nothing but a layout is accepted, and decoding keeps every byte of it. */
  lemma MarshalUndoesUnmarshal(material: Bytes)
    requires Unmarshal(material).Ok?
    ensures Layout(Unmarshal(material).value) == material
    ensures |Unmarshal(material).value.seed| == SEED_SIZE && |Unmarshal(material).value.trad| < 65536
  {
    var rest := material[SEED_SIZE..];
    var c := Unmarshal(material).value;
    assert |c.trad| / 256 == rest[0] as nat && |c.trad| % 256 == rest[1] as nat;
    assert rest == [rest[0], rest[1]] + c.trad;
  }

  /** Overwrites key material in place. */
  method Zero(b: array<byte>)
    modifies b
    ensures forall i :: 0 <= i < b.Length ==> b[i] == 0
  {
    for i := 0 to b.Length
      invariant forall j :: 0 <= j < i ==> b[j] == 0
    {
      b[i] := 0;
    }
  }
}

/** References to keys in an HSM: pkcs11:module=...;token=...;label=... */
module Pkcs11Ref {
  import opened Common
  import opened Text

  const SCHEME: string := "pkcs11"

  datatype Ref = Ref(modulePath: string, tokenLabel: string, keyLabel: string)
  datatype ParseResult =
    | Ok(value: Ref)
    | NotPkcs11
    | Malformed(part: string)
    | Duplicate(attribute: string)
    | Unknown(attribute: string)
    | Incomplete

  predicate Usable(v: string) {
    v != "" && ';' !in v
  }

  function Format(r: Ref): Option<string> {
    if !Usable(r.modulePath) || !Usable(r.tokenLabel) || !Usable(r.keyLabel) then None
    else Some(SCHEME + ":module=" + r.modulePath + ";token=" + r.tokenLabel + ";label=" + r.keyLabel)
  }

  function Scheme(s: string): string {
    var (scheme, rest, found) := Cut(s, ':');
    if found then scheme else ""
  }

  function Attribute(k: string, v: string): string {
    k + "=" + v
  }

  function Attributes(r: Ref): set<string> {
    {Attribute("module", r.modulePath), Attribute("token", r.tokenLabel), Attribute("label", r.keyLabel)}
  }

  function ValueOf(k: string, r: Ref): string {
    if k == "module" then r.modulePath else if k == "token" then r.tokenLabel else r.keyLabel
  }

  predicate Known(k: string) {
    k == "module" || k == "token" || k == "label"
  }

  function PartsOf(s: string): seq<string> {
    if SCHEME + ":" <= s then Split(s[|SCHEME| + 1..], ';') else []
  }

  /** What a reference means, independently of how it is read: three attributes in any
      order, each once, none empty. */
  ghost predicate Denotes(s: string, r: Ref) {
    && SCHEME + ":" <= s
    && r.modulePath != "" && r.tokenLabel != "" && r.keyLabel != ""
    && |PartsOf(s)| == 3 && (set p | p in PartsOf(s)) == Attributes(r)
  }

  predicate Spells(part: string, k: string, v: string) {
    Cut(part, '=') == (k, v, true)
  }

  lemma AttributeSpells(k: string, v: string)
    requires '=' !in k
    ensures Spells(Attribute(k, v), k, v)
  {
    CutAtFirst(k, v, '=');
  }

  lemma SpelledOut(part: string, k: string, v: string)
    requires Spells(part, k, v)
    ensures part == Attribute(k, v)
  {
  }

  lemma AttributeIsPart(s: string, r: Ref, k: string)
    requires Denotes(s, r) && Known(k)
    ensures Attribute(k, ValueOf(k, r)) in PartsOf(s)
  {
    assert Attribute(k, ValueOf(k, r)) in Attributes(r);
  }

  lemma PartIsAttribute(s: string, r: Ref, i: nat)
    requires Denotes(s, r) && i < 3
    ensures var (k, v, ok) := Cut(PartsOf(s)[i], '='); ok && Known(k) && v == ValueOf(k, r) && v != ""
  {
    AttributeSpells("module", r.modulePath);
    AttributeSpells("token", r.tokenLabel);
    AttributeSpells("label", r.keyLabel);
    assert PartsOf(s)[i] in Attributes(r);
  }

  /** A reference has at most one meaning. */
  lemma MeaningIsUnique(s: string, a: Ref, b: Ref)
    requires Denotes(s, a) && Denotes(s, b)
    ensures a == b
  {
    forall k | Known(k) ensures ValueOf(k, a) == ValueOf(k, b) {
      AttributeIsPart(s, a, k);
      var i :| 0 <= i < 3 && PartsOf(s)[i] == Attribute(k, ValueOf(k, a));
      AttributeSpells(k, ValueOf(k, a));
      PartIsAttribute(s, b, i);
    }
    assert Known("module") && Known("token") && Known("label");
  }

  lemma FormatJoinsAttributes(r: Ref)
    requires Format(r).Some?
    ensures SCHEME + ":" <= Format(r).value
    ensures Format(r).value[|SCHEME| + 1..]
            == Join([Attribute("module", r.modulePath), Attribute("token", r.tokenLabel), Attribute("label", r.keyLabel)], ';')
  {
    var parts := [Attribute("module", r.modulePath), Attribute("token", r.tokenLabel), Attribute("label", r.keyLabel)];
    assert parts[1..][1..] == [parts[2]];
    assert Join(parts[1..], ';') == parts[1] + [';'] + parts[2];
    assert Format(r).value == (SCHEME + ":") + (parts[0] + [';'] + Join(parts[1..], ';'));
  }

  lemma FormatSpellsItOut(r: Ref)
    ensures Format(r).Some? ==>
              Format(r).value == "pkcs11:module=" + r.modulePath + ";token=" + r.tokenLabel + ";label=" + r.keyLabel
  {
    assert SCHEME + ":module=" == "pkcs11:module=";
  }

  /** Formatting succeeds exactly for usable triples, and what it prints means that triple. */
  lemma FormatPrintsItsMeaning(r: Ref)
    ensures Format(r).Some? <==> Usable(r.modulePath) && Usable(r.tokenLabel) && Usable(r.keyLabel)
    ensures Format(r).Some? ==> Denotes(Format(r).value, r)
  {
    if Format(r).Some? {
      var parts := [Attribute("module", r.modulePath), Attribute("token", r.tokenLabel), Attribute("label", r.keyLabel)];
      assert forall i :: 0 <= i < 3 ==> ';' !in parts[i];
      SplitOfJoin(parts, ';');
      FormatJoinsAttributes(r);
      assert forall p :: p in parts <==> p == parts[0] || p == parts[1] || p == parts[2];
    }
  }

  /** What was formatted is read back as the triple it was made from, and as no other. */
  lemma FormattedIsReadBack(r: Ref, t: Ref)
    requires Format(r).Some?
    ensures Denotes(Format(r).value, t) <==> t == r
  {
    FormatPrintsItsMeaning(r);
    if Denotes(Format(r).value, t) {
      MeaningIsUnique(Format(r).value, r, t);
    }
  }

  /** Whatever a reference denotes can be formatted again, so every accepted reference has
      a normal form with the same meaning. */
  lemma MeaningIsFormattable(s: string, r: Ref)
    requires Denotes(s, r)
    ensures Format(r).Some? && Denotes(Format(r).value, r)
  {
    forall k | Known(k) ensures Usable(ValueOf(k, r)) {
      AttributeIsPart(s, r, k);
      assert ';' !in Attribute(k, ValueOf(k, r));
      assert forall c :: c in ValueOf(k, r) ==> c in Attribute(k, ValueOf(k, r));
    }
    assert Known("module") && Known("token") && Known("label");
    FormatPrintsItsMeaning(r);
  }

  // ---------- reading a reference ----------

  lemma SchemeIsPrefix(s: string)
    ensures Scheme(s) == SCHEME <==> SCHEME + ":" <= s
  {
    if SCHEME + ":" <= s {
      CutAtFirst(SCHEME, s[|SCHEME| + 1..], ':');
      assert s == SCHEME + [':'] + s[|SCHEME| + 1..];
    }
  }

  /** A part, cut at its first '='. */
  type CutPart = (string, string, bool)

  function Cuts(parts: seq<string>): (cuts: seq<CutPart>)
    ensures |cuts| == |parts| && forall i :: 0 <= i < |parts| ==> cuts[i] == Cut(parts[i], '=')
  {
    seq(|parts|, i requires 0 <= i < |parts| => Cut(parts[i], '='))
  }

  predicate KeptIn(cut: CutPart, got: map<string, string>) {
    cut.2 && cut.0 in got && got[cut.0] == cut.1
  }

  /** `got` holds the attributes of the parts read so far, each once. */
  ghost predicate ReadSoFar(cuts: seq<CutPart>, got: map<string, string>) {
    && |got| == |cuts|
    && (forall k :: k in got ==> Known(k) && got[k] != "" && (k, got[k], true) in cuts)
    && (forall i :: 0 <= i < |cuts| ==> KeptIn(cuts[i], got))
  }

  lemma ReadOneMore(cuts: seq<CutPart>, i: nat, got: map<string, string>, k: string, v: string)
    requires i < |cuts| && ReadSoFar(cuts[..i], got)
    requires k !in got && Known(k) && v != "" && cuts[i] == (k, v, true)
    ensures ReadSoFar(cuts[..i + 1], got[k := v])
  {
    var got', read := got[k := v], cuts[..i + 1];
    assert read == cuts[..i] + [cuts[i]];
    forall x | x in got' ensures Known(x) && got'[x] != "" && (x, got'[x], true) in read {
      if x != k {
        assert (x, got[x], true) in cuts[..i];
      }
    }
    forall j | 0 <= j < |read| ensures KeptIn(read[j], got') {
      if j < i {
        assert KeptIn(cuts[..i][j], got);
      }
    }
  }

  lemma KeptIsAttribute(part: string, got: map<string, string>, r: Ref)
    requires KeptIn(Cut(part, '='), got) && (forall k :: k in got ==> Known(k) && got[k] == ValueOf(k, r))
    ensures part in Attributes(r)
  {
    var (k, v, ok) := Cut(part, '=');
    SpelledOut(part, k, v);
  }

  lemma AttributesAreKept(parts: seq<string>, got: map<string, string>, r: Ref)
    requires ReadSoFar(Cuts(parts), got)
    requires forall k :: k in got ==> got[k] == ValueOf(k, r)
    ensures forall p :: p in parts ==> p in Attributes(r)
    ensures forall k :: k in got ==> Attribute(k, ValueOf(k, r)) in parts
  {
    forall p | p in parts ensures p in Attributes(r) {
      var i :| 0 <= i < |parts| && parts[i] == p;
      assert KeptIn(Cuts(parts)[i], got);
      KeptIsAttribute(parts[i], got, r);
    }
    forall k | k in got ensures Attribute(k, ValueOf(k, r)) in parts {
      var i :| 0 <= i < |parts| && Cuts(parts)[i] == (k, got[k], true);
      SpelledOut(parts[i], k, got[k]);
    }
  }

  lemma AllReadDenotes(s: string, got: map<string, string>, r: Ref)
    requires SCHEME + ":" <= s && ReadSoFar(Cuts(PartsOf(s)), got)
    requires got.Keys == {"module", "token", "label"}
    requires forall k :: k in got ==> got[k] == ValueOf(k, r)
    ensures Denotes(s, r)
  {
    AttributesAreKept(PartsOf(s), got, r);
    assert |got.Keys| == |got|;
    assert "module" in got && "token" in got && "label" in got;
  }

  lemma ReadPartIsKept(parts: seq<string>, got: map<string, string>, k: string, v: string)
    requires ReadSoFar(Cuts(parts), got) && Known(k) && Attribute(k, v) in parts
    ensures k in got
  {
    AttributeSpells(k, v);
    var i :| 0 <= i < |parts| && parts[i] == Attribute(k, v);
    assert KeptIn(Cuts(parts)[i], got);
  }

  lemma MissingAttribute(s: string, got: map<string, string>, k: string)
    requires ReadSoFar(Cuts(PartsOf(s)), got) && Known(k) && k !in got
    ensures forall r :: !Denotes(s, r)
  {
    forall r ensures !Denotes(s, r) {
      if Denotes(s, r) {
        AttributeIsPart(s, r, k);
        ReadPartIsKept(PartsOf(s), got, k, ValueOf(k, r));
      }
    }
  }

  lemma BadPart(s: string, i: nat)
    requires i < |PartsOf(s)|
    requires var (k, v, ok) := Cut(PartsOf(s)[i], '='); !ok || v == "" || !Known(k)
    ensures forall r :: !Denotes(s, r)
  {
    forall r ensures !Denotes(s, r) {
      if Denotes(s, r) {
        PartIsAttribute(s, r, i);
      }
    }
  }

  lemma RepeatShrinks(parts: seq<string>, i: nat, j: nat)
    requires |parts| == 3 && i < j < 3
    ensures parts[i] == parts[j] ==> |set p | p in parts| <= 2
  {
    if parts[i] == parts[j] {
      assert (set p | p in parts) == {parts[i], parts[3 - i - j]};
    }
  }

  lemma AttributesAreThree(r: Ref)
    ensures |Attributes(r)| == 3
  {
    assert Attribute("module", r.modulePath)[0] == 'm' && Attribute("token", r.tokenLabel)[0] == 't'
        && Attribute("label", r.keyLabel)[0] == 'l';
  }

  lemma SameKeySamePart(s: string, r: Ref, i: nat, j: nat)
    requires Denotes(s, r) && i < j < 3
    ensures Cut(PartsOf(s)[i], '=').0 == Cut(PartsOf(s)[j], '=').0 ==> PartsOf(s)[i] == PartsOf(s)[j]
  {
    PartIsAttribute(s, r, i);
    PartIsAttribute(s, r, j);
    SpelledOut(PartsOf(s)[i], Cut(PartsOf(s)[i], '=').0, Cut(PartsOf(s)[i], '=').1);
    SpelledOut(PartsOf(s)[j], Cut(PartsOf(s)[j], '=').0, Cut(PartsOf(s)[j], '=').1);
  }

  lemma RepeatedAttribute(s: string, i: nat, j: nat)
    requires i < j < |PartsOf(s)| && Cut(PartsOf(s)[i], '=').0 == Cut(PartsOf(s)[j], '=').0
    ensures forall r :: !Denotes(s, r)
  {
    forall r ensures !Denotes(s, r) {
      if Denotes(s, r) {
        SameKeySamePart(s, r, i, j);
        AttributesAreThree(r);
        RepeatShrinks(PartsOf(s), i, j);
      }
    }
  }

  function ValueOr(got: map<string, string>, k: string): string {
    if k in got then got[k] else ""
  }

  predicate Results(got: map<string, string>, found: Ref) {
    found == Ref(ValueOr(got, "module"), ValueOr(got, "token"), ValueOr(got, "label"))
  }

  function With(found: Ref, k: string, v: string): Ref {
    if k == "module" then found.(modulePath := v)
    else if k == "token" then found.(tokenLabel := v)
    else if k == "label" then found.(keyLabel := v)
    else found
  }

  lemma ResultsAfter(got: map<string, string>, found: Ref, k: string, v: string)
    requires Results(got, found)
    ensures Results(got[k := v], With(found, k, v))
  {
    assert "module"[0] == 'm' && "token"[0] == 't' && "label"[0] == 'l';
  }

  lemma ThreeKeys(got: map<string, string>, r: Ref)
    requires Results(got, r) && forall k :: k in got ==> Known(k)
    requires r.modulePath != "" && r.tokenLabel != "" && r.keyLabel != ""
    ensures got.Keys == {"module", "token", "label"}
  {
    assert "module" in got && "token" in got && "label" in got;
  }

  lemma AllThreeRead(s: string, got: map<string, string>, r: Ref)
    requires SCHEME + ":" <= s && ReadSoFar(Cuts(PartsOf(s)), got) && Results(got, r)
    requires r.modulePath != "" && r.tokenLabel != "" && r.keyLabel != ""
    ensures Denotes(s, r)
  {
    ThreeKeys(got, r);
    AllReadDenotes(s, got, r);
  }

  /** Accepts a complete reading; an incomplete one denotes nothing. */
  lemma CompleteResults(s: string, got: map<string, string>, r: Ref)
    requires SCHEME + ":" <= s && ReadSoFar(Cuts(PartsOf(s)), got) && Results(got, r)
    ensures if r.modulePath != "" && r.tokenLabel != "" && r.keyLabel != "" then Denotes(s, r) else forall t :: !Denotes(s, t)
  {
    if r.modulePath != "" && r.tokenLabel != "" && r.keyLabel != "" {
      AllThreeRead(s, got, r);
    } else if r.modulePath == "" {
      MissingAttribute(s, got, "module");
    } else if r.tokenLabel == "" {
      MissingAttribute(s, got, "token");
    } else {
      MissingAttribute(s, got, "label");
    }
  }

  predicate Bad(cut: CutPart) {
    !cut.2 || cut.1 == "" || !Known(cut.0)
  }

  /** What is wrong with a part, after the parts before it; the code checks in this order. */
  function Offence(parts: seq<string>, cuts: seq<CutPart>, i: nat): Option<ParseResult>
    requires i < |parts| == |cuts|
  {
    if !cuts[i].2 || cuts[i].1 == "" then Some(Malformed(parts[i]))
    else if exists j :: 0 <= j < i && cuts[j].0 == cuts[i].0 then Some(Duplicate(cuts[i].0))
    else if !Known(cuts[i].0) then Some(Unknown(cuts[i].0))
    else None
  }

  ghost predicate NoOffence(parts: seq<string>, cuts: seq<CutPart>, n: nat)
    requires n <= |parts| == |cuts|
  {
    forall j :: 0 <= j < n ==> Offence(parts, cuts, j).None?
  }

  ghost predicate FirstOffence(parts: seq<string>, cuts: seq<CutPart>, i: nat, r: ParseResult)
    requires |parts| == |cuts|
  {
    i < |parts| && Offence(parts, cuts, i) == Some(r) && NoOffence(parts, cuts, i)
  }

  lemma SeenAreEarlierKeys(cuts: seq<CutPart>, i: nat, got: map<string, string>, k: string)
    requires i <= |cuts| && ReadSoFar(cuts[..i], got)
    ensures k in got <==> exists j :: 0 <= j < i && cuts[j].0 == k
  {
    if k in got {
      assert (k, got[k], true) in cuts[..i];
    }
    if j :| 0 <= j < i && cuts[j].0 == k {
      assert KeptIn(cuts[..i][j], got);
    }
  }

  /** The first `i` parts are read, and nothing is wrong with them. */
  ghost predicate ReadUpTo(parts: seq<string>, cuts: seq<CutPart>, i: nat, got: map<string, string>, found: Ref)
    requires |parts| == |cuts|
  {
    i <= |parts| && ReadSoFar(cuts[..i], got) && Results(got, found) && NoOffence(parts, cuts, i)
  }

  lemma OffendingPart(parts: seq<string>, cuts: seq<CutPart>, i: nat, got: map<string, string>, found: Ref)
    requires |parts| == |cuts| && i < |parts| && ReadUpTo(parts, cuts, i, got, found)
    ensures var (k, v, ok) := cuts[i];
            Offence(parts, cuts, i) == if !ok || v == "" then Some(Malformed(parts[i]))
                                       else if k in got then Some(Duplicate(k))
                                       else if !Known(k) then Some(Unknown(k))
                                       else None
  {
    SeenAreEarlierKeys(cuts, i, got, cuts[i].0);
  }

  lemma NextPart(parts: seq<string>, cuts: seq<CutPart>, i: nat, got: map<string, string>, found: Ref)
    requires |parts| == |cuts| && i < |parts| && ReadUpTo(parts, cuts, i, got, found)
    ensures var (k, v, ok) := cuts[i];
            if Offence(parts, cuts, i).Some? then FirstOffence(parts, cuts, i, Offence(parts, cuts, i).value)
            else ReadUpTo(parts, cuts, i + 1, got[k := v], With(found, k, v))
  {
    OffendingPart(parts, cuts, i, got, found);
    if Offence(parts, cuts, i).None? {
      ResultsAfter(got, found, cuts[i].0, cuts[i].1);
      ReadOneMore(cuts, i, got, cuts[i].0, cuts[i].1);
    }
  }

  /** Reads the attributes in order, and reports the first that is malformed, repeated or
      unknown. */
  method ReadAttributes(parts: seq<string>, cuts: seq<CutPart>) returns (r: ParseResult, ghost got: map<string, string>)
    requires |parts| == |cuts|
    ensures r.Ok? ==> ReadUpTo(parts, cuts, |parts|, got, r.value)
    ensures !r.Ok? ==> exists i :: 0 <= i < |parts| && FirstOffence(parts, cuts, i, r)
  {
    var seen: set<string> := {};
    var found := Ref("", "", "");
    got := map[];
    var i := 0;
    while i < |parts|
      invariant ReadUpTo(parts, cuts, i, got, found) && seen == got.Keys
    {
      OffendingPart(parts, cuts, i, got, found);
      NextPart(parts, cuts, i, got, found);
      var (k, v, ok) := cuts[i];
      if !ok || v == "" {
        return Malformed(parts[i]), got;
      }
      if k in seen {
        return Duplicate(k), got;
      }
      seen := seen + {k};
      if !Known(k) {
        return Unknown(k), got;
      }
      found := With(found, k, v);
      got := got[k := v];
      i := i + 1;
    }
    return Ok(found), got;
  }

  lemma OffendingDenotesNothing(s: string, i: nat)
    requires i < |PartsOf(s)| && Offence(PartsOf(s), Cuts(PartsOf(s)), i).Some?
    ensures forall t :: !Denotes(s, t)
  {
    var cuts := Cuts(PartsOf(s));
    if Bad(cuts[i]) {
      BadPart(s, i);
    } else {
      var j :| 0 <= j < i && cuts[j].0 == cuts[i].0;
      RepeatedAttribute(s, j, i);
    }
  }

  /** The first part that is malformed, repeated or unknown is reported. */
  ghost predicate Offends(s: string, r: ParseResult) {
    exists i :: 0 <= i < |PartsOf(s)| && FirstOffence(PartsOf(s), Cuts(PartsOf(s)), i, r)
  }

  lemma OffendingIsRefused(s: string, r: ParseResult)
    requires Offends(s, r)
    ensures (r.Malformed? || r.Duplicate? || r.Unknown?) && forall t :: !Denotes(s, t)
  {
    var i :| 0 <= i < |PartsOf(s)| && FirstOffence(PartsOf(s), Cuts(PartsOf(s)), i, r);
    OffendingDenotesNothing(s, i);
  }

  /** Accepts exactly the strings that denote a triple, and returns that triple; and says of
      the others what is wrong with them first. */
  method Parse(s: string) returns (r: ParseResult)
    ensures r.Ok? ==> Denotes(s, r.value)
    ensures !r.Ok? ==> forall t :: !Denotes(s, t)
    ensures r.NotPkcs11? <==> !("pkcs11:" <= s)
    ensures r.Incomplete? ==> NoOffence(PartsOf(s), Cuts(PartsOf(s)), |PartsOf(s)|)
    ensures r.Malformed? || r.Duplicate? || r.Unknown? ==> Offends(s, r)
  {
    SchemeIsPrefix(s);
    if Scheme(s) != SCHEME {
      return NotPkcs11;
    }
    var parts := PartsOf(s);
    ghost var got;
    r, got := ReadAttributes(parts, Cuts(parts));
    if r.Ok? {
      assert Cuts(parts)[..|parts|] == Cuts(parts);
      CompleteResults(s, got, r.value);
      if r.value.modulePath == "" || r.value.tokenLabel == "" || r.value.keyLabel == "" {
        r := Incomplete;
      }
    } else {
      OffendingIsRefused(s, r);
    }
  }
}
