// FirmwarePackageVerifier: which signed manifests describe an image for this device, and
// what is kept of one that does.
module FirmwarePackage {
  import opened Prelude
  import opened JsonModel
  import opened Identifiers

  type Byte = b: int | 0 <= b < 256

  const MODEL := "proj-esp32-35"
  const HARDWARE_REVISION := 1
  const BUILD := 42
  const CHANNEL := "dev"

  const MAX_MANIFEST_LENGTH := 2048
  const MAX_SIGNATURE_LENGTH := 192
  const MAX_VERSION_LENGTH := 48
  const DIGEST_LENGTH := 32

  /** The cryptography and the parser: whether a trimmed base64 signature is one of the
      update key over the manifest, what the manifest parses to, and SHA-256. */
  datatype Trust = Trust(
    verify: (string, string) -> bool,
    parse: string -> Option<Json>,
    digest: seq<Byte> -> seq<Byte>)

  datatype PackageError =
    | ManifestSizeInvalid | SignatureEncodingInvalid | SignatureInvalid | ManifestJsonInvalid
    | FieldsInvalid | SchemaUnsupported | ModelMismatch | HardwareMismatch | VersionInvalid
    | BuildNotNewer | ChannelMismatch | FirmwareSizeInvalid | FileInvalid | Sha256Invalid

  datatype Metadata = Metadata(
    valid: bool, schema: nat, hardwareRevision: nat, build: nat, size: nat,
    model: string, version: string, channel: string, sha256: seq<Byte>)

  const NO_METADATA := Metadata(false, 0, 0, 0, 0, "", "", "", [])

  datatype Inspection = Refused(error: PackageError) | Described(metadata: Metadata)

  predicate TokenChar(c: char) {
    IsAlnum(c) || c in "._-+"
  }

  predicate SafeToken(value: string, maxLength: nat) {
    1 <= |value| <= maxLength && forall i :: 0 <= i < |value| ==> TokenChar(value[i])
  }

  method CheckToken(value: string, maxLength: nat) returns (ok: bool)
    ensures ok <==> SafeToken(value, maxLength)
  {
    if |value| == 0 || |value| > maxLength {
      return false;
    }
    for i := 0 to |value|
      invariant forall k :: 0 <= k < i ==> TokenChar(value[k])
    {
      if !TokenChar(value[i]) {
        return false;
      }
    }
    return true;
  }

  // ---- Hexadecimal digests ---------------------------------------------------

  function HexNibble(c: char): int {
    if '0' <= c <= '9' then (c - '0') as int
    else if 'a' <= c <= 'f' then (c - 'a') as int + 10
    else if 'A' <= c <= 'F' then (c - 'A') as int + 10
    else -1
  }

  predicate IsHex(value: string) {
    forall i :: 0 <= i < |value| ==> HexNibble(value[i]) >= 0
  }

  function HexByte(high: char, low: char): Byte {
    if HexNibble(high) >= 0 && HexNibble(low) >= 0 then HexNibble(high) * 16 + HexNibble(low) else 0
  }

  function ParseDigest(value: string): Option<seq<Byte>> {
    if |value| != 2 * DIGEST_LENGTH || !IsHex(value) then None
    else Some(seq(DIGEST_LENGTH, i requires 0 <= i < DIGEST_LENGTH => HexByte(value[2 * i], value[2 * i + 1])))
  }

  function HexDigit(n: int): char
    requires 0 <= n < 16
  {
    "0123456789abcdef"[n]
  }

  /** The lower-case hexadecimal form of a byte string. */
  function Hex(bytes: seq<Byte>): string {
    seq(2 * |bytes|, i requires 0 <= i < 2 * |bytes| =>
      if i % 2 == 0 then HexDigit(bytes[i / 2] / 16) else HexDigit(bytes[i / 2] % 16))
  }

  predicate SameHex(c: char, lower: char) {
    c == lower || ('A' <= c <= 'F' && c - 'A' + 'a' == lower)
  }

  lemma NibbleOfDigit(n: int)
    requires 0 <= n < 16
    ensures HexNibble(HexDigit(n)) == n
  {
  }

  /** A byte written and parsed again, and a byte parsed and written again. */
  lemma ByteRoundTrip(b: Byte)
    ensures HexByte(HexDigit(b / 16), HexDigit(b % 16)) == b
  {
    NibbleOfDigit(b / 16);
    NibbleOfDigit(b % 16);
  }

  lemma ByteIsWritten(high: char, low: char)
    requires HexNibble(high) >= 0 && HexNibble(low) >= 0
    ensures SameHex(high, HexDigit(HexByte(high, low) / 16)) && SameHex(low, HexDigit(HexByte(high, low) % 16))
  {
    var b := HexByte(high, low);
    assert b / 16 == HexNibble(high) && b % 16 == HexNibble(low);
  }

  lemma HexIsHex(bytes: seq<Byte>)
    ensures IsHex(Hex(bytes))
  {
    forall i | 0 <= i < 2 * |bytes|
      ensures HexNibble(Hex(bytes)[i]) >= 0
    {
      NibbleOfDigit(if i % 2 == 0 then bytes[i / 2] / 16 else bytes[i / 2] % 16);
    }
  }

  lemma HexAt(bytes: seq<Byte>, i: nat)
    requires i < |bytes|
    ensures HexByte(Hex(bytes)[2 * i], Hex(bytes)[2 * i + 1]) == bytes[i]
  {
    assert (2 * i) / 2 == i && (2 * i + 1) / 2 == i;
    assert Hex(bytes)[2 * i] == HexDigit(bytes[i] / 16) && Hex(bytes)[2 * i + 1] == HexDigit(bytes[i] % 16);
    ByteRoundTrip(bytes[i]);
  }

  /** Parsing a digest undoes writing one. */
  lemma DigestRoundTrip(digest: seq<Byte>)
    requires |digest| == DIGEST_LENGTH
    ensures ParseDigest(Hex(digest)) == Some(digest)
  {
    HexIsHex(digest);
    forall i | 0 <= i < DIGEST_LENGTH
      ensures ParseDigest(Hex(digest)).value[i] == digest[i]
    {
      HexAt(digest, i);
    }
    assert ParseDigest(Hex(digest)).value == digest;
  }

  /** What parses as a digest is its hexadecimal form, in either case. */
  lemma ParsedDigestIsWritten(value: string, i: nat)
    requires ParseDigest(value).Some? && i < DIGEST_LENGTH
    ensures var text := Hex(ParseDigest(value).value);
      |text| == |value| && SameHex(value[2 * i], text[2 * i]) && SameHex(value[2 * i + 1], text[2 * i + 1])
  {
    var digest := ParseDigest(value).value;
    assert digest[i] == HexByte(value[2 * i], value[2 * i + 1]);
    ByteIsWritten(value[2 * i], value[2 * i + 1]);
    assert (2 * i) / 2 == i && (2 * i + 1) / 2 == i;
  }

  /** `parseSha256` fills a buffer of 32 bytes. */
  method ParseSha256(value: string, output: array<Byte>) returns (ok: bool)
    requires output.Length == DIGEST_LENGTH
    modifies output
    ensures ok <==> ParseDigest(value).Some?
    ensures ok ==> output[..] == ParseDigest(value).value
  {
    if |value| != 2 * DIGEST_LENGTH {
      return false;
    }
    for i := 0 to DIGEST_LENGTH
      invariant forall k :: 0 <= k < 2 * i ==> HexNibble(value[k]) >= 0
      invariant forall k :: 0 <= k < i ==> output[k] == HexByte(value[2 * k], value[2 * k + 1])
    {
      var high, low := HexNibble(value[2 * i]), HexNibble(value[2 * i + 1]);
      if high < 0 || low < 0 {
        return false;
      }
      output[i] := high * 16 + low;
    }
    return true;
  }

  // ---- Manifests -------------------------------------------------------------

  predicate IsUInt16(j: Json) {
    j.Integer? && 0 <= j.i < 0x1_0000
  }

  predicate FieldsTyped(d: Json) {
    && d.Member("schema").IsUInt32() && d.Member("model").Text? && IsUInt16(d.Member("hardware_revision"))
    && d.Member("version").Text? && d.Member("build").IsUInt32() && d.Member("channel").Text?
    && d.Member("size").IsUInt32() && d.Member("sha256").Text? && d.Member("file").Text?
  }

  function MetadataOf(d: Json, sha256: seq<Byte>): Metadata
    requires FieldsTyped(d)
  {
    Metadata(true, d.Member("schema").i, d.Member("hardware_revision").i, d.Member("build").i, d.Member("size").i,
             d.Member("model").s, d.Member("version").s, d.Member("channel").s, sha256)
  }

  function InspectFields(d: Json): Inspection {
    if !FieldsTyped(d) then Refused(FieldsInvalid)
    else if d.Member("schema").i != 1 then Refused(SchemaUnsupported)
    else if d.Member("model").s != MODEL then Refused(ModelMismatch)
    else if d.Member("hardware_revision").i != HARDWARE_REVISION then Refused(HardwareMismatch)
    else if !SafeToken(d.Member("version").s, MAX_VERSION_LENGTH) then Refused(VersionInvalid)
    else if d.Member("build").i <= BUILD then Refused(BuildNotNewer)
    else if d.Member("channel").s != CHANNEL then Refused(ChannelMismatch)
    else if d.Member("size").i == 0 then Refused(FirmwareSizeInvalid)
    else if d.Member("file").s != "firmware.bin" then Refused(FileInvalid)
    else if ParseDigest(d.Member("sha256").s).None? then Refused(Sha256Invalid)
    else Described(MetadataOf(d, ParseDigest(d.Member("sha256").s).value))
  }

  function Inspect(t: Trust, manifest: string, signature: string): Inspection {
    if |manifest| == 0 || |manifest| > MAX_MANIFEST_LENGTH then Refused(ManifestSizeInvalid)
    else if |Trim(signature)| == 0 || |Trim(signature)| > MAX_SIGNATURE_LENGTH then Refused(SignatureEncodingInvalid)
    else if !t.verify(manifest, Trim(signature)) then Refused(SignatureInvalid)
    else if t.parse(manifest).None? then Refused(ManifestJsonInvalid)
    else InspectFields(t.parse(manifest).value)
  }

  /** The manifest is signed and says that it describes a newer image for this device, and m
      has member by member what it says. */
  ghost predicate Describes(t: Trust, manifest: string, signature: string, m: Metadata) {
    && t.verify(manifest, Trim(signature)) && t.parse(manifest).Some?
    && Says(t.parse(manifest).value, m)
  }

  ghost predicate Says(d: Json, m: Metadata) {
    && m.valid
    && d.Member("schema") == Integer(m.schema) && m.schema == 1
    && d.Member("model") == Text(m.model) && m.model == MODEL
    && d.Member("hardware_revision") == Integer(m.hardwareRevision) && m.hardwareRevision == HARDWARE_REVISION
    && d.Member("version") == Text(m.version) && SafeToken(m.version, MAX_VERSION_LENGTH)
    && d.Member("build") == Integer(m.build) && BUILD < m.build < UINT32_LIMIT
    && d.Member("channel") == Text(m.channel) && m.channel == CHANNEL
    && d.Member("size") == Integer(m.size) && 0 < m.size < UINT32_LIMIT
    && d.Member("sha256").Text? && ParseDigest(d.Member("sha256").s) == Some(m.sha256) && |m.sha256| == DIGEST_LENGTH
    && d.Member("file") == Text("firmware.bin")
  }

  lemma FieldsSay(d: Json, m: Metadata)
    ensures InspectFields(d) == Described(m) <==> Says(d, m)
  {
  }

  /** A package is accepted exactly when its sizes are right and it is signed and applicable. */
  lemma InspectionIsExact(t: Trust, manifest: string, signature: string, m: Metadata)
    ensures Inspect(t, manifest, signature) == Described(m) <==>
      && 1 <= |manifest| <= 2048 && 1 <= |Trim(signature)| <= 192
      && Describes(t, manifest, signature, m)
  {
    if t.parse(manifest).Some? {
      FieldsSay(t.parse(manifest).value, m);
    }
  }

  /** The metadata a manifest describes are unique. */
  lemma DescribedOnce(t: Trust, manifest: string, signature: string, m: Metadata, m': Metadata)
    requires Describes(t, manifest, signature, m) && Describes(t, manifest, signature, m')
    ensures m == m'
  {
  }

  /** The image a manifest promises: it is signed, it is for this device and newer than what
      runs, and its size and sha256 members are those of the image. */
  ghost predicate Promises(t: Trust, manifest: string, signature: string, image: seq<Byte>) {
    && t.verify(manifest, Trim(signature)) && t.parse(manifest).Some?
    && var d := t.parse(manifest).value;
    && d.Member("size") == Integer(|image|)
    && d.Member("sha256").Text? && ParseDigest(d.Member("sha256").s) == Some(t.digest(image))
    && d.Member("schema") == Integer(1) && d.Member("model") == Text(MODEL)
    && d.Member("hardware_revision") == Integer(HARDWARE_REVISION) && d.Member("channel") == Text(CHANNEL)
    && d.Member("build").Integer? && d.Member("build").i > BUILD
  }

  lemma DescribedIsPromised(t: Trust, manifest: string, signature: string, m: Metadata, image: seq<Byte>)
    requires Describes(t, manifest, signature, m)
    ensures Promises(t, manifest, signature, image) <==> |image| == m.size && t.digest(image) == m.sha256
  {
  }

  class PackageVerifier {
    const trust: Trust
    var metadata: Metadata

    constructor (trust: Trust)
      ensures this.trust == trust && metadata == NO_METADATA
    {
      this.trust, metadata := trust, NO_METADATA;
    }

    method Clear()
      modifies this`metadata
      ensures metadata == NO_METADATA
    {
      metadata := NO_METADATA;
    }

    method CheckFields(d: Json) returns (inspection: Inspection)
      ensures inspection == InspectFields(d)
    {
      if !FieldsTyped(d) {
        return Refused(FieldsInvalid);
      }
      if d.Member("schema").i != 1 {
        return Refused(SchemaUnsupported);
      }
      if d.Member("model").s != MODEL {
        return Refused(ModelMismatch);
      }
      if d.Member("hardware_revision").i != HARDWARE_REVISION {
        return Refused(HardwareMismatch);
      }
      var versionOk := CheckToken(d.Member("version").s, MAX_VERSION_LENGTH);
      if !versionOk {
        return Refused(VersionInvalid);
      }
      if d.Member("build").i <= BUILD {
        return Refused(BuildNotNewer);
      }
      if d.Member("channel").s != CHANNEL {
        return Refused(ChannelMismatch);
      }
      if d.Member("size").i == 0 {
        return Refused(FirmwareSizeInvalid);
      }
      if d.Member("file").s != "firmware.bin" {
        return Refused(FileInvalid);
      }
      var digest := new Byte[DIGEST_LENGTH](_ => 0);
      var digestOk := ParseSha256(d.Member("sha256").s, digest);
      if !digestOk {
        return Refused(Sha256Invalid);
      }
      return Described(MetadataOf(d, digest[..]));
    }

    method Prepare(manifest: string, signature: string) returns (error: Option<PackageError>)
      modifies this`metadata
      ensures match Inspect(trust, manifest, signature)
        case Refused(e) => error == Some(e) && metadata == NO_METADATA
        case Described(m) => error == None && metadata == m
    {
      Clear();
      if |manifest| == 0 || |manifest| > MAX_MANIFEST_LENGTH {
        return Some(ManifestSizeInvalid);
      }
      var encoded := Trim(signature);
      if |encoded| == 0 || |encoded| > MAX_SIGNATURE_LENGTH {
        return Some(SignatureEncodingInvalid);
      }
      if !trust.verify(manifest, encoded) {
        return Some(SignatureInvalid);
      }
      if trust.parse(manifest).None? {
        return Some(ManifestJsonInvalid);
      }
      var inspection := CheckFields(trust.parse(manifest).value);
      if inspection.Refused? {
        return Some(inspection.error);
      }
      metadata := inspection.metadata;
      return None;
    }
  }
}
