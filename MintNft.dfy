/** Minting an ARC-3 NFT from the frontend (frontend/src/components/MintNFT.tsx):
    the image and then the metadata go to IPFS, the metadata's SHA-256 digest
    is hex-encoded and decoded back to bytes, and a one-unit, zero-decimal
    asset is created whose URL points at the metadata ("#arc3") and whose
    metadata hash is that digest. IPFS pinning, the gateway URL, JSON
    serialisation, UTF-8 encoding, SHA-256 and the ledger call are opaque
    functions supplied in `Services`. */
module MintNft {
  import opened Common

  type byte = x: int | 0 <= x < 256

  /** A SHA-256 digest. */
  type Digest = s: seq<byte> | |s| == 32 witness seq(32, _ => 0)

  // ---------------------------------------------------------------------------
  // Unit name: `name.slice(0, 8).replace(/\s+/g, '')`

  /** JavaScript's `\s`: the WhiteSpace and LineTerminator code points. */
  predicate IsWhitespace(c: char) {
    c == '\t' || c == '\n' || c == '\U{000B}' || c == '\U{000C}' || c == '\r' || c == ' ' ||
    c == '\U{00A0}' || c == '\U{1680}' || ('\U{2000}' <= c <= '\U{200A}') ||
    c == '\U{2028}' || c == '\U{2029}' || c == '\U{202F}' || c == '\U{205F}' ||
    c == '\U{3000}' || c == '\U{FEFF}'
  }

  /** Removes every whitespace character, keeping the others in order. */
  function StripWhitespace(s: string): string {
    if s == [] then []
    else (if IsWhitespace(s[0]) then [] else [s[0]]) + StripWhitespace(s[1..])
  }

  /** What is left is no longer than the input, contains no whitespace, and
      keeps every other character of the input. */
  lemma {:induction false} StripWhitespaceShape(s: string)
    ensures |StripWhitespace(s)| <= |s|
    ensures forall i :: 0 <= i < |StripWhitespace(s)| ==> !IsWhitespace(StripWhitespace(s)[i])
    ensures forall c :: c in StripWhitespace(s) <==> c in s && !IsWhitespace(c)
    decreases |s|
  {
    if s != [] {
      StripWhitespaceShape(s[1..]);
      assert s == [s[0]] + s[1..];
    }
  }

  /** A string without whitespace is left as it is. */
  lemma {:induction false} StripWhitespaceKeeps(s: string)
    requires forall i :: 0 <= i < |s| ==> !IsWhitespace(s[i])
    ensures StripWhitespace(s) == s
    decreases |s|
  {
    if s != [] {
      StripWhitespaceKeeps(s[1..]);
    }
  }

  /** The asset's unit name: the first 8 characters of the name, then with
      whitespace removed. */
  function UnitName(name: string): string {
    StripWhitespace(if |name| <= 8 then name else name[..8])
  }

  /** A unit name is at most 8 characters long, has no whitespace, and uses
      only characters of the name. */
  lemma UnitNameShape(name: string)
    ensures |UnitName(name)| <= 8
    ensures forall i :: 0 <= i < |UnitName(name)| ==> !IsWhitespace(UnitName(name)[i])
    ensures forall c :: c in UnitName(name) ==> c in name
  {
    var prefix := if |name| <= 8 then name else name[..8];
    StripWhitespaceShape(prefix);
    assert forall c :: c in prefix ==> c in name;
  }

  /** A unit name is its own unit name, and a short name without whitespace is
      its own unit name. */
  lemma UnitNameFixpoints(name: string)
    ensures UnitName(UnitName(name)) == UnitName(name)
    ensures |name| <= 8 && (forall i :: 0 <= i < |name| ==> !IsWhitespace(name[i])) ==>
      UnitName(name) == name
  {
    UnitNameShape(name);
    StripWhitespaceKeeps(UnitName(name));
    if |name| <= 8 && (forall i :: 0 <= i < |name| ==> !IsWhitespace(name[i])) {
      StripWhitespaceKeeps(name);
    }
  }

  /** The slice comes before the whitespace removal, so a space among the
      first 8 characters costs a character: "Campus Award" gives "CampusA". */
  lemma CampusAwardUnitName()
    ensures UnitName("Campus Award") == "CampusA"
  {
    assert "Campus Award"[..8] == "Campus A";
    assert StripWhitespace("A") == "A";
    assert StripWhitespace(" A") == "A";
    assert StripWhitespace("s A") == "sA";
    assert StripWhitespace("us A") == "usA";
    assert StripWhitespace("pus A") == "pusA";
    assert StripWhitespace("mpus A") == "mpusA";
    assert StripWhitespace("ampus A") == "ampusA";
  }

  // ---------------------------------------------------------------------------
  // Metadata and its URL

  datatype Properties = Properties(simple_property: string)

  /** The ARC-3 metadata record, fields in the order they are serialised. */
  datatype Arc3Metadata = Arc3Metadata(
    name: string, description: string, image: string, image_mimetype: string,
    external_url: string, properties: Properties)

  const DefaultMimeType: string := "image/png"
  const Arc3Fragment: string := "#arc3"

  /** The metadata object built from the form and the uploaded image's URL. */
  function BuildMetadata(name: string, description: string, imageUrl: string, fileType: string)
    : (m: Arc3Metadata)
    ensures m.name == name && m.description == description
    ensures m.image == imageUrl && m.external_url == imageUrl
    ensures m.image_mimetype == if fileType == "" then DefaultMimeType else fileType
    ensures m.properties == Properties("Dashing Item")
  {
    Arc3Metadata(name, description, imageUrl, if fileType != "" then fileType else DefaultMimeType,
                 imageUrl, Properties("Dashing Item"))
  }

  /** The published metadata URL: the gateway URL followed by "#arc3". */
  function Arc3Url(gatewayUrl: string): string {
    gatewayUrl + Arc3Fragment
  }

  /** What a verifier re-fetches: the URL without its "#arc3" suffix, or None
      when there is no such suffix. */
  function FetchUrl(url: string): (r: Option<string>)
    ensures r.Some? ==> r.value + Arc3Fragment == url
    ensures r.None? ==> !(|url| >= |Arc3Fragment| && url[|url| - |Arc3Fragment|..] == Arc3Fragment)
  {
    var n := |Arc3Fragment|;
    if |url| >= n && url[|url| - n..] == Arc3Fragment then
      assert url[..|url| - n] + url[|url| - n..] == url;
      Some(url[..|url| - n])
    else None
  }

  /** Removing the fragment gives back the gateway URL that was published. */
  lemma Arc3UrlRoundTrip(gatewayUrl: string)
    ensures FetchUrl(Arc3Url(gatewayUrl)) == Some(gatewayUrl)
  {
    var url := Arc3Url(gatewayUrl);
    assert url[|url| - |Arc3Fragment|..] == Arc3Fragment;
    assert url[..|url| - |Arc3Fragment|] == gatewayUrl;
  }

  // ---------------------------------------------------------------------------
  // Hex encoding of the digest (`sha256Hex`) and its decoding

  function HexDigit(d: nat): (c: char)
    requires d < 16
  {
    if d < 10 then ('0' as int + d) as char else ('a' as int + d - 10) as char
  }

  predicate IsHexDigit(c: char) {
    ('0' <= c <= '9') || ('a' <= c <= 'f') || ('A' <= c <= 'F')
  }

  /** The digits the encoder emits. */
  predicate IsLowerHexDigit(c: char) {
    ('0' <= c <= '9') || ('a' <= c <= 'f')
  }

  function HexValue(c: char): (d: nat)
    requires IsHexDigit(c)
    ensures d < 16
  {
    if '0' <= c <= '9' then c as int - '0' as int
    else if 'a' <= c <= 'f' then c as int - 'a' as int + 10
    else c as int - 'A' as int + 10
  }

  lemma HexDigitValue(d: nat)
    requires d < 16
    ensures IsHexDigit(HexDigit(d)) && HexValue(HexDigit(d)) == d
    ensures IsLowerHexDigit(HexDigit(d))
  {
  }

  /** `b.toString(16)`: the base-16 digits of the byte without leading zeros. */
  function Radix16(b: byte): string {
    if b < 16 then [HexDigit(b)] else [HexDigit(b / 16), HexDigit(b % 16)]
  }

  /** `padStart(2, '0')`. */
  function PadStart2(s: string): string {
    if |s| >= 2 then s else seq(2 - |s|, _ => '0') + s
  }

  /** The two digits emitted for one byte: lowercase, most significant first. */
  function ByteHex(b: byte): (h: string)
    ensures |h| == 2
    ensures IsHexDigit(h[0]) && IsHexDigit(h[1])
    ensures IsLowerHexDigit(h[0]) && IsLowerHexDigit(h[1])
    ensures HexValue(h[0]) * 16 + HexValue(h[1]) == b
  {
    HexDigitValue(b / 16);
    HexDigitValue(b % 16);
    PadStart2(Radix16(b))
  }

  /** `hashArray.map(b => b.toString(16).padStart(2, '0')).join('')`. */
  function HexEncode(bytes: seq<byte>): (s: string)
    ensures |s| == 2 * |bytes|
  {
    if bytes == [] then "" else ByteHex(bytes[0]) + HexEncode(bytes[1..])
  }

  /** Characters 2i and 2i+1 of the encoding spell byte i. */
  lemma {:induction false} HexEncodeSpells(bytes: seq<byte>, i: nat)
    requires i < |bytes|
    ensures HexEncode(bytes)[2 * i..2 * i + 2] == ByteHex(bytes[i])
    decreases i
  {
    var h, rest := ByteHex(bytes[0]), HexEncode(bytes[1..]);
    assert HexEncode(bytes) == h + rest;
    if i > 0 {
      HexEncodeSpells(bytes[1..], i - 1);
      assert (h + rest)[2 * i..2 * i + 2] == rest[2 * (i - 1)..2 * (i - 1) + 2];
    }
  }

  /** Every character of the encoding is a lowercase hex digit. */
  lemma HexEncodeLowercase(bytes: seq<byte>, k: nat)
    requires k < |HexEncode(bytes)|
    ensures IsLowerHexDigit(HexEncode(bytes)[k])
  {
    var i := k / 2;
    HexEncodeSpells(bytes, i);
    assert HexEncode(bytes)[k] == HexEncode(bytes)[2 * i..2 * i + 2][k - 2 * i];
  }

  /** The characters the regular-expression `.` does not match. */
  predicate IsLineTerminator(c: char) {
    c == '\n' || c == '\r' || c == '\U{2028}' || c == '\U{2029}'
  }

  /** `s.match(/.{1,2}/g)`: the successive runs of one or two characters other
      than line terminators; no match at all is `null`, here []. */
  function Chunks(s: string): seq<string>
    decreases |s|
  {
    if s == [] then []
    else if IsLineTerminator(s[0]) then Chunks(s[1..])
    else if |s| >= 2 && !IsLineTerminator(s[1]) then [s[..2]] + Chunks(s[2..])
    else [s[..1]] + Chunks(s[1..])
  }

  /** The longest prefix of hex digits. */
  function HexPrefix(s: string): (p: string)
    ensures p <= s
    ensures forall i :: 0 <= i < |p| ==> IsHexDigit(p[i])
    ensures |p| == |s| || !IsHexDigit(s[|p|])
  {
    if s != [] && IsHexDigit(s[0]) then [s[0]] + HexPrefix(s[1..]) else []
  }

  /** The value of a string of hex digits. */
  function HexNumber(digits: string): nat
    requires forall i :: 0 <= i < |digits| ==> IsHexDigit(digits[i])
  {
    if digits == [] then 0
    else HexNumber(digits[..|digits| - 1]) * 16 + HexValue(digits[|digits| - 1])
  }

  /** The leading-whitespace skip of `parseInt`: exactly the leading
      whitespace is dropped. */
  function TrimStart(s: string): (r: string)
    ensures |r| <= |s| && r == s[|s| - |r|..]
    ensures r == [] || !IsWhitespace(r[0])
    ensures forall i :: 0 <= i < |s| - |r| ==> IsWhitespace(s[i])
  {
    if s != [] && IsWhitespace(s[0]) then TrimStart(s[1..]) else s
  }

  /** `parseInt(text, 16)`: leading whitespace, a sign and a "0x" prefix are
      skipped, then the longest run of hex digits is read; None stands for NaN. */
  function ParseInt16(text: string): Option<int> {
    var t := TrimStart(text);
    var negative := t != [] && t[0] == '-';
    var unsigned := if t != [] && (t[0] == '-' || t[0] == '+') then t[1..] else t;
    var body := if |unsigned| >= 2 && unsigned[0] == '0' && (unsigned[1] == 'x' || unsigned[1] == 'X')
                then unsigned[2..] else unsigned;
    var digits := HexPrefix(body);
    var magnitude: int := if digits == [] then 0 else HexNumber(digits);
    if digits == [] then None
    else Some(if negative then -magnitude else magnitude)
  }

  /** Storing a number in a `Uint8Array`: NaN becomes 0, everything else is
      taken modulo 256. */
  function ToUint8(n: Option<int>): byte {
    match n
    case None => 0
    case Some(v) => v % 256
  }

  const NullMatchError: string := "Cannot read properties of null (reading 'map')"

  /** `new Uint8Array(hex.match(/.{1,2}/g)!.map(byte => parseInt(byte, 16)))`;
      the non-null assertion fails, and the mint with it, when nothing matches. */
  function HexDecode(hex: string): (r: Result<seq<byte>>)
    ensures r.Fail? <==> Chunks(hex) == []
  {
    var chunks := Chunks(hex);
    if chunks == [] then Fail(NullMatchError)
    else Ok(seq(|chunks|, i requires 0 <= i < |chunks| => ToUint8(ParseInt16(chunks[i]))))
  }

  lemma ByteHexParses(b: byte)
    ensures ParseInt16(ByteHex(b)) == Some(b)
  {
    var h := ByteHex(b);
    assert !IsWhitespace(h[0]);
    assert TrimStart(h) == h;
    assert h[0] != '-' && h[0] != '+';
    assert !(h[1] == 'x' || h[1] == 'X');
    assert HexPrefix(h[1..]) == [h[1]] + HexPrefix([]) by { assert h[1..] == [h[1]]; }
    assert HexPrefix(h) == h;
    assert h[..1] == [h[0]];
    assert HexNumber(h) == HexNumber([h[0]]) * 16 + HexValue(h[1]);
    assert HexNumber([h[0]]) == HexNumber([]) * 16 + HexValue(h[0]);
  }

  lemma ByteToUint8(b: byte)
    ensures ToUint8(Some(b)) == b
  {
  }

  lemma ByteHexDecodes(b: byte, chunk: string)
    requires chunk == ByteHex(b)
    ensures ToUint8(ParseInt16(chunk)) == b
  {
    ByteHexParses(b);
    ByteToUint8(b);
  }

  lemma {:induction false} ChunksOfEncoding(bytes: seq<byte>)
    ensures Chunks(HexEncode(bytes)) == seq(|bytes|, i requires 0 <= i < |bytes| => ByteHex(bytes[i]))
    decreases |bytes|
  {
    if bytes != [] {
      var s := HexEncode(bytes);
      var h := ByteHex(bytes[0]);
      assert s[..2] == h;
      assert s[2..] == HexEncode(bytes[1..]);
      HexDigitValue(HexValue(h[0]));
      assert !IsLineTerminator(s[0]) && !IsLineTerminator(s[1]);
      ChunksOfEncoding(bytes[1..]);
    }
  }

  /** Decoding the digits recovers the bytes: 32 digest bytes give 64
      characters, which give back the same 32 bytes. */
  lemma HexRoundTrip(bytes: seq<byte>)
    requires bytes != []
    ensures HexDecode(HexEncode(bytes)) == Ok(bytes)
  {
    ChunksOfEncoding(bytes);
    var chunks := Chunks(HexEncode(bytes));
    var r := HexDecode(HexEncode(bytes));
    assert r.Ok? && |r.value| == |bytes|;
    forall i | 0 <= i < |bytes| ensures r.value[i] == bytes[i] {
      ByteHexDecodes(bytes[i], chunks[i]);
    }
    assert r.value == bytes;
  }

  // ---------------------------------------------------------------------------
  // The asset-create request

  datatype AssetCreateParams = AssetCreateParams(
    sender: Address, total: nat, decimals: nat, unitName: string, assetName: string,
    manager: Address, reserve: Address, freeze: Address, clawback: Address,
    url: string, metadataHash: seq<byte>, defaultFrozen: bool)

  /** The parameters of `assetCreate`: a single indivisible unit, every role
      held by the minting wallet, not frozen by default. */
  function CreateParams(sender: Address, name: string, metadataUrl: string, metadataHash: seq<byte>)
    : AssetCreateParams
  {
    AssetCreateParams(sender, 1, 0, UnitName(name), name, sender, sender, sender, sender,
                      metadataUrl, metadataHash, false)
  }

  // ---------------------------------------------------------------------------
  // The pipeline

  /** The selected image: its MIME type (`file.type`) and its bytes. */
  datatype FileData = FileData(mimeType: string, content: seq<byte>)

  /** The collaborators of a mint, as functions of their input. */
  datatype Services = Services(
    pinFile: FileData -> Result<string>,         // pinFileToIPFS: the IPFS hash of the image
    pinJson: Arc3Metadata -> Result<string>,     // pinJSONToIPFS: the IPFS hash of the metadata
    gatewayUrl: string -> string,                // ipfsHttpUrl
    stringify: Arc3Metadata -> string,           // JSON.stringify
    utf8: string -> seq<byte>,                   // TextEncoder.encode
    sha256: seq<byte> -> Digest,                 // crypto.subtle.digest('SHA-256', ...)
    assetCreate: AssetCreateParams -> Result<nat>) // algorand.send.assetCreate: the new asset id

  /** One call into a collaborator, in the order they are made. */
  datatype Call =
    | PinFile(file: FileData)
    | PinJson(metadata: Arc3Metadata)
    | Hash(bytes: seq<byte>)
    | CreateAsset(params: AssetCreateParams)

  datatype Step = PinFileStep | PinJsonStep | HashStep | CreateStep

  function StepOf(c: Call): Step {
    match c
    case PinFile(_) => PinFileStep
    case PinJson(_) => PinJsonStep
    case Hash(_) => HashStep
    case CreateAsset(_) => CreateStep
  }

  const Protocol: seq<Step> := [PinFileStep, PinJsonStep, HashStep, CreateStep]

  /** The calls a mint makes and how it ends. */
  datatype MintRun = MintRun(calls: seq<Call>, outcome: Result<nat>)

  /** What the `try` block of `onMint` does for a connected wallet and a
      selected file: each step's result feeds the next, the first failure ends
      the run with its message. */
  function Mint(sender: Address, name: string, description: string, file: FileData, env: Services)
    : MintRun
  {
    var filePin := env.pinFile(file);
    if filePin.Fail? then MintRun([PinFile(file)], Fail(filePin.msg))
    else
      var imageUrl := env.gatewayUrl(filePin.value);
      var metadata := BuildMetadata(name, description, imageUrl, file.mimeType);
      var jsonPin := env.pinJson(metadata);
      if jsonPin.Fail? then MintRun([PinFile(file), PinJson(metadata)], Fail(jsonPin.msg))
      else
        var metadataUrl := Arc3Url(env.gatewayUrl(jsonPin.value));
        var metaBytes := env.utf8(env.stringify(metadata));
        var calls := [PinFile(file), PinJson(metadata), Hash(metaBytes)];
        match HexDecode(HexEncode(env.sha256(metaBytes)))
        case Fail(msg) => MintRun(calls, Fail(msg))
        case Ok(metadataHash) =>
          var params := CreateParams(sender, name, metadataUrl, metadataHash);
          MintRun(calls + [CreateAsset(params)], env.assetCreate(params))
  }

  /** When both uploads succeed the run makes all four calls, and the
      request carries the digest itself, recovered from its hex digits. */
  lemma MintCompleted(sender: Address, name: string, description: string, file: FileData, env: Services)
    requires env.pinFile(file).Ok?
    requires env.pinJson(BuildMetadata(name, description, env.gatewayUrl(env.pinFile(file).value), file.mimeType)).Ok?
    ensures var metadata := BuildMetadata(name, description, env.gatewayUrl(env.pinFile(file).value), file.mimeType);
      var bytes := env.utf8(env.stringify(metadata));
      var params := CreateParams(sender, name, Arc3Url(env.gatewayUrl(env.pinJson(metadata).value)), env.sha256(bytes));
      Mint(sender, name, description, file, env) ==
        MintRun([PinFile(file), PinJson(metadata), Hash(bytes), CreateAsset(params)], env.assetCreate(params))
  {
    var metadata := BuildMetadata(name, description, env.gatewayUrl(env.pinFile(file).value), file.mimeType);
    HexRoundTrip(env.sha256(env.utf8(env.stringify(metadata))));
  }

  /** The steps run in the fixed order upload, upload, hash, create, none
      skipped: every run is a non-empty prefix of that order. */
  lemma MintFollowsProtocol(sender: Address, name: string, description: string, file: FileData, env: Services)
    ensures var run := Mint(sender, name, description, file, env);
      && 1 <= |run.calls| <= 4
      && forall i :: 0 <= i < |run.calls| ==> StepOf(run.calls[i]) == Protocol[i]
  {
    if env.pinFile(file).Ok? {
      var metadata := BuildMetadata(name, description, env.gatewayUrl(env.pinFile(file).value), file.mimeType);
      if env.pinJson(metadata).Ok? {
        MintCompleted(sender, name, description, file, env);
      }
    }
  }

  /** Fail-fast: a failing upload ends the run right there with its own
      message; the ledger is only asked once both uploads and the hash are
      done, and the run succeeds exactly when the ledger does. */
  lemma MintFailsFast(sender: Address, name: string, description: string, file: FileData, env: Services)
    ensures var run := Mint(sender, name, description, file, env);
      && (env.pinFile(file).Fail? ==>
            run.calls == [PinFile(file)] && run.outcome == Fail(env.pinFile(file).msg))
      && (env.pinFile(file).Ok? && run.calls[1].PinJson? && env.pinJson(run.calls[1].metadata).Fail? ==>
            |run.calls| == 2 && run.outcome == Fail(env.pinJson(run.calls[1].metadata).msg))
      && (run.outcome.Ok? ==> |run.calls| == 4)
      && (|run.calls| == 4 ==> run.outcome == env.assetCreate(run.calls[3].params))
  {
    var run := Mint(sender, name, description, file, env);
    if env.pinFile(file).Ok? {
      var metadata := BuildMetadata(name, description, env.gatewayUrl(env.pinFile(file).value), file.mimeType);
      if env.pinJson(metadata).Ok? {
        MintCompleted(sender, name, description, file, env);
      }
    }
  }

  /** The ARC-3 binding: whenever the ledger is asked to create the asset, the
      request is a single-unit NFT owned by the sender whose URL is the pinned
      metadata's URL with "#arc3" and whose metadata hash is the SHA-256 of
      `JSON.stringify` of the metadata object that was handed to the pinning
      call; that metadata points at the pinned image. */
  lemma MintBindsMetadataHash(sender: Address, name: string, description: string, file: FileData, env: Services)
    ensures var run := Mint(sender, name, description, file, env);
      |run.calls| == 4 ==>
        var m, p := run.calls[1].metadata, run.calls[3].params;
        && run.calls[1].PinJson? && run.calls[2].Hash? && run.calls[3].CreateAsset?
        && env.pinFile(file).Ok? && env.pinJson(m).Ok?
        && m == BuildMetadata(name, description, env.gatewayUrl(env.pinFile(file).value), file.mimeType)
        && run.calls[2].bytes == env.utf8(env.stringify(m))
        && p.metadataHash == env.sha256(env.utf8(env.stringify(m)))
        && |p.metadataHash| == 32
        && p.url == Arc3Url(env.gatewayUrl(env.pinJson(m).value))
        && FetchUrl(p.url) == Some(env.gatewayUrl(env.pinJson(m).value))
        && p.total == 1 && p.decimals == 0 && !p.defaultFrozen
        && p.assetName == name && p.unitName == UnitName(name)
        && p.sender == sender && p.manager == sender && p.reserve == sender
        && p.freeze == sender && p.clawback == sender
  {
    var run := Mint(sender, name, description, file, env);
    if env.pinFile(file).Ok? {
      var metadata := BuildMetadata(name, description, env.gatewayUrl(env.pinFile(file).value), file.mimeType);
      if env.pinJson(metadata).Ok? {
        MintCompleted(sender, name, description, file, env);
        Arc3UrlRoundTrip(env.gatewayUrl(env.pinJson(metadata).value));
      } else {
        assert run == MintRun([PinFile(file), PinJson(metadata)], Fail(env.pinJson(metadata).msg));
      }
    } else {
      assert run == MintRun([PinFile(file)], Fail(env.pinFile(file).msg));
    }
  }

  // ---------------------------------------------------------------------------
  // The form component

  datatype Variant = Error | Success
  datatype Notice = Notice(text: string, variant: Variant)

  const ConnectWalletFirst: Notice := Notice("Connect a wallet first", Error)
  const SelectAnImage: Notice := Notice("Select an image", Error)

  predicate IsDecimalDigit(c: char) {
    '0' <= c <= '9'
  }

  function DigitValue(c: char): (d: nat)
    requires IsDecimalDigit(c)
    ensures d < 10
  {
    c as int - '0' as int
  }

  /** The value of a string of decimal digits, most significant first. */
  function DecimalValue(digits: string): nat
    requires forall i :: 0 <= i < |digits| ==> IsDecimalDigit(digits[i])
  {
    if digits == [] then 0
    else DecimalValue(digits[..|digits| - 1]) * 10 + DigitValue(digits[|digits| - 1])
  }

  /** `${n}` for a non-negative integer: its decimal digits, with no leading
      zero except for 0 itself. */
  function DecimalString(n: nat): (s: string)
    ensures |s| >= 1
    ensures forall i :: 0 <= i < |s| ==> IsDecimalDigit(s[i])
    ensures DecimalValue(s) == n
    ensures s[0] == '0' <==> n == 0
    ensures n == 0 ==> s == "0"
  {
    if n < 10 then [('0' as int + n) as char]
    else
      var prefix := DecimalString(n / 10);
      var s := prefix + [('0' as int + n % 10) as char];
      assert s[..|s| - 1] == prefix;
      s
  }

  /** The mint form's state. */
  class MintForm {
    var name: string
    var description: string
    var file: Option<FileData>
    var loading: bool
    /** Every snackbar shown so far, oldest first. */
    var notices: seq<Notice>
    /** Every call made into a collaborator so far, oldest first. */
    var calls: seq<Call>
    /** Whether `closeModal` has been called. */
    var closed: bool

    constructor ()
      ensures name == "AlgoNFT" && description == "My first NFT!" && file == None
      ensures !loading && notices == [] && calls == [] && !closed
    {
      name := "AlgoNFT";
      description := "My first NFT!";
      file := None;
      loading := false;
      notices := [];
      calls := [];
      closed := false;
    }

    /** `onMint`. Without a wallet, then without a file, it only reports an
        error; otherwise it runs the pipeline, reports its outcome, closes the
        form on success, and always ends with `loading` reset. */
    method OnMint(activeAddress: Option<Address>, env: Services)
      modifies this`loading, this`notices, this`calls, this`closed
      ensures activeAddress.None? ==>
        notices == old(notices) + [ConnectWalletFirst] && calls == old(calls) &&
        loading == old(loading) && closed == old(closed)
      ensures activeAddress.Some? && file.None? ==>
        notices == old(notices) + [SelectAnImage] && calls == old(calls) &&
        loading == old(loading) && closed == old(closed)
      ensures activeAddress.Some? && file.Some? ==>
        var run := Mint(activeAddress.value, name, description, file.value, env);
        && calls == old(calls) + run.calls
        && !loading
        && closed == (old(closed) || run.outcome.Ok?)
        && notices == old(notices) + [
             if run.outcome.Ok? then Notice("NFT minted. ASA ID: " + DecimalString(run.outcome.value), Success)
             else Notice(run.outcome.msg, Error)]
    {
      if activeAddress.None? {
        notices := notices + [ConnectWalletFirst];
        return;
      }
      if file.None? {
        notices := notices + [SelectAnImage];
        return;
      }
      loading := true;
      var outcome := RunMint(activeAddress.value, file.value, env);

      if outcome.Ok? {
        notices := notices + [Notice("NFT minted. ASA ID: " + DecimalString(outcome.value), Success)];
        closed := true;
      } else {
        notices := notices + [Notice(outcome.msg, Error)];
      }
      loading := false;
    }

    /** The `try` block of `onMint`: the four steps, each recorded as it is
        made, stopping at the first failure. */
    method RunMint(sender: Address, f: FileData, env: Services) returns (outcome: Result<nat>)
      modifies this`calls
      ensures calls == old(calls) + Mint(sender, name, description, f, env).calls
      ensures outcome == Mint(sender, name, description, f, env).outcome
    {
      // 1) upload the image
      calls := calls + [PinFile(f)];
      var filePin := env.pinFile(f);
      if filePin.Fail? {
        outcome := Fail(filePin.msg);
      } else {
        var imageUrl := env.gatewayUrl(filePin.value);
        // 2) build the metadata
        var metadata := BuildMetadata(name, description, imageUrl, f.mimeType);
        // 3) upload the metadata
        calls := calls + [PinJson(metadata)];
        var jsonPin := env.pinJson(metadata);
        if jsonPin.Fail? {
          outcome := Fail(jsonPin.msg);
        } else {
          var metadataUrl := Arc3Url(env.gatewayUrl(jsonPin.value));
          // 4) the ARC-3 metadata hash
          var metaBytes := env.utf8(env.stringify(metadata));
          calls := calls + [Hash(metaBytes)];
          var metaHex := HexEncode(env.sha256(metaBytes));
          match HexDecode(metaHex)
          case Fail(msg) =>
            outcome := Fail(msg);
          case Ok(metadataHash) =>
            // 5) create the asset
            var params := CreateParams(sender, name, metadataUrl, metadataHash);
            calls := calls + [CreateAsset(params)];
            outcome := env.assetCreate(params);
        }
      }
    }

    /** The name field's `onChange`. */
    method SetName(n: string)
      modifies this`name
      ensures name == n
    {
      name := n;
    }

    /** The description field's `onChange`. */
    method SetDescription(d: string)
      modifies this`description
      ensures description == d
    {
      description := d;
    }

    /** The file input's `onChange`: the first selected file, or none. */
    method SetFile(f: Option<FileData>)
      modifies this`file
      ensures file == f
    {
      file := f;
    }
  }
}
