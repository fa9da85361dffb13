// The versioned binary records of redb-storage/src/lib.rs: encoding and decoding are
// exact inverses, so every accepted record has one and only one byte form.
module RecordCodec {
  import opened Common
  import opened Utf8

  type Bytes = seq<byte>

  // Text fields are UTF-8 bytes, as a Rust String always is.
  datatype Settings = Settings(repository: Bytes, revision: Bytes, hostBytes: nat, deviceBytes: nat, drainTimeout: nat)

  datatype ScalarType = F32 | F16 | Bf16

  datatype ModelRecord = ModelRecord(name: Bytes, repository: Bytes, revision: Bytes, scalar: ScalarType, lastUsed: nat)

  datatype Field = ModelName | Repository | Revision | DrainTimeout

  datatype StorageError =
    | InvalidField(field: Field)
    | InvalidRecordKind
    | UnsupportedVersion(version: nat)
    | TruncatedRecord
    | StringTooLong(length: nat)
    | InvalidText
    | InvalidScalarType(code: nat)
    | TrailingBytes

  type Outcome<T> = Result<T, StorageError>

  function SettingsMagic(): Bytes { [0x4C, 0x41, 0x53, 0x31] }

  function ModelMagic(): Bytes { [0x4C, 0x41, 0x4D, 0x31] }

  const RECORD_VERSION: nat := 1

  // ----- Little-endian integers -----

  function Power(width: nat): nat {
    if width == 0 then 1 else 256 * Power(width - 1)
  }

  function Le(value: nat, width: nat): (r: Bytes)
    ensures |r| == width
  {
    if width == 0 then [] else [value % 256] + Le(value / 256, width - 1)
  }

  function FromLe(bytes: Bytes): nat {
    if bytes == [] then 0 else bytes[0] + 256 * FromLe(bytes[1..])
  }

  lemma {:induction false} LeInverse(value: nat, width: nat)
    requires value < Power(width)
    ensures FromLe(Le(value, width)) == value
  {
    if width > 0 {
      LeInverse(value / 256, width - 1);
      assert Le(value, width)[1..] == Le(value / 256, width - 1);
    }
  }

  lemma {:induction false} FromLeInverse(bytes: Bytes)
    ensures FromLe(bytes) < Power(|bytes|) && Le(FromLe(bytes), |bytes|) == bytes
  {
    if bytes != [] {
      FromLeInverse(bytes[1..]);
      DigitsApart(bytes[0], FromLe(bytes[1..]));
      assert bytes == [bytes[0]] + bytes[1..];
    }
  }

  lemma DigitsApart(low: byte, high: nat)
    ensures (low + 256 * high) % 256 == low && (low + 256 * high) / 256 == high
  {
  }

  lemma Widths()
    ensures Power(1) == 256 && Power(2) == 0x1_0000 && Power(4) == U32_MAX + 1 && Power(8) == U64_MAX + 1
  {
    assert Power(0) == 1;
    assert Power(1) == 256 * Power(0);
    assert Power(2) == 256 * Power(1);
    assert Power(3) == 256 * Power(2);
    assert Power(4) == 256 * Power(3);
    assert Power(5) == 256 * Power(4);
    assert Power(6) == 256 * Power(5);
    assert Power(7) == 256 * Power(6);
    assert Power(8) == 256 * Power(7);
  }

  // ----- Text -----

  // String::from_utf8, by the streaming validator.
  predicate IsText(bytes: Bytes) {
    var d := FeedAll([], [], bytes);
    d.error.None? && d.pending == []
  }

  // It accepts exactly the well-formed byte strings.
  lemma TextIsWellFormed(bytes: Bytes)
    ensures IsText(bytes) <==> WellFormed(bytes)
  {
    AcceptsExactly(bytes);
  }

  // The width of the Unicode White_Space character a text starts with, or 0.
  function WhiteWidth(s: Bytes): (w: nat)
    ensures w <= |s|
  {
    if s == [] then 0
    else if 0x09 <= s[0] <= 0x0D || s[0] == 0x20 then 1
    else if |s| >= 2 && s[0] == 0xC2 && (s[1] == 0x85 || s[1] == 0xA0) then 2
    else if |s| < 3 then 0
    else if s[0] == 0xE1 && s[1] == 0x9A && s[2] == 0x80 then 3
    else if s[0] == 0xE2 && s[1] == 0x80 && (0x80 <= s[2] <= 0x8A || s[2] == 0xA8 || s[2] == 0xA9 || s[2] == 0xAF) then 3
    else if s[0] == 0xE2 && s[1] == 0x81 && s[2] == 0x9F then 3
    else if s[0] == 0xE3 && s[1] == 0x80 && s[2] == 0x80 then 3
    else 0
  }

  // value.trim().is_empty().
  predicate IsBlank(s: Bytes) {
    s == [] || (WhiteWidth(s) > 0 && IsBlank(s[WhiteWidth(s)..]))
  }

  // The code points with the Unicode property White_Space.
  predicate White(p: nat) {
    || 0x09 <= p <= 0x0D || p == 0x20 || p == 0x85 || p == 0xA0 || p == 0x1680 || 0x2000 <= p <= 0x200A
    || p == 0x2028 || p == 0x2029 || p == 0x202F || p == 0x205F || p == 0x3000
  }

  ghost predicate AllWhite(points: seq<nat>) {
    forall i :: 0 <= i < |points| ==> White(points[i])
  }

  ghost function Spelling(points: seq<nat>): Bytes
    requires AllWhite(points)
  {
    if points == [] then [] else Encode(points[0]) + Spelling(points[1..])
  }

  // Nothing but white space.
  ghost predicate Blank(s: Bytes) {
    exists points :: AllWhite(points) && Spelling(points) == s
  }

  lemma WhiteStarts(p: nat, rest: Bytes)
    requires White(p)
    ensures WhiteWidth(Encode(p) + rest) == |Encode(p)| > 0
  {
  }

  lemma StartsWhite(s: Bytes) returns (p: nat)
    requires WhiteWidth(s) > 0
    ensures White(p) && Encode(p) == s[..WhiteWidth(s)]
  {
    var b := seq(|s|, i requires 0 <= i < |s| => s[i] as int);
    if WhiteWidth(s) == 1 {
      p := b[0];
    } else if WhiteWidth(s) == 2 {
      TwoBytes(b[0] - 0xC0, b[1] - 0x80);
      p := (b[0] - 0xC0) * 64 + (b[1] - 0x80);
    } else {
      ThreeBytes(b[0] - 0xE0, b[1] - 0x80, b[2] - 0x80);
      p := ((b[0] - 0xE0) * 64 + (b[1] - 0x80)) * 64 + (b[2] - 0x80);
    }
  }

  // Trimming leaves nothing exactly of a text that is all white space.
  lemma {:induction false} BlankExactly(s: Bytes)
    ensures IsBlank(s) <==> Blank(s)
    decreases |s|
  {
    hide WhiteWidth, White, Encode;
    if s == [] {
      assert AllWhite([]) && Spelling([]) == s;
    } else {
      if IsBlank(s) {
        var p := StartsWhite(s);
        var rest := s[WhiteWidth(s)..];
        BlankExactly(rest);
        var points :| AllWhite(points) && Spelling(points) == rest;
        assert ([p] + points)[1..] == points;
        assert AllWhite([p] + points) && Spelling([p] + points) == s;
      }
      if Blank(s) {
        var points :| AllWhite(points) && Spelling(points) == s;
        WhiteStarts(points[0], Spelling(points[1..]));
        var rest := s[WhiteWidth(s)..];
        assert rest == Spelling(points[1..]);
        BlankExactly(rest);
      }
    }
  }

  function ValidateNonEmpty(value: Bytes, field: Field): Outcome<()> {
    if IsBlank(value) then Err(InvalidField(field)) else Ok(())
  }

  function ValidateSettings(s: Settings): Outcome<()> {
    var _ :- ValidateNonEmpty(s.repository, Repository);
    var _ :- ValidateNonEmpty(s.revision, Revision);
    if s.drainTimeout == 0 then Err(InvalidField(DrainTimeout)) else Ok(())
  }

  function ValidateModel(r: ModelRecord): Outcome<()> {
    var _ :- ValidateNonEmpty(r.name, ModelName);
    var _ :- ValidateNonEmpty(r.repository, Repository);
    ValidateNonEmpty(r.revision, Revision)
  }

  // ----- Well-typed records and their byte forms -----

  ghost predicate TextFits(s: Bytes) {
    WellFormed(s) && |s| <= U32_MAX
  }

  ghost predicate SettingsFit(s: Settings) {
    TextFits(s.repository) && TextFits(s.revision) && s.hostBytes <= U64_MAX && s.deviceBytes <= U64_MAX && s.drainTimeout <= U64_MAX
  }

  ghost predicate ModelFits(r: ModelRecord) {
    TextFits(r.name) && TextFits(r.repository) && TextFits(r.revision) && r.lastUsed <= U64_MAX
  }

  // The fields a record must have something in.
  ghost predicate SettingsValid(s: Settings) {
    !Blank(s.repository) && !Blank(s.revision) && s.drainTimeout > 0
  }

  ghost predicate ModelValid(r: ModelRecord) {
    !Blank(r.name) && !Blank(r.repository) && !Blank(r.revision)
  }

  lemma ValidExactly(s: Settings, r: ModelRecord)
    ensures ValidateSettings(s).Ok? <==> SettingsValid(s)
    ensures ValidateModel(r).Ok? <==> ModelValid(r)
  {
    hide IsBlank, Blank;
    BlankExactly(s.repository);
    BlankExactly(s.revision);
    BlankExactly(r.name);
    BlankExactly(r.repository);
    BlankExactly(r.revision);
  }

  function Header(magic: Bytes): Bytes {
    magic + Le(RECORD_VERSION, 2)
  }

  function TextBytes(s: Bytes): Bytes {
    Le(|s|, 4) + s
  }

  function ScalarCode(scalar: ScalarType): nat {
    match scalar
    case F32 => 0
    case F16 => 1
    case Bf16 => 2
  }

  function SettingsBytes(s: Settings): Bytes {
    [0x4C, 0x41, 0x53, 0x31, 1, 0] + (TextBytes(s.repository) + (TextBytes(s.revision)
      + (Le(s.hostBytes, 8) + (Le(s.deviceBytes, 8) + Le(s.drainTimeout, 8)))))
  }

  function ModelBytes(r: ModelRecord): Bytes {
    [0x4C, 0x41, 0x4D, 0x31, 1, 0] + (TextBytes(r.name) + (TextBytes(r.repository) + (TextBytes(r.revision)
      + ([if r.scalar.F32? then 0 else if r.scalar.F16? then 1 else 2] + Le(r.lastUsed, 8)))))
  }

  // ----- Encoding -----

  method EncodeText(output: Bytes, value: Bytes) returns (r: Outcome<Bytes>)
    ensures r == if |value| <= U32_MAX then Ok(output + TextBytes(value)) else Err(StringTooLong(|value|))
  {
    if |value| > U32_MAX {
      return Err(StringTooLong(|value|));
    }
    var next := output + Le(|value|, 4);
    next := next + value;
    assert next == output + TextBytes(value);
    return Ok(next);
  }

  // encode_settings: fails exactly when a string is too long for the format.
  method EncodeSettings(settings: Settings) returns (r: Outcome<Bytes>)
    ensures r.Ok? <==> |settings.repository| <= U32_MAX && |settings.revision| <= U32_MAX
    ensures r.Ok? ==> r.value == SettingsBytes(settings)
    ensures r.Err? ==> r.error == StringTooLong(if |settings.repository| > U32_MAX then |settings.repository| else |settings.revision|)
  {
    hide Le, TextBytes;
    HeadersSpelled();
    var output := SettingsMagic();
    output := output + Le(RECORD_VERSION, 2);
    output :- EncodeText(output, settings.repository);
    output :- EncodeText(output, settings.revision);
    output := output + Le(settings.hostBytes, 8);
    output := output + Le(settings.deviceBytes, 8);
    output := output + Le(settings.drainTimeout, 8);
    return Ok(output);
  }

  method EncodeModel(record: ModelRecord) returns (r: Outcome<Bytes>)
    ensures r.Ok? <==> |record.name| <= U32_MAX && |record.repository| <= U32_MAX && |record.revision| <= U32_MAX
    ensures r.Ok? ==> r.value == ModelBytes(record)
    ensures r.Err? ==> r.error == StringTooLong(if |record.name| > U32_MAX then |record.name|
                                                else if |record.repository| > U32_MAX then |record.repository| else |record.revision|)
  {
    hide TextBytes;
    HeadersSpelled();
    ScalarsSpelled(record.scalar);
    var output := ModelMagic();
    output := output + Le(RECORD_VERSION, 2);
    output :- EncodeText(output, record.name);
    output :- EncodeText(output, record.repository);
    output :- EncodeText(output, record.revision);
    output := output + [ScalarCode(record.scalar)];
    assert Le(ScalarCode(record.scalar), 1) == [ScalarCode(record.scalar)];
    output := output + Le(record.lastUsed, 8);
    return Ok(output);
  }

  // ----- Reading on values -----

  datatype Read<+T> = Read(value: T, rest: Bytes)

  function ReadInteger(bytes: Bytes, width: nat): Outcome<Read<nat>> {
    if |bytes| < width then Err(TruncatedRecord) else Ok(Read(FromLe(bytes[..width]), bytes[width..]))
  }

  function ReadText(bytes: Bytes): Outcome<Read<Bytes>> {
    var length :- ReadInteger(bytes, 4);
    if |length.rest| < length.value then Err(TruncatedRecord)
    else if !IsText(length.rest[..length.value]) then Err(InvalidText)
    else Ok(Read(length.rest[..length.value], length.rest[length.value..]))
  }

  function ReadHeader(bytes: Bytes, magic: Bytes): Outcome<Bytes>
    requires |magic| == 4
  {
    if |bytes| < 4 then Err(TruncatedRecord)
    else if bytes[..4] != magic then Err(InvalidRecordKind)
    else if |bytes| < 6 then Err(TruncatedRecord)
    else if FromLe(bytes[4..6]) != RECORD_VERSION then Err(UnsupportedVersion(FromLe(bytes[4..6])))
    else Ok(bytes[6..])
  }

  function ReadScalar(bytes: Bytes): Outcome<Read<ScalarType>> {
    if bytes == [] then Err(TruncatedRecord)
    else if bytes[0] == 0 then Ok(Read(F32, bytes[1..]))
    else if bytes[0] == 1 then Ok(Read(F16, bytes[1..]))
    else if bytes[0] == 2 then Ok(Read(Bf16, bytes[1..]))
    else Err(InvalidScalarType(bytes[0]))
  }

  function SettingsOf(bytes: Bytes): Outcome<Settings> {
    var start :- ReadHeader(bytes, SettingsMagic());
    var repository :- ReadText(start);
    var revision :- ReadText(repository.rest);
    var host :- ReadInteger(revision.rest, 8);
    var device :- ReadInteger(host.rest, 8);
    var drain :- ReadInteger(device.rest, 8);
    if drain.rest != [] then Err(TrailingBytes)
    else
      var settings := Settings(repository.value, revision.value, host.value, device.value, drain.value);
      var _ :- ValidateSettings(settings);
      Ok(settings)
  }

  function ModelOf(bytes: Bytes): Outcome<ModelRecord> {
    var start :- ReadHeader(bytes, ModelMagic());
    var name :- ReadText(start);
    var repository :- ReadText(name.rest);
    var revision :- ReadText(repository.rest);
    var scalar :- ReadScalar(revision.rest);
    var lastUsed :- ReadInteger(scalar.rest, 8);
    if lastUsed.rest != [] then Err(TrailingBytes)
    else
      var record := ModelRecord(name.value, repository.value, revision.value, scalar.value, lastUsed.value);
      var _ :- ValidateModel(record);
      Ok(record)
  }

  // ----- Each reader inverts its writer, both ways -----

  lemma IntegerReads(bytes: Bytes, width: nat, value: nat, rest: Bytes)
    ensures ReadInteger(bytes, width) == Ok(Read(value, rest)) <==> value < Power(width) && bytes == Le(value, width) + rest
  {
    if |bytes| >= width {
      FromLeInverse(bytes[..width]);
      assert bytes == bytes[..width] + bytes[width..];
    }
    if value < Power(width) && bytes == Le(value, width) + rest {
      LeInverse(value, width);
      assert bytes[..width] == Le(value, width) && bytes[width..] == rest;
    }
  }

  lemma TextReads(bytes: Bytes, value: Bytes, rest: Bytes)
    ensures ReadText(bytes) == Ok(Read(value, rest)) <==> TextFits(value) && bytes == TextBytes(value) + rest
  {
    hide IsText, WellFormed, Le, FromLe, Power;
    Widths();
    TextIsWellFormed(value);
    if TextFits(value) && bytes == TextBytes(value) + rest {
      IntegerReads(bytes, 4, |value|, value + rest);
      assert bytes == Le(|value|, 4) + (value + rest);
      assert (value + rest)[..|value|] == value && (value + rest)[|value|..] == rest;
    }
    if ReadText(bytes) == Ok(Read(value, rest)) {
      var length := ReadInteger(bytes, 4).value;
      IntegerReads(bytes, 4, length.value, length.rest);
      assert length.rest == value + rest;
      assert bytes == Le(|value|, 4) + (value + rest);
    }
  }

  lemma HeaderReads(bytes: Bytes, magic: Bytes, rest: Bytes)
    requires |magic| == 4
    ensures ReadHeader(bytes, magic) == Ok(rest) <==> bytes == Header(magic) + rest
  {
    hide Le, FromLe, Power;
    Widths();
    if |bytes| >= 6 {
      FromLeInverse(bytes[4..6]);
      assert bytes == bytes[..4] + bytes[4..6] + bytes[6..];
    }
    if bytes == Header(magic) + rest {
      LeInverse(RECORD_VERSION, 2);
      assert bytes[..4] == magic && bytes[4..6] == Le(RECORD_VERSION, 2) && bytes[6..] == rest;
    }
  }

  lemma HeadersSpelled()
    ensures Header(SettingsMagic()) == [0x4C, 0x41, 0x53, 0x31, 1, 0] && Header(ModelMagic()) == [0x4C, 0x41, 0x4D, 0x31, 1, 0]
  {
    assert Le(RECORD_VERSION, 2) == [1] + Le(0, 1);
  }

  lemma ScalarsSpelled(scalar: ScalarType)
    ensures Le(ScalarCode(scalar), 1) == [if scalar.F32? then 0 else if scalar.F16? then 1 else 2]
  {
  }

  lemma ScalarReads(bytes: Bytes, value: ScalarType, rest: Bytes)
    ensures ReadScalar(bytes) == Ok(Read(value, rest)) <==> bytes == Le(ScalarCode(value), 1) + rest
  {
    assert Le(ScalarCode(value), 1) == [ScalarCode(value)];
    if bytes != [] {
      assert bytes == [bytes[0]] + bytes[1..];
    }
    if bytes == [ScalarCode(value)] + rest {
      assert bytes[1..] == rest;
    }
  }

  // ----- The canonical bijection -----

  // A settings record is accepted exactly in its own byte form: decoding inverts
  // encoding, and no other bytes decode to it.
  lemma SettingsCanonical(bytes: Bytes, s: Settings)
    ensures SettingsOf(bytes) == Ok(s) <==> bytes == SettingsBytes(s) && SettingsFit(s) && SettingsValid(s)
  {
    ValidExactly(s, ModelRecord([], [], [], F32, 0));
    if SettingsOf(bytes) == Ok(s) {
      SettingsDecoded(bytes, s);
    }
    if bytes == SettingsBytes(s) && SettingsFit(s) && ValidateSettings(s).Ok? {
      SettingsEncoded(s);
    }
    hide SettingsOf, SettingsBytes, SettingsFit, ValidateSettings, SettingsValid;
  }

  lemma SettingsDecoded(bytes: Bytes, s: Settings)
    requires SettingsOf(bytes) == Ok(s)
    ensures bytes == SettingsBytes(s) && SettingsFit(s) && ValidateSettings(s).Ok?
  {
    hide ReadHeader, ReadText, ReadInteger, Le, TextBytes, Header, TextFits, IsBlank, Power;
    Widths();
    HeadersSpelled();
    var start := ReadHeader(bytes, SettingsMagic()).value;
    HeaderReads(bytes, SettingsMagic(), start);
    var repository := ReadText(start).value;
    TextReads(start, repository.value, repository.rest);
    var revision := ReadText(repository.rest).value;
    TextReads(repository.rest, revision.value, revision.rest);
    var host := ReadInteger(revision.rest, 8).value;
    IntegerReads(revision.rest, 8, host.value, host.rest);
    var device := ReadInteger(host.rest, 8).value;
    IntegerReads(host.rest, 8, device.value, device.rest);
    var drain := ReadInteger(device.rest, 8).value;
    IntegerReads(device.rest, 8, drain.value, drain.rest);
    assert Le(drain.value, 8) + [] == Le(drain.value, 8);
  }

  lemma SettingsEncoded(s: Settings)
    requires SettingsFit(s) && ValidateSettings(s).Ok?
    ensures SettingsOf(SettingsBytes(s)) == Ok(s)
  {
    hide ReadHeader, ReadText, ReadInteger, Le, TextBytes, Header, TextFits, IsBlank, Power;
    Widths();
    HeadersSpelled();
    var e5 := Le(s.drainTimeout, 8);
    var e4 := Le(s.deviceBytes, 8) + e5;
    var e3 := Le(s.hostBytes, 8) + e4;
    var e2 := TextBytes(s.revision) + e3;
    var e1 := TextBytes(s.repository) + e2;
    assert e5 + [] == e5;
    HeaderReads(SettingsBytes(s), SettingsMagic(), e1);
    TextReads(e1, s.repository, e2);
    TextReads(e2, s.revision, e3);
    IntegerReads(e3, 8, s.hostBytes, e4);
    IntegerReads(e4, 8, s.deviceBytes, e5);
    IntegerReads(e5, 8, s.drainTimeout, []);
  }

  // The same for model records.
  lemma ModelCanonical(bytes: Bytes, r: ModelRecord)
    ensures ModelOf(bytes) == Ok(r) <==> bytes == ModelBytes(r) && ModelFits(r) && ModelValid(r)
  {
    ValidExactly(Settings([], [], 0, 0, 0), r);
    if ModelOf(bytes) == Ok(r) {
      ModelDecoded(bytes, r);
    }
    if bytes == ModelBytes(r) && ModelFits(r) && ValidateModel(r).Ok? {
      ModelEncoded(r);
    }
    hide ModelOf, ModelBytes, ModelFits, ValidateModel, ModelValid;
  }

  lemma ModelDecoded(bytes: Bytes, r: ModelRecord)
    requires ModelOf(bytes) == Ok(r)
    ensures bytes == ModelBytes(r) && ModelFits(r) && ValidateModel(r).Ok?
  {
    hide ReadHeader, ReadText, ReadInteger, ReadScalar, Le, TextBytes, Header, TextFits, IsBlank, Power;
    Widths();
    HeadersSpelled();
    var start := ReadHeader(bytes, ModelMagic()).value;
    HeaderReads(bytes, ModelMagic(), start);
    var name := ReadText(start).value;
    TextReads(start, name.value, name.rest);
    var repository := ReadText(name.rest).value;
    TextReads(name.rest, repository.value, repository.rest);
    var revision := ReadText(repository.rest).value;
    TextReads(repository.rest, revision.value, revision.rest);
    var scalar := ReadScalar(revision.rest).value;
    ScalarReads(revision.rest, scalar.value, scalar.rest);
    ScalarsSpelled(scalar.value);
    var lastUsed := ReadInteger(scalar.rest, 8).value;
    IntegerReads(scalar.rest, 8, lastUsed.value, lastUsed.rest);
    assert Le(lastUsed.value, 8) + [] == Le(lastUsed.value, 8);
  }

  lemma ModelEncoded(r: ModelRecord)
    requires ModelFits(r) && ValidateModel(r).Ok?
    ensures ModelOf(ModelBytes(r)) == Ok(r)
  {
    hide ReadHeader, ReadText, ReadInteger, ReadScalar, Le, TextBytes, Header, TextFits, IsBlank, Power;
    Widths();
    HeadersSpelled();
    ScalarsSpelled(r.scalar);
    var e5 := Le(r.lastUsed, 8);
    var e4 := Le(ScalarCode(r.scalar), 1) + e5;
    var e3 := TextBytes(r.revision) + e4;
    var e2 := TextBytes(r.repository) + e3;
    var e1 := TextBytes(r.name) + e2;
    assert e5 + [] == e5;
    HeaderReads(ModelBytes(r), ModelMagic(), e1);
    TextReads(e1, r.name, e2);
    TextReads(e2, r.repository, e3);
    TextReads(e3, r.revision, e4);
    ScalarReads(e4, r.scalar, e5);
    IntegerReads(e5, 8, r.lastUsed, []);
  }

  // The two record kinds never read as each other.
  lemma KindsAreDisjoint(bytes: Bytes)
    ensures SettingsOf(bytes).Err? || ModelOf(bytes).Err?
  {
    hide ReadText, ReadInteger, ReadScalar, ValidateSettings, ValidateModel;
    assert SettingsMagic()[2] != ModelMagic()[2];
  }

  // ----- The decoder object -----

  class Decoder {
    const bytes: Bytes
    var offset: nat

    ghost predicate Valid()
      reads this
    {
      offset <= |bytes|
    }

    constructor (bytes: Bytes, offset: nat)
      requires offset <= |bytes|
      ensures Valid() && this.bytes == bytes && this.offset == offset
    {
      this.bytes := bytes;
      this.offset := offset;
    }

    // Decoder::new.
    static method Open(bytes: Bytes, magic: Bytes) returns (decoder: Decoder, r: Outcome<()>)
      requires |magic| == 4
      ensures fresh(decoder) && decoder.Valid() && decoder.bytes == bytes
      ensures r.Ok? ==> ReadHeader(bytes, magic) == Ok(bytes[decoder.offset..])
      ensures r.Err? ==> ReadHeader(bytes, magic) == Err(r.error)
    {
      decoder := new Decoder(bytes, 0);
      if |bytes| < 4 {
        return decoder, Err(TruncatedRecord);
      }
      if bytes[..4] != magic {
        return decoder, Err(InvalidRecordKind);
      }
      if |bytes| < 6 {
        return decoder, Err(TruncatedRecord);
      }
      var version := FromLe(bytes[4..6]);
      if version != RECORD_VERSION {
        return decoder, Err(UnsupportedVersion(version));
      }
      decoder := new Decoder(bytes, 6);
      return decoder, Ok(());
    }

    method Integer(width: nat) returns (r: Outcome<nat>)
      requires Valid()
      modifies this
      ensures Valid()
      ensures r.Ok? ==> ReadInteger(bytes[old(offset)..], width) == Ok(Read(r.value, bytes[offset..]))
      ensures r.Err? ==> ReadInteger(bytes[old(offset)..], width) == Err(r.error) && offset == old(offset)
    {
      var end := offset + width;
      if end > |bytes| {
        return Err(TruncatedRecord);
      }
      var value := FromLe(bytes[offset..end]);
      assert bytes[offset..][..width] == bytes[offset..end] && bytes[offset..][width..] == bytes[end..];
      offset := end;
      return Ok(value);
    }

    method Text() returns (r: Outcome<Bytes>)
      requires Valid()
      modifies this
      ensures Valid()
      ensures r.Ok? ==> ReadText(bytes[old(offset)..]) == Ok(Read(r.value, bytes[offset..]))
      ensures r.Err? ==> ReadText(bytes[old(offset)..]) == Err(r.error)
    {
      var length :- Integer(4);
      var end := offset + length;
      if end > |bytes| {
        return Err(TruncatedRecord);
      }
      var text := bytes[offset..end];
      assert bytes[offset..][..length] == text && bytes[offset..][length..] == bytes[end..];
      offset := end;
      if !IsText(text) {
        return Err(InvalidText);
      }
      return Ok(text);
    }

    method Scalar() returns (r: Outcome<ScalarType>)
      requires Valid()
      modifies this
      ensures Valid()
      ensures r.Ok? ==> ReadScalar(bytes[old(offset)..]) == Ok(Read(r.value, bytes[offset..]))
      ensures r.Err? ==> ReadScalar(bytes[old(offset)..]) == Err(r.error)
    {
      if offset >= |bytes| {
        return Err(TruncatedRecord);
      }
      var code := bytes[offset];
      assert bytes[offset..][0] == code && bytes[offset..][1..] == bytes[offset + 1..];
      offset := offset + 1;
      if code == 0 {
        return Ok(F32);
      }
      if code == 1 {
        return Ok(F16);
      }
      if code == 2 {
        return Ok(Bf16);
      }
      return Err(InvalidScalarType(code));
    }

    method Finish() returns (r: Outcome<()>)
      requires Valid()
      ensures r == if bytes[offset..] == [] then Ok(()) else Err(TrailingBytes)
    {
      if offset != |bytes| {
        return Err(TrailingBytes);
      }
      return Ok(());
    }
  }

  // decode_settings.
  method DecodeSettings(bytes: Bytes) returns (r: Outcome<Settings>)
    ensures r == SettingsOf(bytes)
  {
    hide ReadHeader, ReadText, ReadInteger, ValidateSettings;
    var decoder, header := Decoder.Open(bytes, SettingsMagic());
    var _ :- header;
    var repository :- decoder.Text();
    var revision :- decoder.Text();
    var host :- decoder.Integer(8);
    var device :- decoder.Integer(8);
    var drain :- decoder.Integer(8);
    var _ :- decoder.Finish();
    var settings := Settings(repository, revision, host, device, drain);
    var _ :- ValidateSettings(settings);
    return Ok(settings);
  }

  // decode_model.
  method DecodeModel(bytes: Bytes) returns (r: Outcome<ModelRecord>)
    ensures r == ModelOf(bytes)
  {
    hide ReadHeader, ReadText, ReadInteger, ReadScalar, ValidateModel;
    var decoder, header := Decoder.Open(bytes, ModelMagic());
    var _ :- header;
    var name :- decoder.Text();
    var repository :- decoder.Text();
    var revision :- decoder.Text();
    var scalar :- decoder.Scalar();
    var lastUsed :- decoder.Integer(8);
    var _ :- decoder.Finish();
    var record := ModelRecord(name, repository, revision, scalar, lastUsed);
    var _ :- ValidateModel(record);
    return Ok(record);
  }
}
