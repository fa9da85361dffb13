// The bounded GGUF header parser (gguf-backend/src/metadata.rs): on any encoded list of
// entries it reads exactly the header and finds exactly what a lookup by key finds.
module GgufHeader {
  import opened Common
  import opened RecordCodec

  datatype HeaderLimits = HeaderLimits(headerBytes: nat, entries: nat, stringBytes: nat, arrayElements: nat)

  datatype MetadataError = ReadFailed | InvalidFormat | LimitExceeded | InvalidValue | NumericOverflow | InvalidUtf8Text

  type Parsed<T> = Result<T, MetadataError>

  // ----- Value types -----

  const TYPE_STRING: nat := 8
  const TYPE_ARRAY: nat := 9

  // fixed_width; 0 for types without one.
  function FixedWidth(code: nat): nat {
    if code == 0 || code == 1 || code == 7 then 1
    else if code == 2 || code == 3 then 2
    else if code == 4 || code == 5 || code == 6 then 4
    else if code == 10 || code == 11 || code == 12 then 8
    else 0
  }

  predicate IsUnsigned(code: nat) {
    code == 0 || code == 2 || code == 4 || code == 10
  }

  predicate IsSigned(code: nat) {
    code == 1 || code == 3 || code == 5 || code == 11
  }

  // ----- The bounded source -----

  // The bytes not read yet and how many of them may still be read.
  datatype Source = Source(rest: Bytes, remaining: nat)

  datatype Got<+T> = Got(value: T, source: Source)

  // read_exact over BoundedReader: a shortfall is a limit error if the limit comes first.
  function ReadExact(s: Source, n: nat): Parsed<Got<Bytes>> {
    if n <= |s.rest| && n <= s.remaining then Ok(Got(s.rest[..n], Source(s.rest[n..], s.remaining - n)))
    else if s.remaining <= |s.rest| then Err(LimitExceeded)
    else Err(ReadFailed)
  }

  function ReadNumber(s: Source, width: nat): Parsed<Got<nat>> {
    var bytes :- ReadExact(s, width);
    Ok(Got(FromLe(bytes.value), bytes.source))
  }

  function ReadString(s: Source, maximum: nat): Parsed<Got<Bytes>> {
    var length :- ReadNumber(s, 8);
    if length.value > maximum then Err(LimitExceeded)
    else
      var bytes :- ReadExact(length.source, length.value);
      if IsText(bytes.value) then Ok(bytes) else Err(InvalidUtf8Text)
  }

  function SkipBytes(s: Source, n: nat): Parsed<Source> {
    var bytes :- ReadExact(s, n);
    Ok(bytes.source)
  }

  function SkipString(s: Source, maximum: nat): Parsed<Source> {
    var length :- ReadNumber(s, 8);
    if length.value > maximum then Err(LimitExceeded) else SkipBytes(length.source, length.value)
  }

  function SkipStrings(s: Source, count: nat, maximum: nat): Parsed<Source>
    decreases count
  {
    if count == 0 then Ok(s)
    else
      var next :- SkipString(s, maximum);
      SkipStrings(next, count - 1, maximum)
  }

  // skip_value.
  function SkipValue(s: Source, code: nat, limits: HeaderLimits): Parsed<Source> {
    if FixedWidth(code) > 0 then SkipBytes(s, FixedWidth(code))
    else if code == TYPE_STRING then SkipString(s, limits.stringBytes)
    else if code == TYPE_ARRAY then
      var element :- ReadNumber(s, 4);
      if element.value == TYPE_ARRAY then Err(InvalidFormat)
      else
        var count :- ReadNumber(element.source, 8);
        if count.value > limits.arrayElements then Err(LimitExceeded)
        else if FixedWidth(element.value) > 0 then
          if count.value * FixedWidth(element.value) > U64_MAX then Err(NumericOverflow)
          else SkipBytes(count.source, count.value * FixedWidth(element.value))
        else if element.value == TYPE_STRING then SkipStrings(count.source, count.value, limits.stringBytes)
        else Err(InvalidFormat)
    else Err(InvalidFormat)
  }

  // read_integer: two's complement for signed types, and negative values are invalid.
  function ReadTyped(s: Source, code: nat): Parsed<Got<nat>> {
    if !IsUnsigned(code) && !IsSigned(code) then Err(InvalidFormat)
    else
      var number :- ReadNumber(s, FixedWidth(code));
      if IsSigned(code) && 2 * number.value >= Power(FixedWidth(code)) then Err(InvalidValue) else Ok(number)
  }

  // ----- What is collected -----

  // One optional field per slot.
  datatype Slot = Architecture | FileType | Vocabulary | ContextLength | BlockCount | EmbeddingLength | HeadCountKv | HeadCount

  datatype Item = TextItem(text: Bytes) | NumberItem(number: nat) | ScopedItem(scope: Bytes, number: nat)

  type Collected = map<Slot, Item>

  function Ascii(s: string): Bytes {
    seq(|s|, i requires 0 <= i < |s| => s[i] as int % 256)
  }

  function ArchitectureKey(): Bytes { Ascii("general.architecture") }

  function FileTypeKey(): Bytes { Ascii("general.file_type") }

  function TokensKey(): Bytes { Ascii("tokenizer.ggml.tokens") }

  // architecture_prefix.
  function Prefix(key: Bytes, suffix: Bytes): Option<Bytes> {
    if |suffix| < |key| && key[|key| - |suffix|..] == suffix && 0x2E !in key[..|key| - |suffix|]
    then Some(key[..|key| - |suffix|]) else None
  }

  datatype Target = NoTarget | PlainTarget(slot: Slot) | ScopedTarget(slot: Slot, scope: Bytes)

  function ScopedKey(key: Bytes, suffix: Bytes, slot: Slot, otherwise: Target): Target {
    var scope := Prefix(key, suffix);
    if scope.Some? then ScopedTarget(slot, scope.value) else otherwise
  }

  // Which field a key belongs to.
  function TargetOf(key: Bytes): Target {
    if key == ArchitectureKey() then PlainTarget(Architecture)
    else if key == FileTypeKey() then PlainTarget(FileType)
    else if key == TokensKey() then PlainTarget(Vocabulary)
    else
      ScopedKey(key, Ascii(".context_length"), ContextLength,
      ScopedKey(key, Ascii(".block_count"), BlockCount,
      ScopedKey(key, Ascii(".embedding_length"), EmbeddingLength,
      ScopedKey(key, Ascii(".attention.head_count_kv"), HeadCountKv,
      ScopedKey(key, Ascii(".attention.head_count"), HeadCount, NoTarget)))))
  }

  // read_token_array.
  function ReadTokenArray(s: Source, code: nat, limits: HeaderLimits, c: Collected): Parsed<Got<Collected>> {
    if code != TYPE_ARRAY then Err(InvalidFormat)
    else
      var element :- ReadNumber(s, 4);
      var count :- ReadNumber(element.source, 8);
      if count.value > limits.arrayElements then Err(LimitExceeded)
      else if element.value != TYPE_STRING then Err(InvalidFormat)
      else if Vocabulary in c then Err(InvalidFormat)
      else if count.value > U32_MAX then Err(NumericOverflow)
      else
        var after :- SkipStrings(count.source, count.value, limits.stringBytes);
        Ok(Got(c[Vocabulary := NumberItem(count.value)], after))
  }

  // read_metadata_value.
  function ReadValue(s: Source, target: Target, code: nat, limits: HeaderLimits, c: Collected): Parsed<Got<Collected>> {
    match target
    case PlainTarget(Architecture) =>
      if code != TYPE_STRING || Architecture in c then Err(InvalidFormat)
      else
        var text :- ReadString(s, limits.stringBytes);
        Ok(Got(c[Architecture := TextItem(text.value)], text.source))
    case PlainTarget(FileType) =>
      if FileType in c then Err(InvalidFormat)
      else
        var value :- ReadTyped(s, code);
        if value.value > U16_MAX then Err(NumericOverflow)
        else Ok(Got(c[FileType := NumberItem(value.value)], value.source))
    case PlainTarget(_) => ReadTokenArray(s, code, limits, c)
    case ScopedTarget(slot, scope) =>
      var value :- ReadTyped(s, code);
      if slot in c then Err(InvalidFormat)
      else if value.value > U32_MAX then Err(NumericOverflow)
      else Ok(Got(c[slot := ScopedItem(scope, value.value)], value.source))
    case NoTarget =>
      var after :- SkipValue(s, code, limits);
      Ok(Got(c, after))
  }

  function ReadEntry(s: Source, limits: HeaderLimits, c: Collected): Parsed<Got<Collected>> {
    var key :- ReadString(s, limits.stringBytes);
    var code :- ReadNumber(key.source, 4);
    ReadValue(code.source, TargetOf(key.value), code.value, limits, c)
  }

  function ReadEntries(s: Source, count: nat, limits: HeaderLimits, c: Collected): Parsed<Got<Collected>>
    decreases count
  {
    if count == 0 then Ok(Got(c, s))
    else
      var next :- ReadEntry(s, limits, c);
      ReadEntries(next.source, count - 1, limits, next.value)
  }

  // ----- The summary -----

  datatype Metadata = Metadata(
    architectureName: Bytes,
    contextLength: nat,
    blockCount: nat,
    embeddingLength: nat,
    headCount: nat,
    headCountKv: nat,
    vocabularySize: nat,
    fileType: nat
  )

  // required_architecture_value.
  function RequiredScoped(c: Collected, slot: Slot, name: Bytes): Parsed<nat> {
    if slot !in c || !c[slot].ScopedItem? then Err(InvalidFormat)
    else if c[slot].scope != name || c[slot].number == 0 then Err(InvalidValue)
    else Ok(c[slot].number)
  }

  // CollectedMetadata::finish.
  function Finish(c: Collected): Parsed<Metadata> {
    if Architecture !in c || !c[Architecture].TextItem? then Err(InvalidFormat)
    else
      var name := c[Architecture].text;
      var context :- RequiredScoped(c, ContextLength, name);
      var blocks :- RequiredScoped(c, BlockCount, name);
      var embedding :- RequiredScoped(c, EmbeddingLength, name);
      var heads :- RequiredScoped(c, HeadCount, name);
      var kv :- if HeadCountKv in c then RequiredScoped(c, HeadCountKv, name) else Ok(heads);
      if kv > heads || kv == 0 || heads % kv != 0 then Err(InvalidValue)
      else if Vocabulary !in c || !c[Vocabulary].NumberItem? || c[Vocabulary].number == 0 then Err(InvalidValue)
      else if FileType !in c || !c[FileType].NumberItem? then Err(InvalidFormat)
      else Ok(Metadata(name, context, blocks, embedding, heads, kv, c[Vocabulary].number, c[FileType].number))
  }

  function Magic(): Bytes { [0x47, 0x47, 0x55, 0x46] }

  // inspect_reader.
  function Inspect(s: Source, limits: HeaderLimits): Parsed<Got<Metadata>> {
    var magic :- ReadExact(s, 4);
    if magic.value != Magic() then Err(InvalidFormat)
    else
      var version :- ReadNumber(magic.source, 4);
      if version.value != 2 && version.value != 3 then Err(InvalidFormat)
      else
        var tensors :- ReadNumber(version.source, 8);
        var count :- ReadNumber(tensors.source, 8);
        if count.value > limits.entries then Err(LimitExceeded)
        else
          var collected :- ReadEntries(count.source, count.value, limits, map[]);
          var metadata :- Finish(collected.value);
          Ok(Got(metadata, collected.source))
  }

  // ----- Headers as written -----

  datatype Value =
    | Scalar(code: nat, raw: Bytes)
    | TextValue(text: Bytes)
    | ScalarArray(element: nat, count: nat, raw: Bytes)
    | TextArray(texts: seq<Bytes>)

  datatype Entry = Entry(key: Bytes, value: Value)

  function CodeOf(value: Value): nat {
    match value
    case Scalar(code, _) => code
    case TextValue(_) => 8
    case _ => 9
  }

  function LongText(text: Bytes): Bytes {
    Le(|text|, 8) + text
  }

  function LongTexts(texts: seq<Bytes>): Bytes {
    if texts == [] then [] else LongText(texts[0]) + LongTexts(texts[1..])
  }

  function ValueBytes(value: Value): Bytes {
    match value
    case Scalar(_, raw) => raw
    case TextValue(text) => LongText(text)
    case ScalarArray(element, count, raw) => Le(element, 4) + (Le(count, 8) + raw)
    case TextArray(texts) => Le(8, 4) + (Le(|texts|, 8) + LongTexts(texts))
  }

  function EntryBytes(e: Entry): Bytes {
    LongText(e.key) + (Le(CodeOf(e.value), 4) + ValueBytes(e.value))
  }

  function EntriesBytes(entries: seq<Entry>): Bytes {
    if entries == [] then [] else EntryBytes(entries[0]) + EntriesBytes(entries[1..])
  }

  // A value of a supported type, within the limits.
  predicate ValueSupported(value: Value, limits: HeaderLimits) {
    match value
    case Scalar(code, raw) => (code, |raw|) in {(0, 1), (1, 1), (2, 2), (3, 2), (4, 4), (5, 4), (6, 4), (7, 1), (10, 8), (11, 8), (12, 8)}
    case TextValue(text) => |text| <= limits.stringBytes && |text| <= U64_MAX
    case ScalarArray(element, count, raw) =>
      FixedWidth(element) > 0 && |raw| == count * FixedWidth(element) <= U64_MAX && count <= limits.arrayElements && count <= U64_MAX
    case TextArray(texts) =>
      |texts| <= limits.arrayElements && |texts| <= U64_MAX
      && forall i :: 0 <= i < |texts| ==> |texts[i]| <= limits.stringBytes && |texts[i]| <= U64_MAX
  }

  predicate Supported(e: Entry, limits: HeaderLimits) {
    IsText(e.key) && |e.key| <= limits.stringBytes && |e.key| <= U64_MAX && ValueSupported(e.value, limits)
  }

  // ----- What one entry means -----

  // The integer a scalar holds, if it is one and not negative.
  function IntegerIn(value: Value): Option<nat> {
    if !value.Scalar? || (!IsUnsigned(value.code) && !IsSigned(value.code)) then None
    else if IsSigned(value.code) && 2 * FromLe(value.raw) >= Power(FixedWidth(value.code)) then None
    else Some(FromLe(value.raw))
  }

  // The field an entry sets and its value; None if it sets no field.
  datatype Meaning = Rejected | Ignored | Sets(slot: Slot, item: Item)

  function MeaningOf(e: Entry): Meaning {
    match TargetOf(e.key)
    case PlainTarget(Architecture) =>
      if e.value.TextValue? && IsText(e.value.text) then Sets(Architecture, TextItem(e.value.text)) else Rejected
    case PlainTarget(FileType) =>
      if IntegerIn(e.value).Some? && IntegerIn(e.value).value <= U16_MAX then Sets(FileType, NumberItem(IntegerIn(e.value).value)) else Rejected
    case PlainTarget(_) =>
      if e.value.TextArray? && |e.value.texts| <= U32_MAX then Sets(Vocabulary, NumberItem(|e.value.texts|)) else Rejected
    case ScopedTarget(slot, scope) =>
      if IntegerIn(e.value).Some? && IntegerIn(e.value).value <= U32_MAX then Sets(slot, ScopedItem(scope, IntegerIn(e.value).value)) else Rejected
    case NoTarget => Ignored
  }

  // A list of entries is acceptable when none is rejected and no field is set twice.
  ghost predicate Acceptable(entries: seq<Entry>) {
    && (forall i :: 0 <= i < |entries| ==> !MeaningOf(entries[i]).Rejected?)
    && (forall i, j :: 0 <= i < j < |entries| && MeaningOf(entries[i]).Sets? && MeaningOf(entries[j]).Sets? ==>
          MeaningOf(entries[i]).slot != MeaningOf(entries[j]).slot)
  }

  // c holds exactly what looking the fields up in the entries gives.
  ghost predicate LooksUp(c: Collected, entries: seq<Entry>) {
    && (forall i :: 0 <= i < |entries| && MeaningOf(entries[i]).Sets? ==>
          MeaningOf(entries[i]).slot in c && c[MeaningOf(entries[i]).slot] == MeaningOf(entries[i]).item)
    && (forall slot :: slot in c ==> exists i :: 0 <= i < |entries| && MeaningOf(entries[i]) == Sets(slot, c[slot]))
  }

  // ----- Each reader consumes exactly what its writer wrote -----

  lemma ExactReads(a: Bytes, rest: Bytes, remaining: nat)
    requires |a| <= remaining
    ensures ReadExact(Source(a + rest, remaining), |a|) == Ok(Got(a, Source(rest, remaining - |a|)))
  {
    assert (a + rest)[..|a|] == a && (a + rest)[|a|..] == rest;
  }

  lemma NumberReads(value: nat, width: nat, rest: Bytes, remaining: nat)
    requires value < Power(width) && width <= remaining
    ensures ReadNumber(Source(Le(value, width) + rest, remaining), width) == Ok(Got(value, Source(rest, remaining - width)))
  {
    hide Le;
    ExactReads(Le(value, width), rest, remaining);
    LeInverse(value, width);
  }

  lemma StringReads(text: Bytes, rest: Bytes, remaining: nat, maximum: nat)
    requires |text| <= maximum && |text| <= U64_MAX && |LongText(text)| <= remaining
    ensures ReadString(Source(LongText(text) + rest, remaining), maximum)
            == if IsText(text) then Ok(Got(text, Source(rest, remaining - |LongText(text)|))) else Err(InvalidUtf8Text)
    ensures SkipString(Source(LongText(text) + rest, remaining), maximum) == Ok(Source(rest, remaining - |LongText(text)|))
  {
    hide Le, IsText, ReadNumber, Power;
    Widths();
    assert LongText(text) + rest == Le(|text|, 8) + (text + rest);
    NumberReads(|text|, 8, text + rest, remaining);
    ExactReads(text, rest, remaining - 8);
  }

  lemma {:induction false} StringsSkip(texts: seq<Bytes>, rest: Bytes, remaining: nat, maximum: nat)
    requires forall i :: 0 <= i < |texts| ==> |texts[i]| <= maximum && |texts[i]| <= U64_MAX
    requires |LongTexts(texts)| <= remaining
    ensures SkipStrings(Source(LongTexts(texts) + rest, remaining), |texts|, maximum) == Ok(Source(rest, remaining - |LongTexts(texts)|))
    decreases |texts|
  {
    hide SkipString, LongText;
    if texts == [] {
      assert [] + rest == rest;
    } else {
      var tail := LongTexts(texts[1..]);
      assert LongTexts(texts) + rest == LongText(texts[0]) + (tail + rest);
      StringReads(texts[0], tail + rest, remaining, maximum);
      StringsSkip(texts[1..], rest, remaining - |LongText(texts[0])|, maximum);
    }
  }

  // Skipping a supported value consumes exactly its encoded length.
  lemma SkipIsExact(value: Value, rest: Bytes, remaining: nat, limits: HeaderLimits)
    requires ValueSupported(value, limits) && |ValueBytes(value)| <= remaining
    ensures SkipValue(Source(ValueBytes(value) + rest, remaining), CodeOf(value), limits) == Ok(Source(rest, remaining - |ValueBytes(value)|))
  {
    hide Le, ReadNumber, ReadExact, LongText, LongTexts, Power, SkipString, SkipStrings;
    Widths();
    match value {
      case Scalar(code, raw) =>
        ExactReads(raw, rest, remaining);
      case TextValue(text) =>
        StringReads(text, rest, remaining, limits.stringBytes);
      case ScalarArray(element, count, raw) =>
        assert ValueBytes(value) + rest == Le(element, 4) + (Le(count, 8) + (raw + rest));
        NumberReads(element, 4, Le(count, 8) + (raw + rest), remaining);
        NumberReads(count, 8, raw + rest, remaining - 4);
        ExactReads(raw, rest, remaining - 12);
      case TextArray(texts) =>
        assert ValueBytes(value) + rest == Le(TYPE_STRING, 4) + (Le(|texts|, 8) + (LongTexts(texts) + rest));
        NumberReads(TYPE_STRING, 4, Le(|texts|, 8) + (LongTexts(texts) + rest), remaining);
        NumberReads(|texts|, 8, LongTexts(texts) + rest, remaining - 4);
        StringsSkip(texts, rest, remaining - 12, limits.stringBytes);
    }
  }

  lemma TypedReads(value: Value, rest: Bytes, remaining: nat, limits: HeaderLimits)
    requires ValueSupported(value, limits) && |ValueBytes(value)| <= remaining
    ensures var read := ReadTyped(Source(ValueBytes(value) + rest, remaining), CodeOf(value));
            && (read.Ok? <==> IntegerIn(value).Some?)
            && (read.Ok? ==> read.value == Got(IntegerIn(value).value, Source(rest, remaining - |ValueBytes(value)|)))
  {
    hide ReadExact, Power, LongText, LongTexts, FromLe, Le;
    if value.Scalar? {
      ExactReads(value.raw, rest, remaining);
    }
  }

  lemma TokensRead(value: Value, rest: Bytes, remaining: nat, limits: HeaderLimits, c: Collected)
    requires ValueSupported(value, limits) && |ValueBytes(value)| <= remaining
    ensures var read := ReadTokenArray(Source(ValueBytes(value) + rest, remaining), CodeOf(value), limits, c);
            && (read.Ok? <==> value.TextArray? && |value.texts| <= U32_MAX && Vocabulary !in c)
            && (read.Ok? ==> read.value == Got(c[Vocabulary := NumberItem(|value.texts|)], Source(rest, remaining - |ValueBytes(value)|)))
  {
    hide ReadTokenArray;
    match value {
      case ScalarArray(_, _, _) => NumbersAreNoTokens(value, rest, remaining, limits, c);
      case TextArray(_) => TokenTextsRead(value, rest, remaining, limits, c);
      case Scalar(_, _) => NotAnArray(value, rest, remaining, limits, c);
      case TextValue(_) => NotAnArray(value, rest, remaining, limits, c);
    }
  }

  lemma NotAnArray(value: Value, rest: Bytes, remaining: nat, limits: HeaderLimits, c: Collected)
    requires ValueSupported(value, limits) && (value.Scalar? || value.TextValue?)
    ensures ReadTokenArray(Source(ValueBytes(value) + rest, remaining), CodeOf(value), limits, c).Err?
  {
    hide Le, ReadNumber, ReadExact, LongText, LongTexts, Power, SkipStrings;
  }

  lemma NumbersAreNoTokens(value: Value, rest: Bytes, remaining: nat, limits: HeaderLimits, c: Collected)
    requires ValueSupported(value, limits) && value.ScalarArray? && |ValueBytes(value)| <= remaining
    ensures ReadTokenArray(Source(ValueBytes(value) + rest, remaining), CodeOf(value), limits, c).Err?
  {
    hide Le, ReadNumber, ReadExact, LongText, LongTexts, Power, SkipStrings;
    Widths();
    var body := Le(value.count, 8) + (value.raw + rest);
    assert ValueBytes(value) + rest == Le(value.element, 4) + body;
    NumberReads(value.element, 4, body, remaining);
    NumberReads(value.count, 8, value.raw + rest, remaining - 4);
  }

  lemma TokenTextsRead(value: Value, rest: Bytes, remaining: nat, limits: HeaderLimits, c: Collected)
    requires ValueSupported(value, limits) && value.TextArray? && |ValueBytes(value)| <= remaining
    ensures var read := ReadTokenArray(Source(ValueBytes(value) + rest, remaining), CodeOf(value), limits, c);
            && (read.Ok? <==> |value.texts| <= U32_MAX && Vocabulary !in c)
            && (read.Ok? ==> read.value == Got(c[Vocabulary := NumberItem(|value.texts|)], Source(rest, remaining - |ValueBytes(value)|)))
  {
    hide Le, ReadNumber, ReadExact, LongText, LongTexts, Power, SkipStrings;
    Widths();
    var texts := value.texts;
    assert ValueBytes(value) + rest == Le(TYPE_STRING, 4) + (Le(|texts|, 8) + (LongTexts(texts) + rest));
    NumberReads(TYPE_STRING, 4, Le(|texts|, 8) + (LongTexts(texts) + rest), remaining);
    NumberReads(|texts|, 8, LongTexts(texts) + rest, remaining - 4);
    StringsSkip(texts, rest, remaining - 12, limits.stringBytes);
  }

  // What collecting one more entry does, read off its meaning.
  function Absorb(c: Collected, e: Entry): Option<Collected> {
    match MeaningOf(e)
    case Rejected => None
    case Ignored => Some(c)
    case Sets(slot, item) => if slot in c then None else Some(c[slot := item])
  }

  lemma ValueReads(e: Entry, rest: Bytes, remaining: nat, limits: HeaderLimits, c: Collected)
    requires Supported(e, limits) && |ValueBytes(e.value)| <= remaining
    ensures var read := ReadValue(Source(ValueBytes(e.value) + rest, remaining), TargetOf(e.key), CodeOf(e.value), limits, c);
            && (read.Ok? <==> Absorb(c, e).Some?)
            && (read.Ok? ==> read.value == Got(Absorb(c, e).value, Source(rest, remaining - |ValueBytes(e.value)|)))
  {
    hide TargetOf, ReadTyped, SkipValue, ReadTokenArray, ReadString, IntegerIn, IsText;
    PlainTargets(e.key);
    match TargetOf(e.key) {
      case PlainTarget(Architecture) =>
        if e.value.TextValue? {
          StringReads(e.value.text, rest, remaining, limits.stringBytes);
        } else {
          NotText(e.value, limits);
        }
      case PlainTarget(FileType) =>
        TypedReads(e.value, rest, remaining, limits);
      case PlainTarget(_) =>
        TokensRead(e.value, rest, remaining, limits, c);
      case ScopedTarget(slot, scope) =>
        TypedReads(e.value, rest, remaining, limits);
      case NoTarget =>
        SkipIsExact(e.value, rest, remaining, limits);
    }
  }

  lemma NotText(value: Value, limits: HeaderLimits)
    requires ValueSupported(value, limits) && !value.TextValue?
    ensures CodeOf(value) != TYPE_STRING
  {
  }

  lemma PlainTargets(key: Bytes)
    ensures TargetOf(key).PlainTarget? ==> TargetOf(key).slot == Architecture || TargetOf(key).slot == FileType || TargetOf(key).slot == Vocabulary
  {
    hide ArchitectureKey, FileTypeKey, TokensKey, Prefix, Ascii;
  }

  lemma EntryReads(e: Entry, rest: Bytes, remaining: nat, limits: HeaderLimits, c: Collected)
    requires Supported(e, limits) && |EntryBytes(e)| <= remaining
    ensures var read := ReadEntry(Source(EntryBytes(e) + rest, remaining), limits, c);
            && (read.Ok? <==> Absorb(c, e).Some?)
            && (read.Ok? ==> read.value == Got(Absorb(c, e).value, Source(rest, remaining - |EntryBytes(e)|)))
  {
    hide Le, ReadString, ReadNumber, ReadValue, TargetOf, Absorb, LongText, ValueBytes, Power, IsText, FixedWidth;
    Widths();
    CodesFit(e.value, limits);
    assert EntryBytes(e) + rest == LongText(e.key) + (Le(CodeOf(e.value), 4) + (ValueBytes(e.value) + rest));
    StringReads(e.key, Le(CodeOf(e.value), 4) + (ValueBytes(e.value) + rest), remaining, limits.stringBytes);
    NumberReads(CodeOf(e.value), 4, ValueBytes(e.value) + rest, remaining - |LongText(e.key)|);
    ValueReads(e, rest, remaining - |LongText(e.key)| - 4, limits, c);
  }

  lemma CodesFit(value: Value, limits: HeaderLimits)
    requires ValueSupported(value, limits)
    ensures CodeOf(value) <= 12
  {
  }

  // ----- Collecting all entries -----

  function AbsorbAll(c: Collected, entries: seq<Entry>): Option<Collected>
    decreases |entries|
  {
    if entries == [] then Some(c)
    else
      var next := Absorb(c, entries[0]);
      if next.None? then None else AbsorbAll(next.value, entries[1..])
  }

  lemma {:induction false} EntriesRead(entries: seq<Entry>, rest: Bytes, remaining: nat, limits: HeaderLimits, c: Collected)
    requires forall i :: 0 <= i < |entries| ==> Supported(entries[i], limits)
    requires |EntriesBytes(entries)| <= remaining
    ensures var read := ReadEntries(Source(EntriesBytes(entries) + rest, remaining), |entries|, limits, c);
            && (read.Ok? <==> AbsorbAll(c, entries).Some?)
            && (read.Ok? ==> read.value == Got(AbsorbAll(c, entries).value, Source(rest, remaining - |EntriesBytes(entries)|)))
    decreases |entries|
  {
    hide ReadEntry, EntryBytes, Absorb, Supported;
    if entries == [] {
      assert [] + rest == rest;
    } else {
      var tail := EntriesBytes(entries[1..]);
      assert EntriesBytes(entries) + rest == EntryBytes(entries[0]) + (tail + rest);
      EntryReads(entries[0], tail + rest, remaining, limits, c);
      var next := Absorb(c, entries[0]);
      if next.Some? {
        EntriesRead(entries[1..], rest, remaining - |EntryBytes(entries[0])|, limits, next.value);
      }
    }
  }

  // None of the entries sets a field that c already has.
  ghost predicate Free(c: Collected, entries: seq<Entry>) {
    forall i :: 0 <= i < |entries| && MeaningOf(entries[i]).Sets? ==> MeaningOf(entries[i]).slot !in c
  }

  ghost predicate SetsSlot(entries: seq<Entry>, slot: Slot, item: Item) {
    exists i :: 0 <= i < |entries| && MeaningOf(entries[i]) == Sets(slot, item)
  }

  ghost predicate Holds(c: Collected, slot: Slot, item: Item) {
    slot in c && c[slot] == item
  }

  lemma {:induction false} AbsorbsAt(c: Collected, entries: seq<Entry>, slot: Slot, item: Item)
    ensures AbsorbAll(c, entries).Some? <==> Acceptable(entries) && Free(c, entries)
    ensures AbsorbAll(c, entries).Some? ==>
              (Holds(AbsorbAll(c, entries).value, slot, item) <==> Holds(c, slot, item) || SetsSlot(entries, slot, item))
    decreases |entries|
  {
    hide MeaningOf;
    if entries != [] {
      var first, tail := entries[0], entries[1..];
      assert entries == [first] + tail;
      SplitFirst(c, first, tail);
      SetsSplit(first, tail, slot, item);
      if Absorb(c, first).Some? {
        AbsorbsAt(Absorb(c, first).value, tail, slot, item);
        if AbsorbAll(c, entries).Some? {
          NewSlotsFree(c, first, tail, slot, item);
        }
      }
    }
  }

  // Collecting succeeds exactly for acceptable entries that are free of c, and then adds
  // exactly what they set.
  lemma AbsorbsExactly(c: Collected, entries: seq<Entry>)
    ensures AbsorbAll(c, entries).Some? <==> Acceptable(entries) && Free(c, entries)
    ensures AbsorbAll(c, entries).Some? ==>
              forall slot, item :: Holds(AbsorbAll(c, entries).value, slot, item) <==> Holds(c, slot, item) || SetsSlot(entries, slot, item)
  {
    hide MeaningOf, Acceptable, Free, SetsSlot, Holds, AbsorbAll;
    AbsorbsAt(c, entries, Architecture, NumberItem(0));
    forall slot, item | AbsorbAll(c, entries).Some?
      ensures Holds(AbsorbAll(c, entries).value, slot, item) <==> Holds(c, slot, item) || SetsSlot(entries, slot, item)
    {
      AbsorbsAt(c, entries, slot, item);
    }
  }

  lemma SetsSplit(first: Entry, tail: seq<Entry>, slot: Slot, item: Item)
    ensures SetsSlot([first] + tail, slot, item) <==> MeaningOf(first) == Sets(slot, item) || SetsSlot(tail, slot, item)
  {
    hide MeaningOf;
    var entries := [first] + tail;
    if MeaningOf(first) == Sets(slot, item) {
      assert MeaningOf(entries[0]) == Sets(slot, item);
    }
    if i :| 0 <= i < |tail| && MeaningOf(tail[i]) == Sets(slot, item) {
      assert MeaningOf(entries[i + 1]) == Sets(slot, item);
    }
    if i :| 0 <= i < |entries| && MeaningOf(entries[i]) == Sets(slot, item) {
      assert i > 0 ==> entries[i] == tail[i - 1];
    }
  }

  // Acceptability of a list, split at its first entry.
  lemma SplitFirst(c: Collected, first: Entry, tail: seq<Entry>)
    ensures Acceptable([first] + tail) && Free(c, [first] + tail)
            <==> Absorb(c, first).Some? && Acceptable(tail) && Free(Absorb(c, first).value, tail)
  {
    hide MeaningOf;
    var entries := [first] + tail;
    assert entries[0] == first;
    assert forall i :: 0 <= i < |tail| ==> entries[i + 1] == tail[i];
    if Acceptable(entries) && Free(c, entries) {
      assert Absorb(c, first).Some?;
      forall i, j | 0 <= i < j < |tail| && MeaningOf(tail[i]).Sets? && MeaningOf(tail[j]).Sets?
        ensures MeaningOf(tail[i]).slot != MeaningOf(tail[j]).slot
      {
        assert entries[i + 1] == tail[i] && entries[j + 1] == tail[j];
      }
      forall i | 0 <= i < |tail|
        ensures !MeaningOf(tail[i]).Rejected?
        ensures MeaningOf(tail[i]).Sets? ==> MeaningOf(tail[i]).slot !in Absorb(c, first).value
      {
        assert entries[i + 1] == tail[i];
      }
    }
    if Absorb(c, first).Some? && Acceptable(tail) && Free(Absorb(c, first).value, tail) {
      forall i, j | 0 <= i < j < |entries| && MeaningOf(entries[i]).Sets? && MeaningOf(entries[j]).Sets?
        ensures MeaningOf(entries[i]).slot != MeaningOf(entries[j]).slot
      {
        assert entries[j] == tail[j - 1];
        if i > 0 {
          assert entries[i] == tail[i - 1];
        }
      }
      forall i | 0 <= i < |entries|
        ensures !MeaningOf(entries[i]).Rejected?
        ensures MeaningOf(entries[i]).Sets? ==> MeaningOf(entries[i]).slot !in c
      {
        if i > 0 {
          assert entries[i] == tail[i - 1];
        }
      }
    }
  }

  lemma NewSlotsFree(c: Collected, first: Entry, tail: seq<Entry>, slot: Slot, item: Item)
    requires Absorb(c, first).Some? && Free(Absorb(c, first).value, tail)
    ensures Holds(Absorb(c, first).value, slot, item) <==> Holds(c, slot, item) || MeaningOf(first) == Sets(slot, item)
  {
    hide MeaningOf;
  }

  // ----- The whole header -----

  function HeaderBytes(version: nat, tensors: nat, entries: seq<Entry>): Bytes {
    Ascii("GGUF") + (Le(version, 4) + (Le(tensors, 8) + (Le(|entries|, 8) + EntriesBytes(entries))))
  }

  // The collected fields of acceptable entries.
  ghost function Lookup(entries: seq<Entry>): (c: Collected)
    requires Acceptable(entries)
    ensures LooksUp(c, entries)
  {
    AbsorbsExactly(map[], entries);
    LookupFacts(entries);
    AbsorbAll(map[], entries).value
  }

  lemma LookupFacts(entries: seq<Entry>)
    requires Acceptable(entries)
    ensures AbsorbAll(map[], entries).Some? && LooksUp(AbsorbAll(map[], entries).value, entries)
  {
    hide MeaningOf;
    AbsorbsExactly(map[], entries);
    var c := AbsorbAll(map[], entries).value;
    forall i | 0 <= i < |entries| && MeaningOf(entries[i]).Sets?
      ensures MeaningOf(entries[i]).slot in c && c[MeaningOf(entries[i]).slot] == MeaningOf(entries[i]).item
    {
      assert SetsSlot(entries, MeaningOf(entries[i]).slot, MeaningOf(entries[i]).item);
      assert Holds(c, MeaningOf(entries[i]).slot, MeaningOf(entries[i]).item);
    }
    forall slot | slot in c
      ensures exists i :: 0 <= i < |entries| && MeaningOf(entries[i]) == Sets(slot, c[slot])
    {
      assert Holds(c, slot, c[slot]);
      assert SetsSlot(entries, slot, c[slot]);
    }
  }

  // A lookup has at most one answer.
  lemma LookupIsUnique(c: Collected, d: Collected, entries: seq<Entry>)
    requires LooksUp(c, entries) && LooksUp(d, entries)
    ensures c == d
  {
    hide MeaningOf;
  }

  // ----- What a header says, in its own keys -----

  // A dot-free, nonempty name followed by a suffix.
  ghost predicate Scoped(key: Bytes, suffix: Bytes) {
    exists name: Bytes :: name != [] && 0x2E !in name && key == name + suffix
  }

  // The scalar is the little-endian encoding of the nonnegative integer n.
  predicate HoldsInteger(value: Value, n: nat) {
    && value.Scalar?
    && (value.code, |value.raw|) in {(0, 1), (1, 1), (2, 2), (3, 2), (4, 4), (5, 4), (10, 8), (11, 8)}
    && value.raw == Le(n, |value.raw|)
    && (if value.code in {1, 3, 5, 11} then 2 * n else n) < Power(|value.raw|)
  }

  // Exactly one entry has the key, and it holds this text ...
  ghost predicate TheText(entries: seq<Entry>, key: Bytes, text: Bytes) {
    exists i :: 0 <= i < |entries| && entries[i] == Entry(key, TextValue(text)) && IsText(text) && OnlyKey(entries, key, i)
  }

  // ... this integer ...
  ghost predicate TheInteger(entries: seq<Entry>, key: Bytes, maximum: nat, n: nat) {
    exists i :: 0 <= i < |entries| && entries[i].key == key && HoldsInteger(entries[i].value, n) && n <= maximum && OnlyKey(entries, key, i)
  }

  // ... or this many texts.
  ghost predicate TheTexts(entries: seq<Entry>, key: Bytes, n: nat) {
    exists i :: 0 <= i < |entries| && entries[i].key == key && entries[i].value.TextArray? && |entries[i].value.texts| == n <= U32_MAX
                && OnlyKey(entries, key, i)
  }

  ghost predicate OnlyKey(entries: seq<Entry>, key: Bytes, i: nat) {
    forall j :: 0 <= j < |entries| && entries[j].key == key ==> j == i
  }

  // Exactly one entry has a key with this suffix, its name is the given one, and it holds
  // this integer.
  ghost predicate TheScoped(entries: seq<Entry>, name: Bytes, suffix: Bytes, n: nat) {
    && name != [] && 0x2E !in name && n <= U32_MAX
    && exists i :: 0 <= i < |entries| && entries[i].key == name + suffix && HoldsInteger(entries[i].value, n) && OnlyScoped(entries, suffix, i)
  }

  ghost predicate OnlyScoped(entries: seq<Entry>, suffix: Bytes, i: nat) {
    forall j :: 0 <= j < |entries| && Scoped(entries[j].key, suffix) ==> j == i
  }

  ghost predicate NoScoped(entries: seq<Entry>, suffix: Bytes) {
    forall j :: 0 <= j < |entries| ==> !Scoped(entries[j].key, suffix)
  }

  // Where each field of the summary comes from, and what must hold between them.
  ghost predicate Describes(entries: seq<Entry>, m: Metadata) {
    && TheText(entries, Ascii("general.architecture"), m.architectureName)
    && TheScoped(entries, m.architectureName, Ascii(".context_length"), m.contextLength) && m.contextLength > 0
    && TheScoped(entries, m.architectureName, Ascii(".block_count"), m.blockCount) && m.blockCount > 0
    && TheScoped(entries, m.architectureName, Ascii(".embedding_length"), m.embeddingLength) && m.embeddingLength > 0
    && TheScoped(entries, m.architectureName, Ascii(".attention.head_count"), m.headCount) && m.headCount > 0
    && (|| TheScoped(entries, m.architectureName, Ascii(".attention.head_count_kv"), m.headCountKv)
        || (NoScoped(entries, Ascii(".attention.head_count_kv")) && m.headCountKv == m.headCount))
    && 0 < m.headCountKv <= m.headCount && m.headCount % m.headCountKv == 0
    && TheTexts(entries, Ascii("tokenizer.ggml.tokens"), m.vocabularySize) && m.vocabularySize > 0
    && TheInteger(entries, Ascii("general.file_type"), U16_MAX, m.fileType)
  }

  // ----- Keys and slots -----

  predicate AimsAt(key: Bytes, slot: Slot) {
    match TargetOf(key)
    case NoTarget => false
    case PlainTarget(s) => s == slot
    case ScopedTarget(s, _) => s == slot
  }

  function SuffixOf(slot: Slot): Bytes {
    match slot
    case ContextLength => Ascii(".context_length")
    case BlockCount => Ascii(".block_count")
    case EmbeddingLength => Ascii(".embedding_length")
    case HeadCountKv => Ascii(".attention.head_count_kv")
    case _ => Ascii(".attention.head_count")
  }

  predicate IsScoped(slot: Slot) {
    slot != Architecture && slot != FileType && slot != Vocabulary
  }

  lemma ScopedIsPrefix(key: Bytes, suffix: Bytes)
    ensures Scoped(key, suffix) <==> Prefix(key, suffix).Some?
    ensures Prefix(key, suffix).Some? ==>
              var name := Prefix(key, suffix).value;
              name != [] && 0x2E !in name && key == name + suffix
  {
    if Scoped(key, suffix) {
      var name: Bytes :| name != [] && 0x2E !in name && key == name + suffix;
      assert key[|key| - |suffix|..] == suffix && key[..|key| - |suffix|] == name;
    }
    if Prefix(key, suffix).Some? {
      assert key == key[..|key| - |suffix|] + suffix;
    }
  }

  // A key ends as its suffix does.
  lemma SameEnd(key: Bytes, suffix: Bytes, k: nat)
    requires Prefix(key, suffix).Some? && k < |suffix|
    ensures key[|key| - 1 - k] == suffix[|suffix| - 1 - k]
  {
    ScopedIsPrefix(key, suffix);
  }

  // The last, the seventh and the eighth byte from the end tell the suffixes apart.
  function EndingOf(slot: Slot): (nat, nat, nat) {
    match slot
    case ContextLength => ('h' as nat, '_' as nat, 't' as nat)
    case BlockCount => ('t' as nat, 'k' as nat, 'c' as nat)
    case EmbeddingLength => ('h' as nat, '_' as nat, 'g' as nat)
    case HeadCountKv => ('v' as nat, 'o' as nat, 'c' as nat)
    case _ => ('t' as nat, 'd' as nat, 'a' as nat)
  }

  lemma SuffixEnding(slot: Slot)
    ensures Ending(SuffixOf(slot), EndingOf(slot))
  {
    hide Ascii, Ending;
    match slot {
      case ContextLength => EndsAs(".context_length", EndingOf(slot));
      case BlockCount => EndsAs(".block_count", EndingOf(slot));
      case EmbeddingLength => EndsAs(".embedding_length", EndingOf(slot));
      case HeadCountKv => EndsAs(".attention.head_count_kv", EndingOf(slot));
      case _ => EndsAs(".attention.head_count", EndingOf(slot));
    }
  }

  predicate Ending(bytes: Bytes, ending: (nat, nat, nat)) {
    |bytes| > 7 && (bytes[|bytes| - 1], bytes[|bytes| - 7], bytes[|bytes| - 8]) == ending
  }

  lemma EndsAs(s: string, ending: (nat, nat, nat))
    requires |s| > 7
    requires s[|s| - 1] as int == ending.0 < 256 && s[|s| - 7] as int == ending.1 < 256 && s[|s| - 8] as int == ending.2 < 256
    ensures Ending(Ascii(s), ending)
  {
  }

  lemma Spelled(s: string)
    ensures |Ascii(s)| == |s| && forall i :: 0 <= i < |s| ==> Ascii(s)[i] == s[i] as int % 256
  {
  }

  lemma SuffixesDiffer(key: Bytes, a: Slot, b: Slot)
    requires IsScoped(a) && IsScoped(b) && Prefix(key, SuffixOf(a)).Some? && Prefix(key, SuffixOf(b)).Some?
    ensures a == b
  {
    hide SuffixOf, Ascii, Prefix;
    SuffixEnding(a);
    SuffixEnding(b);
    SameEnd(key, SuffixOf(a), 0);
    SameEnd(key, SuffixOf(b), 0);
    SameEnd(key, SuffixOf(a), 6);
    SameEnd(key, SuffixOf(b), 6);
    SameEnd(key, SuffixOf(a), 7);
    SameEnd(key, SuffixOf(b), 7);
  }

  // The three plain keys have no suffix and differ from each other.
  lemma PlainUnscoped(slot: Slot)
    requires IsScoped(slot)
    ensures Prefix(ArchitectureKey(), SuffixOf(slot)).None? && Prefix(FileTypeKey(), SuffixOf(slot)).None? && Prefix(TokensKey(), SuffixOf(slot)).None?
  {
    hide SuffixOf, Ascii, Prefix;
    SuffixEnding(slot);
    Spelled("general.architecture");
    Spelled("general.file_type");
    Spelled("tokenizer.ggml.tokens");
    if Prefix(ArchitectureKey(), SuffixOf(slot)).Some? {
      SameEnd(ArchitectureKey(), SuffixOf(slot), 0);
    }
    if Prefix(FileTypeKey(), SuffixOf(slot)).Some? {
      SameEnd(FileTypeKey(), SuffixOf(slot), 0);
    }
    if Prefix(TokensKey(), SuffixOf(slot)).Some? {
      SameEnd(TokensKey(), SuffixOf(slot), 0);
    }
  }

  lemma PlainKeysDiffer()
    ensures ArchitectureKey() != FileTypeKey() && ArchitectureKey() != TokensKey() && FileTypeKey() != TokensKey()
  {
    hide Ascii;
    Spelled("general.architecture");
    Spelled("general.file_type");
    Spelled("tokenizer.ggml.tokens");
    assert |ArchitectureKey()| == 20 && |FileTypeKey()| == 17 && |TokensKey()| == 21;
  }

  // A key aims at a slot exactly when it is spelled as the slot's keys are.
  lemma AimsByName(key: Bytes, slot: Slot)
    ensures AimsAt(key, Architecture) <==> key == Ascii("general.architecture")
    ensures AimsAt(key, FileType) <==> key == Ascii("general.file_type")
    ensures AimsAt(key, Vocabulary) <==> key == Ascii("tokenizer.ggml.tokens")
    ensures IsScoped(slot) ==> (AimsAt(key, slot) <==> Prefix(key, SuffixOf(slot)).Some?)
    ensures IsScoped(slot) && AimsAt(key, slot) ==> TargetOf(key) == ScopedTarget(slot, Prefix(key, SuffixOf(slot)).value)
  {
    hide Ascii, Prefix;
    PlainKeysDiffer();
    if IsScoped(slot) {
      PlainUnscoped(slot);
      if Prefix(key, SuffixOf(slot)).Some? {
        OneSuffix(key, slot);
        assert SuffixOf(ContextLength) == Ascii(".context_length") && SuffixOf(BlockCount) == Ascii(".block_count");
        assert SuffixOf(EmbeddingLength) == Ascii(".embedding_length") && SuffixOf(HeadCountKv) == Ascii(".attention.head_count_kv");
      }
    }
  }

  lemma OneSuffix(key: Bytes, slot: Slot)
    requires IsScoped(slot) && Prefix(key, SuffixOf(slot)).Some?
    ensures forall other :: IsScoped(other) && Prefix(key, SuffixOf(other)).Some? ==> other == slot
  {
    hide SuffixOf, Prefix;
    forall other | IsScoped(other) && Prefix(key, SuffixOf(other)).Some?
      ensures other == slot
    {
      SuffixesDiffer(key, other, slot);
    }
  }

  // ----- Slots and entries -----

  // One entry alone aims at the slot, and sets it to this item.
  ghost predicate SlotIs(entries: seq<Entry>, slot: Slot, item: Item) {
    exists i :: 0 <= i < |entries| && MeaningOf(entries[i]) == Sets(slot, item) && OnlyAim(entries, slot, i)
  }

  ghost predicate OnlyAim(entries: seq<Entry>, slot: Slot, i: nat) {
    forall j :: 0 <= j < |entries| && AimsAt(entries[j].key, slot) ==> j == i
  }

  ghost predicate SlotFree(entries: seq<Entry>, slot: Slot) {
    forall j :: 0 <= j < |entries| ==> !AimsAt(entries[j].key, slot)
  }

  ghost predicate SlotKnown(entries: seq<Entry>, slot: Slot) {
    SlotFree(entries, slot) || exists item :: SlotIs(entries, slot, item)
  }

  lemma MeaningAims(e: Entry, slot: Slot)
    ensures MeaningOf(e).Sets? ==> (AimsAt(e.key, slot) <==> MeaningOf(e).slot == slot)
    ensures MeaningOf(e).Ignored? ==> !AimsAt(e.key, slot)
    ensures MeaningOf(e).Rejected? ==> exists s :: AimsAt(e.key, s)
  {
    hide Ascii, ScopedKey, Prefix, IsText, IntegerIn;
    match TargetOf(e.key) {
      case NoTarget =>
      case PlainTarget(s) => assert AimsAt(e.key, s);
      case ScopedTarget(s, _) => assert AimsAt(e.key, s);
    }
    PlainTargets(e.key);
  }

  // Acceptable entries set each slot by one entry or not at all ...
  lemma AcceptedSlot(entries: seq<Entry>, slot: Slot)
    requires Acceptable(entries)
    ensures if slot in Lookup(entries) then SlotIs(entries, slot, Lookup(entries)[slot]) else SlotFree(entries, slot)
  {
    hide MeaningOf, AimsAt;
    var c := Lookup(entries);
    forall j | 0 <= j < |entries|
      ensures AimsAt(entries[j].key, slot) ==> MeaningOf(entries[j]).Sets? && MeaningOf(entries[j]).slot == slot
    {
      MeaningAims(entries[j], slot);
    }
    if slot in c {
      var i :| 0 <= i < |entries| && MeaningOf(entries[i]) == Sets(slot, c[slot]);
      forall j | 0 <= j < |entries| && AimsAt(entries[j].key, slot)
        ensures j == i
      {
      }
    }
  }

  // ... and entries that do so are acceptable.
  lemma KnownSlots(entries: seq<Entry>)
    requires forall slot :: SlotKnown(entries, slot)
    ensures Acceptable(entries)
  {
    hide MeaningOf, AimsAt, SlotKnown;
    forall i | 0 <= i < |entries|
      ensures !MeaningOf(entries[i]).Rejected?
    {
      MeaningAims(entries[i], Architecture);
      if MeaningOf(entries[i]).Rejected? {
        var slot :| AimsAt(entries[i].key, slot);
        KnownAim(entries, slot, i);
      }
    }
    forall i, j | 0 <= i < j < |entries| && MeaningOf(entries[i]).Sets? && MeaningOf(entries[j]).Sets?
      ensures MeaningOf(entries[i]).slot != MeaningOf(entries[j]).slot
    {
      var slot := MeaningOf(entries[i]).slot;
      MeaningAims(entries[i], slot);
      MeaningAims(entries[j], slot);
      if MeaningOf(entries[j]).slot == slot {
        KnownAim(entries, slot, i);
      }
    }
  }

  lemma KnownAim(entries: seq<Entry>, slot: Slot, i: nat)
    requires SlotKnown(entries, slot) && i < |entries| && AimsAt(entries[i].key, slot)
    ensures MeaningOf(entries[i]).Sets? && OnlyAim(entries, slot, i)
  {
    hide MeaningOf, AimsAt;
  }

  lemma LookedUp(entries: seq<Entry>, slot: Slot)
    requires Acceptable(entries)
    ensures SlotFree(entries, slot) ==> slot !in Lookup(entries)
    ensures forall item :: SlotIs(entries, slot, item) ==> Holds(Lookup(entries), slot, item)
  {
    hide MeaningOf, AimsAt;
    var c := Lookup(entries);
    if slot in c {
      var i :| 0 <= i < |entries| && MeaningOf(entries[i]) == Sets(slot, c[slot]);
      MeaningAims(entries[i], slot);
    }
  }

  // ----- What each slot says -----

  lemma IntegerHeld(value: Value, limits: HeaderLimits, n: nat)
    requires ValueSupported(value, limits)
    ensures IntegerIn(value) == Some(n) <==> HoldsInteger(value, n)
  {
    hide Le, FromLe, Power;
    if value.Scalar? {
      FromLeInverse(value.raw);
      if n < Power(|value.raw|) {
        LeInverse(n, |value.raw|);
      }
    }
  }

  // Plain keys say which entries aim at a plain slot.
  lemma AimsAtAll(entries: seq<Entry>, slot: Slot)
    ensures forall j :: 0 <= j < |entries| ==>
              && (AimsAt(entries[j].key, Architecture) <==> entries[j].key == Ascii("general.architecture"))
              && (AimsAt(entries[j].key, FileType) <==> entries[j].key == Ascii("general.file_type"))
              && (AimsAt(entries[j].key, Vocabulary) <==> entries[j].key == Ascii("tokenizer.ggml.tokens"))
              && (IsScoped(slot) ==> (AimsAt(entries[j].key, slot) <==> Scoped(entries[j].key, SuffixOf(slot))))
  {
    hide Ascii, AimsAt, Scoped, Prefix;
    forall j | 0 <= j < |entries|
      ensures && (AimsAt(entries[j].key, Architecture) <==> entries[j].key == Ascii("general.architecture"))
              && (AimsAt(entries[j].key, FileType) <==> entries[j].key == Ascii("general.file_type"))
              && (AimsAt(entries[j].key, Vocabulary) <==> entries[j].key == Ascii("tokenizer.ggml.tokens"))
              && (IsScoped(slot) ==> (AimsAt(entries[j].key, slot) <==> Scoped(entries[j].key, SuffixOf(slot))))
    {
      AimsByName(entries[j].key, slot);
      ScopedIsPrefix(entries[j].key, SuffixOf(slot));
    }
  }

  // One entry sets one field exactly when its key is spelled so and its value fits.
  lemma EntrySays(e: Entry, limits: HeaderLimits, slot: Slot, item: Item)
    requires ValueSupported(e.value, limits) && MeaningOf(e) == Sets(slot, item)
    ensures slot == Architecture ==> e == Entry(Ascii("general.architecture"), TextValue(e.value.text)) && IsText(e.value.text) && item == TextItem(e.value.text)
    ensures slot == FileType ==>
              e.key == Ascii("general.file_type") && item.NumberItem? && item.number <= U16_MAX && HoldsInteger(e.value, item.number)
    ensures slot == Vocabulary ==>
              e.key == Ascii("tokenizer.ggml.tokens") && e.value.TextArray? && |e.value.texts| <= U32_MAX && item == NumberItem(|e.value.texts|)
    ensures IsScoped(slot) ==>
              && item.ScopedItem? && item.scope != [] && 0x2E !in item.scope && e.key == item.scope + SuffixOf(slot)
              && item.number <= U32_MAX && HoldsInteger(e.value, item.number)
  {
    hide Ascii, IsText, IntegerIn, HoldsInteger, SuffixOf, Prefix;
    PlainKeysDiffer();
    MeaningAims(e, slot);
    AimsByName(e.key, slot);
    ScopedIsPrefix(e.key, SuffixOf(slot));
    if IntegerIn(e.value).Some? {
      IntegerHeld(e.value, limits, IntegerIn(e.value).value);
    }
  }

  lemma EntrySets(e: Entry, limits: HeaderLimits, slot: Slot, item: Item)
    requires ValueSupported(e.value, limits)
    requires match slot
             case Architecture => e.key == Ascii("general.architecture") && e.value.TextValue? && IsText(e.value.text) && item == TextItem(e.value.text)
             case FileType => e.key == Ascii("general.file_type") && item.NumberItem? && item.number <= U16_MAX && HoldsInteger(e.value, item.number)
             case Vocabulary =>
               e.key == Ascii("tokenizer.ggml.tokens") && e.value.TextArray? && |e.value.texts| <= U32_MAX && item == NumberItem(|e.value.texts|)
             case _ =>
               && item.ScopedItem? && item.scope != [] && 0x2E !in item.scope && e.key == item.scope + SuffixOf(slot)
               && item.number <= U32_MAX && HoldsInteger(e.value, item.number)
    ensures MeaningOf(e) == Sets(slot, item)
  {
    hide Ascii, IsText, IntegerIn, HoldsInteger, SuffixOf, Prefix;
    AimsByName(e.key, slot);
    PlainKeysDiffer();
    if item.NumberItem? {
      IntegerHeld(e.value, limits, item.number);
    }
    if item.ScopedItem? {
      IntegerHeld(e.value, limits, item.number);
      PrefixOf(item.scope, SuffixOf(slot));
    }
  }

  lemma PrefixOf(name: Bytes, suffix: Bytes)
    requires name != [] && 0x2E !in name
    ensures Prefix(name + suffix, suffix) == Some(name)
  {
    assert (name + suffix)[|name|..] == suffix && (name + suffix)[..|name|] == name;
  }

  // A slot is set exactly as the header's own keys say.
  ghost predicate Says(entries: seq<Entry>, slot: Slot, item: Item) {
    match slot
    case Architecture => item.TextItem? && TheText(entries, Ascii("general.architecture"), item.text)
    case FileType => item.NumberItem? && TheInteger(entries, Ascii("general.file_type"), U16_MAX, item.number)
    case Vocabulary => item.NumberItem? && TheTexts(entries, Ascii("tokenizer.ggml.tokens"), item.number)
    case _ => item.ScopedItem? && TheScoped(entries, item.scope, SuffixOf(slot), item.number)
  }

  ghost predicate Alone(entries: seq<Entry>, slot: Slot, i: nat) {
    match slot
    case Architecture => OnlyKey(entries, Ascii("general.architecture"), i)
    case FileType => OnlyKey(entries, Ascii("general.file_type"), i)
    case Vocabulary => OnlyKey(entries, Ascii("tokenizer.ggml.tokens"), i)
    case _ => OnlyScoped(entries, SuffixOf(slot), i)
  }

  lemma AloneIsOnly(entries: seq<Entry>, slot: Slot, i: nat)
    ensures Alone(entries, slot, i) <==> OnlyAim(entries, slot, i)
  {
    hide Ascii, SuffixOf, Scoped, AimsAt;
    AimsAtAll(entries, slot);
  }

  lemma SlotSays(entries: seq<Entry>, limits: HeaderLimits, slot: Slot, item: Item)
    requires forall i :: 0 <= i < |entries| ==> Supported(entries[i], limits)
    ensures SlotIs(entries, slot, item) <==> Says(entries, slot, item)
  {
    if SlotIs(entries, slot, item) {
      SlotIsSays(entries, limits, slot, item);
    }
    if Says(entries, slot, item) {
      SaysSlotIs(entries, limits, slot, item);
    }
  }

  lemma SlotIsSays(entries: seq<Entry>, limits: HeaderLimits, slot: Slot, item: Item)
    requires forall i :: 0 <= i < |entries| ==> Supported(entries[i], limits)
    requires SlotIs(entries, slot, item)
    ensures Says(entries, slot, item)
  {
    hide Ascii, SuffixOf, IsText, HoldsInteger, OnlyKey, OnlyScoped, OnlyAim, MeaningOf, ValueSupported;
    var i :| 0 <= i < |entries| && MeaningOf(entries[i]) == Sets(slot, item) && OnlyAim(entries, slot, i);
    assert Supported(entries[i], limits);
    EntrySays(entries[i], limits, slot, item);
    AloneIsOnly(entries, slot, i);
  }

  lemma SaysSlotIs(entries: seq<Entry>, limits: HeaderLimits, slot: Slot, item: Item)
    requires forall i :: 0 <= i < |entries| ==> Supported(entries[i], limits)
    requires Says(entries, slot, item)
    ensures SlotIs(entries, slot, item)
  {
    hide Ascii, SuffixOf, IsText, HoldsInteger, OnlyKey, OnlyScoped, OnlyAim, MeaningOf, ValueSupported, Scoped;
    var i: nat;
    match slot {
      case Architecture =>
        i :| 0 <= i < |entries| && entries[i] == Entry(Ascii("general.architecture"), TextValue(item.text)) && IsText(item.text)
             && OnlyKey(entries, Ascii("general.architecture"), i);
      case FileType =>
        i :| 0 <= i < |entries| && entries[i].key == Ascii("general.file_type") && HoldsInteger(entries[i].value, item.number) && item.number <= U16_MAX
             && OnlyKey(entries, Ascii("general.file_type"), i);
      case Vocabulary =>
        i :| 0 <= i < |entries| && entries[i].key == Ascii("tokenizer.ggml.tokens") && entries[i].value.TextArray?
             && |entries[i].value.texts| == item.number <= U32_MAX && OnlyKey(entries, Ascii("tokenizer.ggml.tokens"), i);
      case _ =>
        i :| 0 <= i < |entries| && entries[i].key == item.scope + SuffixOf(slot) && HoldsInteger(entries[i].value, item.number)
             && OnlyScoped(entries, SuffixOf(slot), i);
    }
    assert Supported(entries[i], limits);
    AloneIsOnly(entries, slot, i);
    EntrySets(entries[i], limits, slot, item);
  }

  // Looking the fields up and checking them finds exactly what the keys describe.
  lemma FinishMeans(entries: seq<Entry>, limits: HeaderLimits, m: Metadata)
    requires forall i :: 0 <= i < |entries| ==> Supported(entries[i], limits)
    ensures Acceptable(entries) && Finish(Lookup(entries)) == Ok(m) <==> Describes(entries, m)
  {
    hide Finish, Acceptable, Supported, Describes;
    if Acceptable(entries) && Finish(Lookup(entries)) == Ok(m) {
      FinishDescribes(entries, limits, m);
    }
    if Describes(entries, m) {
      DescribedIsAcceptable(entries, limits, m);
      DescribedFinishes(entries, limits, m);
    }
  }

  lemma FinishDescribes(entries: seq<Entry>, limits: HeaderLimits, m: Metadata)
    requires forall i :: 0 <= i < |entries| ==> Supported(entries[i], limits)
    requires Acceptable(entries) && Finish(Lookup(entries)) == Ok(m)
    ensures Describes(entries, m)
  {
    hide Acceptable, Supported, Ascii, SlotIs, SlotFree, TheText, TheInteger, TheTexts, TheScoped, NoScoped, LooksUp, Finish;
    FinishFields(Lookup(entries), m);
    forall slot | Holds(Lookup(entries), slot, ItemFor(m, slot))
      ensures Says(entries, slot, ItemFor(m, slot))
    {
      AcceptedSlot(entries, slot);
      SlotSays(entries, limits, slot, ItemFor(m, slot));
    }
    AcceptedSlot(entries, HeadCountKv);
    FreeIsNone(entries, HeadCountKv);
    assert Says(entries, Architecture, ItemFor(m, Architecture)) && Says(entries, FileType, ItemFor(m, FileType));
    assert Says(entries, Vocabulary, ItemFor(m, Vocabulary)) && Says(entries, ContextLength, ItemFor(m, ContextLength));
    assert Says(entries, BlockCount, ItemFor(m, BlockCount)) && Says(entries, EmbeddingLength, ItemFor(m, EmbeddingLength));
    assert Says(entries, HeadCount, ItemFor(m, HeadCount));
  }

  // What a summary has to do with the collected fields.
  ghost predicate Filled(c: Collected, m: Metadata) {
    && (forall slot :: slot != HeadCountKv ==> Holds(c, slot, ItemFor(m, slot)))
    && (Holds(c, HeadCountKv, ItemFor(m, HeadCountKv)) || (HeadCountKv !in c && m.headCountKv == m.headCount))
    && m.contextLength > 0 && m.blockCount > 0 && m.embeddingLength > 0 && m.headCount > 0 && m.vocabularySize > 0
    && 0 < m.headCountKv <= m.headCount && m.headCount % m.headCountKv == 0
  }

  lemma FinishFields(c: Collected, m: Metadata)
    ensures Finish(c) == Ok(m) <==> Filled(c, m)
  {
    if Finish(c) == Ok(m) {
      forall slot: Slot | slot != HeadCountKv
        ensures Holds(c, slot, ItemFor(m, slot))
      {
      }
    }
    if Filled(c, m) {
      assert Holds(c, Architecture, ItemFor(m, Architecture)) && Holds(c, FileType, ItemFor(m, FileType));
      assert Holds(c, Vocabulary, ItemFor(m, Vocabulary)) && Holds(c, ContextLength, ItemFor(m, ContextLength));
      assert Holds(c, BlockCount, ItemFor(m, BlockCount)) && Holds(c, EmbeddingLength, ItemFor(m, EmbeddingLength));
      assert Holds(c, HeadCount, ItemFor(m, HeadCount));
    }
  }

  lemma FreeIsNone(entries: seq<Entry>, slot: Slot)
    requires IsScoped(slot)
    ensures SlotFree(entries, slot) <==> NoScoped(entries, SuffixOf(slot))
  {
    hide Ascii, SuffixOf, Scoped, AimsAt;
    AimsAtAll(entries, slot);
  }

  // The item a described summary has for a slot.
  function ItemFor(m: Metadata, slot: Slot): Item {
    match slot
    case Architecture => TextItem(m.architectureName)
    case FileType => NumberItem(m.fileType)
    case Vocabulary => NumberItem(m.vocabularySize)
    case ContextLength => ScopedItem(m.architectureName, m.contextLength)
    case BlockCount => ScopedItem(m.architectureName, m.blockCount)
    case EmbeddingLength => ScopedItem(m.architectureName, m.embeddingLength)
    case HeadCountKv => ScopedItem(m.architectureName, m.headCountKv)
    case HeadCount => ScopedItem(m.architectureName, m.headCount)
  }

  lemma DescribedSlot(entries: seq<Entry>, limits: HeaderLimits, m: Metadata, slot: Slot)
    requires forall i :: 0 <= i < |entries| ==> Supported(entries[i], limits)
    requires Describes(entries, m)
    ensures SlotIs(entries, slot, ItemFor(m, slot)) || (slot == HeadCountKv && SlotFree(entries, slot) && m.headCountKv == m.headCount)
  {
    hide Supported, Ascii, SlotIs, SlotFree, TheText, TheInteger, TheTexts, TheScoped, NoScoped;
    SlotSays(entries, limits, slot, ItemFor(m, slot));
    FreeIsNone(entries, HeadCountKv);
  }

  lemma DescribedIsAcceptable(entries: seq<Entry>, limits: HeaderLimits, m: Metadata)
    requires forall i :: 0 <= i < |entries| ==> Supported(entries[i], limits)
    requires Describes(entries, m)
    ensures Acceptable(entries)
  {
    hide Supported, Describes, Acceptable, SlotIs, SlotFree;
    forall slot
      ensures SlotKnown(entries, slot)
    {
      DescribedSlot(entries, limits, m, slot);
    }
    KnownSlots(entries);
  }

  lemma DescribedFinishes(entries: seq<Entry>, limits: HeaderLimits, m: Metadata)
    requires forall i :: 0 <= i < |entries| ==> Supported(entries[i], limits)
    requires Describes(entries, m) && Acceptable(entries)
    ensures Finish(Lookup(entries)) == Ok(m)
  {
    hide Supported, Acceptable, SlotIs, SlotFree, TheText, TheInteger, TheTexts, TheScoped, NoScoped, Ascii, LooksUp, Finish;
    forall slot
      ensures Holds(Lookup(entries), slot, ItemFor(m, slot)) || (slot == HeadCountKv && slot !in Lookup(entries) && m.headCountKv == m.headCount)
    {
      DescribedSlot(entries, limits, m, slot);
      LookedUp(entries, slot);
    }
    FinishFields(Lookup(entries), m);
  }

  // A header as it is written, at the start of some bytes and within the limits.
  ghost predicate Written(bytes: Bytes, version: nat, tensors: nat, entries: seq<Entry>, rest: Bytes, limits: HeaderLimits) {
    && (version == 2 || version == 3)
    && tensors <= U64_MAX && |entries| <= U64_MAX && |entries| <= limits.entries
    && (forall i :: 0 <= i < |entries| ==> Supported(entries[i], limits))
    && bytes == HeaderBytes(version, tensors, entries) + rest
    && |HeaderBytes(version, tensors, entries)| <= limits.headerBytes
  }

  // On any written header within the limits, parsing succeeds exactly with the summary
  // the entries describe, and then exactly the header was read, within its byte limit.
  lemma InspectsExactly(bytes: Bytes, version: nat, tensors: nat, entries: seq<Entry>, rest: Bytes, limits: HeaderLimits, m: Metadata, after: Source)
    requires Written(bytes, version, tensors, entries, rest, limits)
    ensures Inspect(Source(bytes, limits.headerBytes), limits) == Ok(Got(m, after))
            <==> Describes(entries, m) && after == Source(rest, limits.headerBytes - |HeaderBytes(version, tensors, entries)|)
  {
    hide Inspect, HeaderBytes, Describes, Acceptable, Finish, Supported;
    InspectLooksUp(version, tensors, entries, rest, limits, m, after);
    FinishMeans(entries, limits, m);
  }

  // Parsing a written header is looking its fields up.
  lemma InspectLooksUp(version: nat, tensors: nat, entries: seq<Entry>, rest: Bytes, limits: HeaderLimits, m: Metadata, after: Source)
    requires version == 2 || version == 3
    requires tensors <= U64_MAX && |entries| <= U64_MAX && |entries| <= limits.entries
    requires forall i :: 0 <= i < |entries| ==> Supported(entries[i], limits)
    requires |HeaderBytes(version, tensors, entries)| <= limits.headerBytes
    ensures Inspect(Source(HeaderBytes(version, tensors, entries) + rest, limits.headerBytes), limits) == Ok(Got(m, after))
            <==> Acceptable(entries) && Finish(Lookup(entries)) == Ok(m)
                 && after == Source(rest, limits.headerBytes - |HeaderBytes(version, tensors, entries)|)
  {
    hide Le, ReadNumber, ReadExact, EntriesBytes, ReadEntries, Finish, Power, Supported, Acceptable, AbsorbAll, LooksUp;
    Widths();
    var body := EntriesBytes(entries);
    var a3 := Le(|entries|, 8) + (body + rest);
    var a2 := Le(tensors, 8) + a3;
    var a1 := Le(version, 4) + a2;
    assert HeaderBytes(version, tensors, entries) + rest == Magic() + a1;
    ExactReads(Magic(), a1, limits.headerBytes);
    NumberReads(version, 4, a2, limits.headerBytes - 4);
    NumberReads(tensors, 8, a3, limits.headerBytes - 8);
    NumberReads(|entries|, 8, body + rest, limits.headerBytes - 16);
    EntriesRead(entries, rest, limits.headerBytes - 24, limits, map[]);
    AbsorbsFromNothing(entries);
  }

  // ----- Only written headers are accepted -----

  // What was read stands in front of what is left, and is paid for.
  ghost predicate Took(s: Source, taken: Bytes, after: Source) {
    s.rest == taken + after.rest && s.remaining == after.remaining + |taken|
  }

  lemma TookBoth(s: Source, a: Bytes, middle: Source, b: Bytes, after: Source)
    requires Took(s, a, middle) && Took(middle, b, after)
    ensures Took(s, a + b, after)
  {
  }

  lemma ExactTook(s: Source, n: nat)
    requires ReadExact(s, n).Ok?
    ensures var got := ReadExact(s, n).value; |got.value| == n && Took(s, got.value, got.source)
  {
  }

  lemma NumberTook(s: Source, width: nat)
    requires ReadNumber(s, width).Ok?
    ensures var got := ReadNumber(s, width).value; got.value < Power(width) && Took(s, Le(got.value, width), got.source)
  {
    hide ReadExact, Took, Le, FromLe, Power;
    ExactTook(s, width);
    FromLeInverse(ReadExact(s, width).value.value);
  }

  lemma StringTook(s: Source, maximum: nat)
    requires ReadString(s, maximum).Ok?
    ensures var got := ReadString(s, maximum).value;
            IsText(got.value) && |got.value| <= maximum && |got.value| <= U64_MAX && Took(s, LongText(got.value), got.source)
  {
    hide ReadExact, ReadNumber, Took, Le, Power, IsText;
    Widths();
    NumberTook(s, 8);
    var length := ReadNumber(s, 8).value;
    ExactTook(length.source, length.value);
    var bytes := ReadExact(length.source, length.value).value;
    TookBoth(s, Le(length.value, 8), length.source, bytes.value, bytes.source);
  }

  lemma SkippedString(s: Source, maximum: nat) returns (text: Bytes)
    requires SkipString(s, maximum).Ok?
    ensures |text| <= maximum && |text| <= U64_MAX && Took(s, LongText(text), SkipString(s, maximum).value)
  {
    hide ReadExact, ReadNumber, Took, Le, Power;
    Widths();
    NumberTook(s, 8);
    var length := ReadNumber(s, 8).value;
    ExactTook(length.source, length.value);
    text := ReadExact(length.source, length.value).value.value;
    TookBoth(s, Le(length.value, 8), length.source, text, ReadExact(length.source, length.value).value.source);
  }

  lemma {:induction false} SkippedStrings(s: Source, count: nat, maximum: nat) returns (texts: seq<Bytes>)
    requires SkipStrings(s, count, maximum).Ok?
    ensures |texts| == count && (forall i :: 0 <= i < |texts| ==> |texts[i]| <= maximum && |texts[i]| <= U64_MAX)
    ensures Took(s, LongTexts(texts), SkipStrings(s, count, maximum).value)
    decreases count
  {
    hide SkipString, LongText;
    if count == 0 {
      texts := [];
      assert s.rest == [] + s.rest;
    } else {
      var text := SkippedString(s, maximum);
      var next := SkipString(s, maximum).value;
      var tail := SkippedStrings(next, count - 1, maximum);
      texts := [text] + tail;
      assert texts[1..] == tail;
      TookBoth(s, LongText(text), next, LongTexts(tail), SkipStrings(next, count - 1, maximum).value);
    }
  }

  // Whatever is skipped was a supported value of its type.
  lemma SkippedValue(s: Source, code: nat, limits: HeaderLimits) returns (value: Value)
    requires SkipValue(s, code, limits).Ok?
    ensures ValueSupported(value, limits) && CodeOf(value) == code && Took(s, ValueBytes(value), SkipValue(s, code, limits).value)
  {
    hide ReadExact, ReadNumber, Took, Le, Power, SkipString, SkipStrings, LongText, LongTexts;
    Widths();
    if FixedWidth(code) > 0 {
      ExactTook(s, FixedWidth(code));
      value := Scalar(code, ReadExact(s, FixedWidth(code)).value.value);
    } else if code == TYPE_STRING {
      var text := SkippedString(s, limits.stringBytes);
      value := TextValue(text);
    } else {
      NumberTook(s, 4);
      var element := ReadNumber(s, 4).value;
      NumberTook(element.source, 8);
      var count := ReadNumber(element.source, 8).value;
      if FixedWidth(element.value) > 0 {
        var n := count.value * FixedWidth(element.value);
        ExactTook(count.source, n);
        var raw := ReadExact(count.source, n).value;
        TookBoth(element.source, Le(count.value, 8), count.source, raw.value, raw.source);
        TookBoth(s, Le(element.value, 4), element.source, Le(count.value, 8) + raw.value, raw.source);
        value := ScalarArray(element.value, count.value, raw.value);
      } else {
        var texts := SkippedStrings(count.source, count.value, limits.stringBytes);
        value := TookTexts(s, limits, texts);
      }
    }
  }

  lemma TookTexts(s: Source, limits: HeaderLimits, texts: seq<Bytes>) returns (value: Value)
    requires ReadNumber(s, 4).Ok? && ReadNumber(s, 4).value.value == TYPE_STRING
    requires var element := ReadNumber(s, 4).value;
             ReadNumber(element.source, 8).Ok? && ReadNumber(element.source, 8).value.value == |texts|
    requires |texts| <= limits.arrayElements && forall i :: 0 <= i < |texts| ==> |texts[i]| <= limits.stringBytes && |texts[i]| <= U64_MAX
    requires var count := ReadNumber(ReadNumber(s, 4).value.source, 8).value;
             SkipStrings(count.source, |texts|, limits.stringBytes).Ok?
             && Took(count.source, LongTexts(texts), SkipStrings(count.source, |texts|, limits.stringBytes).value)
    ensures value == TextArray(texts) && ValueSupported(value, limits)
    ensures var count := ReadNumber(ReadNumber(s, 4).value.source, 8).value;
            Took(s, ValueBytes(value), SkipStrings(count.source, |texts|, limits.stringBytes).value)
  {
    hide ReadNumber, Took, Le, Power, SkipStrings, LongTexts;
    Widths();
    NumberTook(s, 4);
    var element := ReadNumber(s, 4).value;
    NumberTook(element.source, 8);
    var count := ReadNumber(element.source, 8).value;
    var after := SkipStrings(count.source, |texts|, limits.stringBytes).value;
    TookBoth(element.source, Le(|texts|, 8), count.source, LongTexts(texts), after);
    TookBoth(s, Le(TYPE_STRING, 4), element.source, Le(|texts|, 8) + LongTexts(texts), after);
    value := TextArray(texts);
  }

  lemma TypedTook(s: Source, code: nat, limits: HeaderLimits)
    requires ReadTyped(s, code).Ok?
    ensures SkipValue(s, code, limits) == Ok(ReadTyped(s, code).value.source)
  {
    hide ReadExact, FromLe, Power;
  }

  // Reading a value of interest consumes what skipping it would.
  lemma ValueTook(s: Source, target: Target, code: nat, limits: HeaderLimits, c: Collected) returns (value: Value)
    requires ReadValue(s, target, code, limits, c).Ok?
    ensures ValueSupported(value, limits) && CodeOf(value) == code && Took(s, ValueBytes(value), ReadValue(s, target, code, limits, c).value.source)
  {
    hide ReadExact, ReadNumber, ReadString, SkipStrings, Took, Le, Power, SkipValue, ReadTyped, LongText, LongTexts;
    match target {
      case PlainTarget(Architecture) =>
        StringTook(s, limits.stringBytes);
        value := TextValue(ReadString(s, limits.stringBytes).value.value);
      case PlainTarget(FileType) =>
        TypedTook(s, code, limits);
        value := SkippedValue(s, code, limits);
      case PlainTarget(_) =>
        var count := ReadNumber(ReadNumber(s, 4).value.source, 8).value;
        var texts := SkippedStrings(count.source, count.value, limits.stringBytes);
        value := TookTexts(s, limits, texts);
      case ScopedTarget(_, _) =>
        TypedTook(s, code, limits);
        value := SkippedValue(s, code, limits);
      case NoTarget =>
        value := SkippedValue(s, code, limits);
    }
  }

  lemma EntryTook(s: Source, limits: HeaderLimits, c: Collected) returns (e: Entry)
    requires ReadEntry(s, limits, c).Ok?
    ensures Supported(e, limits) && Took(s, EntryBytes(e), ReadEntry(s, limits, c).value.source)
  {
    hide ReadNumber, ReadString, ReadValue, TargetOf, Took, Le, Power, LongText, ValueBytes, ValueSupported, IsText;
    StringTook(s, limits.stringBytes);
    var key := ReadString(s, limits.stringBytes).value;
    NumberTook(key.source, 4);
    var code := ReadNumber(key.source, 4).value;
    var value := ValueTook(code.source, TargetOf(key.value), code.value, limits, c);
    var after := ReadEntry(s, limits, c).value.source;
    TookBoth(key.source, Le(code.value, 4), code.source, ValueBytes(value), after);
    TookBoth(s, LongText(key.value), key.source, Le(code.value, 4) + ValueBytes(value), after);
    e := Entry(key.value, value);
  }

  lemma {:induction false} EntriesTook(s: Source, count: nat, limits: HeaderLimits, c: Collected) returns (entries: seq<Entry>)
    requires ReadEntries(s, count, limits, c).Ok?
    ensures |entries| == count && (forall i :: 0 <= i < |entries| ==> Supported(entries[i], limits))
    ensures Took(s, EntriesBytes(entries), ReadEntries(s, count, limits, c).value.source)
    decreases count
  {
    hide ReadEntry, Supported, EntryBytes;
    if count == 0 {
      entries := [];
      assert s.rest == [] + s.rest;
    } else {
      var e := EntryTook(s, limits, c);
      var next := ReadEntry(s, limits, c).value;
      var tail := EntriesTook(next.source, count - 1, limits, next.value);
      entries := [e] + tail;
      assert entries[1..] == tail;
      TookBoth(s, EntryBytes(e), next.source, EntriesBytes(tail), ReadEntries(next.source, count - 1, limits, next.value).value.source);
    }
  }

  lemma AcceptedIsWritten(bytes: Bytes, limits: HeaderLimits) returns (version: nat, tensors: nat, entries: seq<Entry>, rest: Bytes)
    requires Inspect(Source(bytes, limits.headerBytes), limits).Ok?
    ensures Written(bytes, version, tensors, entries, rest, limits)
  {
    hide ReadExact, ReadNumber, ReadEntries, Finish, Took, Le, Power, Supported, EntriesBytes;
    Widths();
    var s := Source(bytes, limits.headerBytes);
    ExactTook(s, 4);
    MagicSpelled();
    var magic := ReadExact(s, 4).value;
    NumberTook(magic.source, 4);
    var v := ReadNumber(magic.source, 4).value;
    NumberTook(v.source, 8);
    var t := ReadNumber(v.source, 8).value;
    NumberTook(t.source, 8);
    var count := ReadNumber(t.source, 8).value;
    version, tensors := v.value, t.value;
    entries := EntriesTook(count.source, count.value, limits, map[]);
    var after := ReadEntries(count.source, count.value, limits, map[]).value.source;
    rest := after.rest;
    TookBoth(t.source, Le(count.value, 8), count.source, EntriesBytes(entries), after);
    TookBoth(v.source, Le(tensors, 8), t.source, Le(count.value, 8) + EntriesBytes(entries), after);
    TookBoth(magic.source, Le(version, 4), v.source, Le(tensors, 8) + (Le(count.value, 8) + EntriesBytes(entries)), after);
    TookBoth(s, Magic(), magic.source, Le(version, 4) + (Le(tensors, 8) + (Le(count.value, 8) + EntriesBytes(entries))), after);
    TookWritten(s, HeaderBytes(version, tensors, entries), after);
  }

  lemma MagicSpelled()
    ensures Ascii("GGUF") == Magic()
  {
  }

  lemma TookWritten(s: Source, taken: Bytes, after: Source)
    requires Took(s, taken, after)
    ensures s.rest == taken + after.rest && |taken| <= s.remaining
  {
  }

  // An inspection succeeds exactly with the summary that a written header describes.
  ghost predicate Summarizes(bytes: Bytes, limits: HeaderLimits, r: Parsed<Metadata>) {
    && (r.Ok? ==> exists version, tensors, entries, rest :: Written(bytes, version, tensors, entries, rest, limits))
    && (forall version, tensors, entries, rest, m :: Written(bytes, version, tensors, entries, rest, limits) ==> (r == Ok(m) <==> Describes(entries, m)))
  }

  lemma InspectSummarizes(bytes: Bytes, limits: HeaderLimits, r: Parsed<Metadata>, now: Source)
    requires Agrees(Inspect(Source(bytes, limits.headerBytes), limits), r, now)
    ensures Summarizes(bytes, limits, r)
  {
    hide Inspect, Describes;
    if r.Ok? {
      var version, tensors, entries, rest := AcceptedIsWritten(bytes, limits);
    }
    forall version, tensors, entries, rest, m | Written(bytes, version, tensors, entries, rest, limits)
      ensures r == Ok(m) <==> Describes(entries, m)
    {
      InspectsExactly(bytes, version, tensors, entries, rest, limits, m, now);
      InspectsExactly(bytes, version, tensors, entries, rest, limits, m, Source(rest, limits.headerBytes - |HeaderBytes(version, tensors, entries)|));
    }
  }

  lemma AbsorbsFromNothing(entries: seq<Entry>)
    ensures AbsorbAll(map[], entries).Some? <==> Acceptable(entries)
  {
    hide MeaningOf;
    AbsorbsExactly(map[], entries);
  }

  // ----- Independence of the entry order -----

  lemma PermutedAcceptable(a: seq<Entry>, b: seq<Entry>)
    requires multiset(a) == multiset(b) && Acceptable(a)
    ensures Acceptable(b)
  {
    hide MeaningOf;
    forall i | 0 <= i < |b|
      ensures !MeaningOf(b[i]).Rejected?
    {
      assert b[i] in multiset(b);
      assert b[i] in a;
    }
    forall i, j | 0 <= i < j < |b| && MeaningOf(b[i]).Sets? && MeaningOf(b[j]).Sets?
      ensures MeaningOf(b[i]).slot != MeaningOf(b[j]).slot
    {
      var p, q := Places(a, b, i, j);
    }
  }

  // Two places of b are two places of any permutation of it.
  lemma Places(a: seq<Entry>, b: seq<Entry>, i: nat, j: nat) returns (p: nat, q: nat)
    requires multiset(a) == multiset(b) && i < j < |b|
    ensures p < |a| && q < |a| && p != q && a[p] == b[i] && a[q] == b[j]
  {
    hide *;
    p := PlaceOf(a, b[i], multiset(b));
    if b[i] != b[j] {
      q := PlaceOf(a, b[j], multiset(b));
    } else {
      Twice(b, i, j);
      q := OtherPlace(a, p);
    }
  }

  // A repeated entry has another place.
  lemma OtherPlace(a: seq<Entry>, p: nat) returns (q: nat)
    requires p < |a| && multiset(a)[a[p]] >= 2
    ensures q < |a| && q != p && a[q] == a[p]
  {
    hide *;
    RepeatedAround(a, p);
    if k :| 0 <= k < p && a[k] == a[p] {
      q := k;
    } else {
      q :| p < q < |a| && a[q] == a[p];
    }
  }

  lemma RepeatedAround(a: seq<Entry>, p: nat)
    requires p < |a| && multiset(a)[a[p]] >= 2
    ensures (exists k :: 0 <= k < p && a[k] == a[p]) || (exists k :: p < k < |a| && a[k] == a[p])
  {
    hide *;
    var front, back := a[..p], a[p + 1..];
    assert a == front + ([a[p]] + back);
    SplitCount(front, a[p], back);
    if a[p] in front {
      var k :| 0 <= k < |front| && front[k] == a[p];
      assert a[k] == a[p];
    } else {
      var k :| 0 <= k < |back| && back[k] == a[p];
      assert a[p + 1 + k] == a[p];
    }
  }

  lemma SplitCount(front: seq<Entry>, e: Entry, back: seq<Entry>)
    requires multiset(front + ([e] + back))[e] >= 2
    ensures e in front || e in back
  {
    hide *;
  }

  lemma Twice(b: seq<Entry>, i: nat, j: nat)
    requires i < j < |b| && b[i] == b[j]
    ensures multiset(b)[b[i]] >= 2
  {
    assert b == b[..j] + ([b[j]] + b[j + 1..]);
    assert b[i] == b[..j][i];
    assert b[i] in multiset(b[..j]);
  }

  lemma PermutedLookup(a: seq<Entry>, b: seq<Entry>)
    requires multiset(a) == multiset(b) && Acceptable(a)
    ensures Acceptable(b) && Lookup(a) == Lookup(b)
  {
    hide MeaningOf, Acceptable, AbsorbAll, Lookup;
    PermutedAcceptable(a, b);
    var c, d := Lookup(a), Lookup(b);
    assert LooksUp(d, a) by {
      forall i | 0 <= i < |a| && MeaningOf(a[i]).Sets?
        ensures MeaningOf(a[i]).slot in d && d[MeaningOf(a[i]).slot] == MeaningOf(a[i]).item
      {
        assert a[i] in multiset(a);
        assert a[i] in b;
      }
      forall slot | slot in d
        ensures exists i :: 0 <= i < |a| && MeaningOf(a[i]) == Sets(slot, d[slot])
      {
        var j :| 0 <= j < |b| && MeaningOf(b[j]) == Sets(slot, d[slot]);
        assert b[j] in multiset(b);
        assert b[j] in a;
      }
    }
    LookupIsUnique(c, d, a);
  }

  lemma {:induction false} EntriesBytesConcat(a: seq<Entry>, b: seq<Entry>)
    ensures |EntriesBytes(a + b)| == |EntriesBytes(a)| + |EntriesBytes(b)|
    decreases |a|
  {
    hide EntryBytes;
    if a == [] {
      assert a + b == b;
    } else {
      EntriesBytesConcat(a[1..], b);
      assert (a + b)[1..] == a[1..] + b;
    }
  }

  function WithoutEntry(s: seq<Entry>, k: nat): seq<Entry>
    requires k < |s|
  {
    s[..k] + s[k + 1..]
  }

  lemma WithoutEntryFacts(s: seq<Entry>, k: nat)
    requires k < |s|
    ensures multiset(s) == multiset(WithoutEntry(s, k)) + multiset{s[k]}
    ensures |EntriesBytes(s)| == |EntriesBytes(WithoutEntry(s, k))| + |EntryBytes(s[k])|
  {
    hide EntryBytes;
    assert s == s[..k] + ([s[k]] + s[k + 1..]);
    EntriesBytesConcat(s[..k], [s[k]] + s[k + 1..]);
    EntriesBytesConcat([s[k]], s[k + 1..]);
    EntriesBytesConcat(s[..k], s[k + 1..]);
    assert [s[k]][1..] == [];
  }

  lemma {:induction false} PermutedLength(a: seq<Entry>, b: seq<Entry>)
    requires multiset(a) == multiset(b)
    ensures |a| == |b| && |EntriesBytes(a)| == |EntriesBytes(b)|
    decreases |a|
  {
    hide EntriesBytes, WithoutEntry;
    SameSize(a, b);
    if a == [] {
      assert a == b;
    } else {
      var k := PlaceOf(b, a[0], multiset(a));
      WithoutEntryFacts(a, 0);
      WithoutEntryFacts(b, k);
      CancelEntries(multiset(WithoutEntry(a, 0)), multiset(WithoutEntry(b, k)), multiset{a[0]});
      ShorterByOne(a, 0);
      PermutedLength(WithoutEntry(a, 0), WithoutEntry(b, k));
    }
  }

  lemma SameSize(a: seq<Entry>, b: seq<Entry>)
    requires multiset(a) == multiset(b)
    ensures |a| == |b|
  {
    assert |multiset(a)| == |a| && |multiset(b)| == |b|;
  }

  lemma ShorterByOne(s: seq<Entry>, k: nat)
    requires k < |s|
    ensures |WithoutEntry(s, k)| == |s| - 1
  {
  }

  lemma PlaceOf(s: seq<Entry>, e: Entry, all: multiset<Entry>) returns (k: nat)
    requires all == multiset(s) && e in all
    ensures k < |s| && s[k] == e
  {
    assert e in multiset(s);
    assert e in s;
    k :| 0 <= k < |s| && s[k] == e;
  }

  lemma CancelEntries(a: multiset<Entry>, b: multiset<Entry>, c: multiset<Entry>)
    requires a + c == b + c
    ensures a == b
  {
    forall x
      ensures a[x] == b[x]
    {
      assert (a + c)[x] == a[x] + c[x] && (b + c)[x] == b[x] + c[x];
    }
  }

  lemma PermutedSupported(a: seq<Entry>, b: seq<Entry>, limits: HeaderLimits)
    requires multiset(a) == multiset(b) && forall i :: 0 <= i < |a| ==> Supported(a[i], limits)
    ensures forall i :: 0 <= i < |b| ==> Supported(b[i], limits)
  {
    hide Supported;
    forall i | 0 <= i < |b|
      ensures Supported(b[i], limits)
    {
      assert b[i] in multiset(b);
      assert b[i] in a;
    }
  }

  // Writing the entries of an accepted header in another order gives the same metadata.
  lemma OrderDoesNotMatter(version: nat, tensors: nat, a: seq<Entry>, b: seq<Entry>, rest: Bytes, limits: HeaderLimits, m: Metadata, after: Source)
    requires multiset(a) == multiset(b)
    requires version == 2 || version == 3
    requires tensors <= U64_MAX && |a| <= U64_MAX && |a| <= limits.entries
    requires forall i :: 0 <= i < |a| ==> Supported(a[i], limits)
    requires |HeaderBytes(version, tensors, a)| <= limits.headerBytes
    requires Inspect(Source(HeaderBytes(version, tensors, a) + rest, limits.headerBytes), limits) == Ok(Got(m, after))
    ensures Inspect(Source(HeaderBytes(version, tensors, b) + rest, limits.headerBytes), limits) == Ok(Got(m, after))
  {
    hide Inspect, Supported, Acceptable, Lookup, Finish, EntriesBytes, Le;
    PermutedLength(a, b);
    PermutedSupported(a, b, limits);
    assert |HeaderBytes(version, tensors, b)| == |HeaderBytes(version, tensors, a)|;
    InspectLooksUp(version, tensors, a, rest, limits, m, after);
    PermutedLookup(a, b);
    InspectLooksUp(version, tensors, b, rest, limits, m, after);
  }

  // ----- The parser itself -----

  ghost predicate Agrees<T>(specified: Parsed<Got<T>>, r: Parsed<T>, now: Source) {
    match specified
    case Ok(got) => r == Ok(got.value) && now == got.source
    case Err(error) => r == Err(error)
  }

  ghost predicate Skips(specified: Parsed<Source>, r: Parsed<()>, now: Source) {
    match specified
    case Ok(after) => r == Ok(()) && now == after
    case Err(error) => r == Err(error)
  }

  // BoundedReader over a byte sequence.
  class BoundedReader {
    const bytes: Bytes
    const maximum: nat
    var position: nat
    var remaining: nat

    // Never past the end of the file or the byte limit.
    ghost predicate Valid()
      reads this
    {
      position <= |bytes| && position + remaining == maximum
    }

    ghost function View(): Source
      reads this
      requires Valid()
    {
      Source(bytes[position..], remaining)
    }

    constructor (bytes: Bytes, maximum: nat)
      ensures Valid() && View() == Source(bytes, maximum)
    {
      this.bytes := bytes;
      this.maximum := maximum;
      position, remaining := 0, maximum;
    }

    // read_exact: takes what the limit and the file allow before it reports a shortfall.
    method Exactly(n: nat) returns (r: Parsed<Bytes>)
      requires Valid()
      modifies this
      ensures Valid()
      ensures Agrees(ReadExact(old(View()), n), r, View())
    {
      var available := |bytes| - position;
      var taken := Min(n, Min(remaining, available));
      var output := bytes[position..position + taken];
      ghost var before := bytes[position..];
      position := position + taken;
      remaining := remaining - taken;
      assert before[..taken] == output && before[taken..] == bytes[position..];
      if taken < n {
        if remaining == 0 {
          return Err(LimitExceeded);
        }
        return Err(ReadFailed);
      }
      return Ok(output);
    }

    method Number(width: nat) returns (r: Parsed<nat>)
      requires Valid()
      modifies this
      ensures Valid()
      ensures Agrees(ReadNumber(old(View()), width), r, View())
    {
      hide ReadExact;
      var output :- Exactly(width);
      return Ok(FromLe(output));
    }

    // read_string.
    method Text(maximum: nat) returns (r: Parsed<Bytes>)
      requires Valid()
      modifies this
      ensures Valid()
      ensures Agrees(ReadString(old(View()), maximum), r, View())
    {
      hide ReadExact, ReadNumber, IsText;
      var length :- Number(8);
      if length > maximum {
        return Err(LimitExceeded);
      }
      var text :- Exactly(length);
      if !IsText(text) {
        return Err(InvalidUtf8Text);
      }
      return Ok(text);
    }

    // skip_bytes, through a fixed buffer.
    method Skip(n: nat) returns (r: Parsed<()>)
      requires Valid()
      modifies this
      ensures Valid()
      ensures Skips(SkipBytes(old(View()), n), r, View())
    {
      hide ReadExact;
      ghost var start := View();
      var left: nat := n;
      SkipNothing(start);
      while left != 0
        invariant Valid() && left <= n
        invariant SkipBytes(start, n - left) == Ok(View())
      {
        var chunk: nat := Min(left, 8192);
        SkipInParts(start, n - left, chunk);
        SkipInParts(start, n - left, left);
        ShortChunk(View(), chunk, left);
        var _ :- Exactly(chunk);
        left := left - chunk;
      }
      return Ok(());
    }

    // skip_string.
    method SkipText(maximum: nat) returns (r: Parsed<()>)
      requires Valid()
      modifies this
      ensures Valid()
      ensures Skips(SkipString(old(View()), maximum), r, View())
    {
      hide ReadNumber, SkipBytes;
      var length :- Number(8);
      if length > maximum {
        return Err(LimitExceeded);
      }
      r := Skip(length);
    }

    method SkipTexts(count: nat, maximum: nat) returns (r: Parsed<()>)
      requires Valid()
      modifies this
      ensures Valid()
      ensures Skips(SkipStrings(old(View()), count, maximum), r, View())
    {
      hide SkipString;
      ghost var start := View();
      for i := 0 to count
        invariant Valid()
        invariant SkipStrings(start, count, maximum) == SkipStrings(View(), count - i, maximum)
      {
        var _ :- SkipText(maximum);
      }
      return Ok(());
    }

    // skip_value.
    method SkipOne(code: nat, limits: HeaderLimits) returns (r: Parsed<()>)
      requires Valid()
      modifies this
      ensures Valid()
      ensures Skips(SkipValue(old(View()), code, limits), r, View())
    {
      hide ReadNumber, SkipBytes, SkipString, SkipStrings;
      var width := FixedWidth(code);
      if width > 0 {
        r := Skip(width);
        return;
      }
      if code == TYPE_STRING {
        r := SkipText(limits.stringBytes);
        return;
      }
      if code != TYPE_ARRAY {
        return Err(InvalidFormat);
      }
      var element :- Number(4);
      if element == TYPE_ARRAY {
        return Err(InvalidFormat);
      }
      var count :- Number(8);
      if count > limits.arrayElements {
        return Err(LimitExceeded);
      }
      var elementWidth := FixedWidth(element);
      if elementWidth > 0 {
        if count * elementWidth > U64_MAX {
          return Err(NumericOverflow);
        }
        r := Skip(count * elementWidth);
        return;
      }
      if element == TYPE_STRING {
        r := SkipTexts(count, limits.stringBytes);
        return;
      }
      return Err(InvalidFormat);
    }

    // read_integer.
    method Integer(code: nat) returns (r: Parsed<nat>)
      requires Valid()
      modifies this
      ensures Valid()
      ensures Agrees(ReadTyped(old(View()), code), r, View())
    {
      hide ReadNumber, FixedWidth, Power;
      if !IsUnsigned(code) && !IsSigned(code) {
        return Err(InvalidFormat);
      }
      var width := FixedWidth(code);
      var value :- Number(width);
      if IsSigned(code) && 2 * value >= Power(width) {
        return Err(InvalidValue);
      }
      return Ok(value);
    }

    // read_token_array.
    method Tokens(code: nat, limits: HeaderLimits, c: Collected) returns (r: Parsed<Collected>)
      requires Valid()
      modifies this
      ensures Valid()
      ensures Agrees(ReadTokenArray(old(View()), code, limits, c), r, View())
    {
      hide ReadNumber, SkipStrings;
      if code != TYPE_ARRAY {
        return Err(InvalidFormat);
      }
      var element :- Number(4);
      var count :- Number(8);
      if count > limits.arrayElements {
        return Err(LimitExceeded);
      }
      if element != TYPE_STRING {
        return Err(InvalidFormat);
      }
      if Vocabulary in c {
        return Err(InvalidFormat);
      }
      if count > U32_MAX {
        return Err(NumericOverflow);
      }
      var _ :- SkipTexts(count, limits.stringBytes);
      return Ok(c[Vocabulary := NumberItem(count)]);
    }

    // read_metadata_value.
    method MetadataValue(key: Bytes, code: nat, limits: HeaderLimits, c: Collected) returns (r: Parsed<Collected>)
      requires Valid()
      modifies this
      ensures Valid()
      ensures Agrees(ReadValue(old(View()), TargetOf(key), code, limits, c), r, View())
    {
      hide ReadString, ReadTyped, ReadTokenArray, SkipValue, TargetOf;
      match TargetOf(key) {
        case PlainTarget(Architecture) =>
          if code != TYPE_STRING || Architecture in c {
            return Err(InvalidFormat);
          }
          var text :- Text(limits.stringBytes);
          return Ok(c[Architecture := TextItem(text)]);
        case PlainTarget(FileType) =>
          if FileType in c {
            return Err(InvalidFormat);
          }
          var value :- Integer(code);
          if value > U16_MAX {
            return Err(NumericOverflow);
          }
          return Ok(c[FileType := NumberItem(value)]);
        case PlainTarget(_) =>
          r := Tokens(code, limits, c);
        case ScopedTarget(slot, scope) =>
          var value :- Integer(code);
          if slot in c {
            return Err(InvalidFormat);
          }
          if value > U32_MAX {
            return Err(NumericOverflow);
          }
          return Ok(c[slot := ScopedItem(scope, value)]);
        case NoTarget =>
          var _ :- SkipOne(code, limits);
          return Ok(c);
      }
    }

    // One key, type and value.
    method OneEntry(limits: HeaderLimits, c: Collected) returns (r: Parsed<Collected>)
      requires Valid()
      modifies this
      ensures Valid()
      ensures Agrees(ReadEntry(old(View()), limits, c), r, View())
    {
      hide ReadString, ReadNumber, ReadValue, TargetOf;
      var key :- Text(limits.stringBytes);
      var code :- Number(4);
      r := MetadataValue(key, code, limits, c);
    }

    // inspect_reader.
    method InspectHeader(limits: HeaderLimits) returns (r: Parsed<Metadata>)
      requires Valid()
      modifies this
      ensures Valid()
      ensures Agrees(Inspect(old(View()), limits), r, View())
    {
      hide ReadExact, ReadNumber, ReadEntry, Finish;
      var magic :- Exactly(4);
      if magic != Magic() {
        return Err(InvalidFormat);
      }
      var version :- Number(4);
      if version != 2 && version != 3 {
        return Err(InvalidFormat);
      }
      var tensors :- Number(8);
      var count :- Number(8);
      if count > limits.entries {
        return Err(LimitExceeded);
      }
      var collected: Collected := map[];
      ghost var start := View();
      for i := 0 to count
        invariant Valid()
        invariant ReadEntries(start, count, limits, map[]) == ReadEntries(View(), count - i, limits, collected)
      {
        collected :- OneEntry(limits, collected);
      }
      r := Finish(collected);
    }
  }

  // inspect_metadata on the bytes of a file.
  method InspectMetadata(bytes: Bytes, limits: HeaderLimits) returns (r: Parsed<Metadata>)
    ensures Summarizes(bytes, limits, r)
  {
    hide Inspect, Summarizes;
    var reader := new BoundedReader(bytes, limits.headerBytes);
    r := reader.InspectHeader(limits);
    InspectSummarizes(bytes, limits, r, reader.View());
  }

  lemma SkipNothing(s: Source)
    ensures SkipBytes(s, 0) == Ok(s)
  {
  }

  // Reading in parts reads the same bytes.
  lemma SkipInParts(s: Source, a: nat, b: nat)
    requires SkipBytes(s, a).Ok?
    ensures SkipBytes(s, a + b) == SkipBytes(SkipBytes(s, a).value, b)
  {
    if a + b <= |s.rest| {
      assert s.rest[a..][b..] == s.rest[a + b..];
    }
  }

  // A chunk that cannot be read fails as the whole would.
  lemma ShortChunk(s: Source, chunk: nat, whole: nat)
    requires chunk <= whole
    ensures ReadExact(s, chunk).Err? ==> ReadExact(s, whole) == ReadExact(s, chunk)
  {
  }
}
