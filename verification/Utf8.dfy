// Incremental UTF-8 validation (tokenization/src/utf8.rs), measured against the
// grammar of section 4 of RFC 3629.
module Utf8 {
  import opened Common

  type byte = b: int | 0 <= b < 256

  datatype DecodeError = InvalidUtf8(byte: byte) | IncompleteUtf8(buffered: nat) | DecodeCapacity(required: nat, available: nat)

  // ----- The grammar -----

  predicate Tail(b: byte) {
    0x80 <= b <= 0xBF
  }

  // UTF8-char.
  predicate IsCharacter(s: seq<byte>) {
    if |s| == 1 then s[0] <= 0x7F
    else if |s| == 2 then 0xC2 <= s[0] <= 0xDF && Tail(s[1])
    else if |s| == 3 then
      && Tail(s[2])
      && (|| (s[0] == 0xE0 && 0xA0 <= s[1] <= 0xBF)
          || (0xE1 <= s[0] <= 0xEC && Tail(s[1]))
          || (s[0] == 0xED && 0x80 <= s[1] <= 0x9F)
          || (0xEE <= s[0] <= 0xEF && Tail(s[1])))
    else if |s| == 4 then
      && Tail(s[2]) && Tail(s[3])
      && (|| (s[0] == 0xF0 && 0x90 <= s[1] <= 0xBF)
          || (0xF1 <= s[0] <= 0xF3 && Tail(s[1]))
          || (s[0] == 0xF4 && 0x80 <= s[1] <= 0x8F))
    else false
  }

  // Section 3 of RFC 3629: the scalar values and their bytes.
  predicate ScalarValue(p: nat) {
    p <= 0x10FFFF && !(0xD800 <= p <= 0xDFFF)
  }

  function Encode(p: nat): seq<byte>
    requires ScalarValue(p)
  {
    if p <= 0x7F then [p]
    else if p <= 0x7FF then [0xC0 + p / 64, 0x80 + p % 64]
    else if p <= 0xFFFF then [0xE0 + p / 64 / 64, 0x80 + p / 64 % 64, 0x80 + p % 64]
    else [0xF0 + p / 64 / 64 / 64, 0x80 + p / 64 / 64 % 64, 0x80 + p / 64 % 64, 0x80 + p % 64]
  }

  // The characters of the grammar are exactly the encodings of scalar values.
  lemma CharactersAreScalars(s: seq<byte>)
    ensures IsCharacter(s) <==> exists p: nat :: ScalarValue(p) && Encode(p) == s
  {
    if IsCharacter(s) {
      var p := Decoded(s);
      DecodedEncodes(s);
      assert ScalarValue(p) && Encode(p) == s;
    }
    if p: nat :| ScalarValue(p) && Encode(p) == s {
      EncodedIsCharacter(p);
    }
  }

  function Decoded(s: seq<byte>): nat
    requires IsCharacter(s)
  {
    var b := seq(|s|, i requires 0 <= i < |s| => s[i] as int);
    if |b| == 1 then b[0]
    else if |b| == 2 then (b[0] - 0xC0) * 64 + (b[1] - 0x80)
    else if |b| == 3 then ((b[0] - 0xE0) * 64 + (b[1] - 0x80)) * 64 + (b[2] - 0x80)
    else (((b[0] - 0xF0) * 64 + (b[1] - 0x80)) * 64 + (b[2] - 0x80)) * 64 + (b[3] - 0x80)
  }

  lemma Digits(high: nat, low: nat)
    requires low < 64
    ensures (high * 64 + low) / 64 == high && (high * 64 + low) % 64 == low
  {
  }

  lemma TwoBytes(a: nat, b: nat)
    requires 2 <= a < 32 && b < 64
    ensures ScalarValue(a * 64 + b) && Encode(a * 64 + b) == [0xC0 + a, 0x80 + b]
  {
    Digits(a, b);
  }

  lemma ThreeBytes(a: nat, b: nat, c: nat)
    requires a < 16 && b < 64 && c < 64 && (a == 0 ==> b >= 32) && (a == 13 ==> b < 32)
    ensures var p := (a * 64 + b) * 64 + c;
            ScalarValue(p) && Encode(p) == [0xE0 + a, 0x80 + b, 0x80 + c]
  {
    Digits(a, b);
    Digits(a * 64 + b, c);
  }

  lemma FourBytes(a: nat, b: nat, c: nat, d: nat)
    requires a <= 4 && b < 64 && c < 64 && d < 64 && (a == 0 ==> b >= 16) && (a == 4 ==> b < 16)
    ensures var p := ((a * 64 + b) * 64 + c) * 64 + d;
            ScalarValue(p) && Encode(p) == [0xF0 + a, 0x80 + b, 0x80 + c, 0x80 + d]
  {
    Digits(a, b);
    Digits(a * 64 + b, c);
    Digits((a * 64 + b) * 64 + c, d);
  }

  lemma DecodedEncodes(s: seq<byte>)
    requires IsCharacter(s)
    ensures ScalarValue(Decoded(s)) && Encode(Decoded(s)) == s
  {
    hide Encode, ScalarValue;
    var b := seq(|s|, i requires 0 <= i < |s| => s[i] as int);
    if |s| == 2 {
      TwoBytes(b[0] - 0xC0, b[1] - 0x80);
    } else if |s| == 3 {
      ThreeBytes(b[0] - 0xE0, b[1] - 0x80, b[2] - 0x80);
    } else if |s| == 4 {
      FourBytes(b[0] - 0xF0, b[1] - 0x80, b[2] - 0x80, b[3] - 0x80);
    } else {
      OneByte(b[0]);
      assert s == [b[0]];
    }
  }

  lemma OneByte(a: nat)
    requires a <= 0x7F
    ensures ScalarValue(a) && Encode(a) == [a]
  {
  }

  lemma EncodedIsCharacter(p: nat)
    requires ScalarValue(p)
    ensures IsCharacter(Encode(p))
  {
  }

  function Concat(parts: seq<seq<byte>>): seq<byte> {
    if parts == [] then [] else Concat(parts[..|parts| - 1]) + parts[|parts| - 1]
  }

  ghost predicate Characters(parts: seq<seq<byte>>) {
    forall i :: 0 <= i < |parts| ==> IsCharacter(parts[i])
  }

  // UTF8-octets: some sequence of characters.
  ghost predicate WellFormed(s: seq<byte>) {
    exists parts :: Characters(parts) && Concat(parts) == s
  }

  // ----- The decoder's step on values -----

  datatype Decoding = Decoding(emitted: seq<byte>, pending: seq<byte>, error: Option<DecodeError>)

  // The number of bytes a lead byte announces; 0 if it cannot lead.
  function Width(lead: byte): nat {
    if lead <= 0x7F then 1
    else if 0xC2 <= lead <= 0xDF then 2
    else if 0xE0 <= lead <= 0xEF then 3
    else if 0xF0 <= lead <= 0xF4 then 4
    else 0
  }

  // An unfinished code point: a lead byte and fewer continuation bytes than it announces.
  predicate Partial(pending: seq<byte>) {
    pending != [] ==> |pending| < Width(pending[0]) && forall i :: 0 < i < |pending| ==> Tail(pending[i])
  }

  function Feed(emitted: seq<byte>, pending: seq<byte>, b: byte): Decoding {
    if pending == [] then
      if b <= 0x7F then Decoding(emitted + [b], [], None)
      else if Width(b) == 0 then Decoding(emitted, [], Some(InvalidUtf8(b)))
      else Decoding(emitted, [b], None)
    else if !Tail(b) then Decoding(emitted, [], Some(InvalidUtf8(b)))
    else
      var fragment := pending + [b];
      if |fragment| != Width(pending[0]) then Decoding(emitted, fragment, None)
      else if IsCharacter(fragment) then Decoding(emitted + fragment, [], None)
      else Decoding(emitted, [], Some(InvalidUtf8(b)))
  }

  // Feeding stops at the first error.
  function FeedAll(emitted: seq<byte>, pending: seq<byte>, bytes: seq<byte>): Decoding {
    if bytes == [] then Decoding(emitted, pending, None)
    else
      var before := FeedAll(emitted, pending, bytes[..|bytes| - 1]);
      if before.error.Some? then before else Feed(before.emitted, before.pending, bytes[|bytes| - 1])
  }

  // ----- Chunking -----

  // Splitting the input changes nothing, errors included.
  lemma {:induction false} ChunksAgree(emitted: seq<byte>, pending: seq<byte>, a: seq<byte>, b: seq<byte>)
    ensures var first := FeedAll(emitted, pending, a);
            FeedAll(emitted, pending, a + b) == if first.error.Some? then first else FeedAll(first.emitted, first.pending, b)
    decreases |b|
  {
    hide Feed;
    if b == [] {
      assert a + b == a;
    } else {
      var n := |b| - 1;
      ChunksAgree(emitted, pending, a, b[..n]);
      assert (a + b)[..|a + b| - 1] == a + b[..n];
    }
  }

  // The outcome of pushing chunk after chunk.
  function FeedChunks(emitted: seq<byte>, pending: seq<byte>, chunks: seq<seq<byte>>): Decoding {
    if chunks == [] then Decoding(emitted, pending, None)
    else
      var before := FeedChunks(emitted, pending, chunks[..|chunks| - 1]);
      if before.error.Some? then before else FeedAll(before.emitted, before.pending, chunks[|chunks| - 1])
  }

  // Any way of cutting a stream into chunks decodes as the whole stream does.
  lemma {:induction false} AnyChunking(emitted: seq<byte>, pending: seq<byte>, chunks: seq<seq<byte>>)
    ensures FeedChunks(emitted, pending, chunks) == FeedAll(emitted, pending, Concat(chunks))
    decreases |chunks|
  {
    if chunks != [] {
      var n := |chunks| - 1;
      AnyChunking(emitted, pending, chunks[..n]);
      ChunksAgree(emitted, pending, Concat(chunks[..n]), chunks[n]);
    }
  }

  // Without an error every byte fed is emitted or still pending, in order.
  lemma {:induction false} NothingLost(emitted: seq<byte>, pending: seq<byte>, bytes: seq<byte>)
    requires Partial(pending)
    ensures var r := FeedAll(emitted, pending, bytes);
            && Partial(r.pending)
            && emitted <= r.emitted
            && (r.error.None? ==> r.emitted + r.pending == emitted + pending + bytes)
            && (r.error.Some? ==> r.pending == [] && r.error.value.InvalidUtf8?)
            && |r.emitted| + |r.pending| <= |emitted| + |pending| + |bytes|
    decreases |bytes|
  {
    if bytes != [] {
      var n := |bytes| - 1;
      NothingLost(emitted, pending, bytes[..n]);
      var before := FeedAll(emitted, pending, bytes[..n]);
      if before.error.None? {
        FeedKeeps(before.emitted, before.pending, bytes[n]);
        assert emitted + pending + bytes[..n] + [bytes[n]] == emitted + pending + bytes;
      }
    }
  }

  lemma FeedKeeps(emitted: seq<byte>, pending: seq<byte>, b: byte)
    requires Partial(pending)
    ensures var r := Feed(emitted, pending, b);
            && Partial(r.pending)
            && emitted <= r.emitted
            && (r.error.None? ==> r.emitted + r.pending == emitted + pending + [b])
            && (r.error.Some? ==> r.pending == [] && r.error.value.InvalidUtf8? && r.emitted == emitted)
            && |r.emitted| + |r.pending| <= |emitted| + |pending| + 1
  {
  }

  // ----- Agreement with the grammar -----

  // A character stays pending until its last byte ...
  lemma {:induction false} PrefixPending(emitted: seq<byte>, c: seq<byte>, k: nat)
    requires IsCharacter(c) && 0 < k < |c|
    ensures FeedAll(emitted, [], c[..k]) == Decoding(emitted, c[..k], None)
  {
    if k == 1 {
      FeedOne(emitted, [], c[..1]);
    } else {
      PrefixPending(emitted, c, k - 1);
      assert c[..k][..k - 1] == c[..k - 1] && c[..k - 1] + [c[k - 1]] == c[..k];
    }
  }

  // ... and is then emitted whole.
  lemma CharacterAccepted(emitted: seq<byte>, c: seq<byte>)
    requires IsCharacter(c)
    ensures FeedAll(emitted, [], c) == Decoding(emitted + c, [], None)
  {
    if |c| == 1 {
      FeedOne(emitted, [], c);
    } else {
      PrefixPending(emitted, c, |c| - 1);
      LastByte(emitted, c);
    }
  }

  lemma LastByte(emitted: seq<byte>, c: seq<byte>)
    requires IsCharacter(c) && |c| > 1
    ensures Feed(emitted, c[..|c| - 1], c[|c| - 1]) == Decoding(emitted + c, [], None)
  {
    assert c[..|c| - 1] + [c[|c| - 1]] == c;
  }

  lemma FeedOne(emitted: seq<byte>, pending: seq<byte>, one: seq<byte>)
    requires |one| == 1
    ensures FeedAll(emitted, pending, one) == Feed(emitted, pending, one[0])
  {
    assert one[..0] == [];
  }

  lemma FeedNothing(emitted: seq<byte>)
    ensures FeedAll(emitted, [], []) == Decoding(emitted, [], None)
  {
  }

  lemma {:induction false} CharactersAccepted(emitted: seq<byte>, parts: seq<seq<byte>>)
    requires Characters(parts)
    ensures FeedAll(emitted, [], Concat(parts)) == Decoding(emitted + Concat(parts), [], None)
    decreases |parts|
  {
    hide Feed, FeedAll, IsCharacter;
    if parts == [] {
      FeedNothing(emitted);
      assert emitted + [] == emitted;
    } else {
      var n := |parts| - 1;
      CharactersAccepted(emitted, parts[..n]);
      ChunksAgree(emitted, [], Concat(parts[..n]), parts[n]);
      CharacterAccepted(emitted + Concat(parts[..n]), parts[n]);
      assert emitted + Concat(parts[..n]) + parts[n] == emitted + Concat(parts);
    }
  }

  // Only whole characters are ever emitted.
  lemma {:induction false} EmitsCharacters(bytes: seq<byte>) returns (parts: seq<seq<byte>>)
    ensures Characters(parts) && Concat(parts) == FeedAll([], [], bytes).emitted
    decreases |bytes|
  {
    if bytes == [] {
      parts := [];
    } else {
      var n := |bytes| - 1;
      parts := EmitsCharacters(bytes[..n]);
      var before, after := FeedAll([], [], bytes[..n]), FeedAll([], [], bytes);
      if before.error.None? && after.emitted != before.emitted {
        var c := before.pending + [bytes[n]];
        assert IsCharacter(c) && after.emitted == before.emitted + c;
        parts := parts + [c];
        assert parts[..|parts| - 1] == parts[..|parts| - 1] && Concat(parts) == Concat(parts[..|parts| - 1]) + c;
      }
    }
  }

  // The decoder accepts a stream, with nothing left over, exactly when the stream is
  // well formed; it then emits the stream itself.
  lemma AcceptsExactly(bytes: seq<byte>)
    ensures var r := FeedAll([], [], bytes);
            && (r.error.None? && r.pending == [] <==> WellFormed(bytes))
            && (WellFormed(bytes) ==> r.emitted == bytes)
  {
    hide Feed, IsCharacter;
    var r := FeedAll([], [], bytes);
    NothingLost([], [], bytes);
    if r.error.None? && r.pending == [] {
      var parts := EmitsCharacters(bytes);
      assert r.emitted + [] == r.emitted && [] + [] + bytes == bytes;
      assert Concat(parts) == bytes;
    }
    if WellFormed(bytes) {
      var parts :| Characters(parts) && Concat(parts) == bytes;
      CharactersAccepted([], parts);
    }
  }

  // An error is final: no continuation of the stream could have been well formed.
  lemma ErrorsAreFinal(bytes: seq<byte>, more: seq<byte>)
    requires FeedAll([], [], bytes).error.Some?
    ensures !WellFormed(bytes + more)
  {
    ChunksAgree([], [], bytes, more);
    AcceptsExactly(bytes + more);
  }

  // The fragment test: for a lead byte with all its continuation bytes, whole-string
  // validation accepts exactly the single characters.
  lemma FragmentIsText(fragment: seq<byte>)
    requires |fragment| >= 2 && |fragment| == Width(fragment[0]) && forall i :: 0 < i < |fragment| ==> Tail(fragment[i])
    ensures WellFormed(fragment) <==> IsCharacter(fragment)
  {
    hide Feed, FeedAll;
    if IsCharacter(fragment) {
      assert Concat([fragment]) == fragment && Characters([fragment]);
    }
    if WellFormed(fragment) {
      var parts :| Characters(parts) && Concat(parts) == fragment;
      var first := FirstPart(parts);
      assert |first| == Width(fragment[0]);
      assert first == fragment;
    }
  }

  // A nonempty string of characters starts with one of them.
  lemma {:induction false} FirstPart(parts: seq<seq<byte>>) returns (first: seq<byte>)
    requires Characters(parts) && Concat(parts) != []
    ensures IsCharacter(first) && first <= Concat(parts)
    decreases |parts|
  {
    hide IsCharacter;
    var n := |parts| - 1;
    if Concat(parts[..n]) == [] {
      first := parts[n];
    } else {
      first := FirstPart(parts[..n]);
    }
  }

  // ----- The fixed-capacity sink and the decoder object -----

  class TextBuffer {
    const storage: array<byte>
    var length: nat

    ghost predicate Valid()
      reads this
    {
      length <= storage.Length
    }

    ghost function Text(): seq<byte>
      reads this, storage
      requires Valid()
    {
      storage[..length]
    }

    constructor (storage: array<byte>)
      ensures Valid() && this.storage == storage && Text() == []
    {
      this.storage := storage;
      length := 0;
    }

    function RemainingCapacity(): nat
      reads this
    {
      SaturatingSub(storage.Length, length)
    }

    // push_str.
    method PushText(text: seq<byte>) returns (r: Result<(), DecodeError>)
      requires Valid()
      modifies `length, storage
      ensures Valid()
      ensures r == if |text| <= storage.Length - old(length) then Ok(()) else Err(DecodeCapacity(|text|, storage.Length - old(length)))
      ensures Text() == if r.Ok? then old(Text()) + text else old(Text())
    {
      var available := RemainingCapacity();
      if |text| > available {
        return Err(DecodeCapacity(|text|, available));
      }
      var end := length + |text|;
      for i := 0 to |text|
        invariant length == old(length) && length + |text| <= storage.Length
        invariant storage[..length] == old(storage[..length])
        invariant storage[length..length + i] == text[..i]
      {
        storage[length + i] := text[i];
      }
      assert storage[..end] == storage[..length] + storage[length..end];
      length := end;
      return Ok(());
    }
  }

  class IncrementalUtf8Decoder {
    const pending: array<byte>
    var pendingLength: nat
    var expectedLength: nat
    // The stream accepted since it last began (at construction, a reset or an error), and
    // what of it has been emitted, over however many calls and sinks.
    ghost var fed: seq<byte>
    ghost var written: seq<byte>

    ghost function Pending(): seq<byte>
      reads this, pending
      requires pendingLength <= pending.Length
    {
      pending[..pendingLength]
    }

    // At most one unfinished code point is retained.
    ghost predicate Valid()
      reads this, pending
    {
      && pending.Length == 4
      && pendingLength <= 4
      && Partial(Pending())
      && expectedLength == if pendingLength == 0 then 0 else Width(pending[0])
    }

    // The object is where decoding the whole stream at once would be.
    ghost predicate Streaming()
      reads this, pending
    {
      Valid() && FeedAll([], [], fed) == Decoding(written, Pending(), None)
    }

    constructor ()
      ensures Streaming() && Pending() == [] && fed == [] && fresh(pending)
    {
      pending := new byte[4](_ => 0);
      pendingLength, expectedLength := 0, 0;
      fed, written := [], [];
    }

    method Reset()
      requires pending.Length == 4
      modifies this, pending
      ensures Streaming() && Pending() == [] && fed == []
    {
      for i := 0 to 4 {
        pending[i] := 0;
      }
      pendingLength, expectedLength := 0, 0;
      fed, written := [], [];
    }

    // finish: succeeds exactly when everything pushed since the stream began is well
    // formed, and then all of it has been emitted.
    method Finish() returns (r: Result<(), DecodeError>)
      requires Streaming()
      ensures r == if Pending() == [] then Ok(()) else Err(IncompleteUtf8(|Pending()|))
      ensures r.Ok? <==> WellFormed(fed)
      ensures r.Ok? ==> written == fed
    {
      AcceptsExactly(fed);
      if pendingLength == 0 {
        return Ok(());
      }
      return Err(IncompleteUtf8(pendingLength));
    }

    // flush_complete: emits a completed fragment, if it is text.
    method FlushComplete(output: TextBuffer) returns (r: Result<(), DecodeError>)
      requires output.Valid() && pending.Length == 4 && pendingLength <= 4
      requires output.storage != pending
      requires pendingLength == expectedLength != 0 ==>
        expectedLength == Width(pending[0]) && (forall i :: 0 < i < pendingLength ==> Tail(pending[i]))
      requires pendingLength != 0 && pendingLength == expectedLength ==> output.length + pendingLength <= output.storage.Length
      modifies this, pending, output`length, output.storage
      ensures output.Valid()
      ensures old(pendingLength) == 0 || old(pendingLength) != old(expectedLength) ==>
        r == Ok(()) && pendingLength == old(pendingLength) && expectedLength == old(expectedLength) && Pending() == old(Pending())
        && output.Text() == old(output.Text())
      ensures old(pendingLength) != 0 && old(pendingLength) == old(expectedLength) ==>
        && Valid() && Pending() == []
        && (if IsCharacter(old(Pending())) then r == Ok(()) && output.Text() == old(output.Text()) + old(Pending())
            else r == Err(InvalidUtf8(old(pending[pendingLength - 1]))) && output.Text() == old(output.Text()))
    {
      if pendingLength == 0 || pendingLength != expectedLength {
        return Ok(());
      }
      var fragment := pending[..expectedLength];
      if !IsCharacter(fragment) {
        var last := fragment[|fragment| - 1];
        Reset();
        return Err(InvalidUtf8(last));
      }
      var pushed := output.PushText(fragment);
      Reset();
      return Ok(());
    }

    // push_byte.
    method PushByte(b: byte, output: TextBuffer) returns (r: Result<(), DecodeError>)
      requires Valid() && output.Valid() && output.storage != pending
      requires output.length + pendingLength + 1 <= output.storage.Length
      modifies this, pending, output`length, output.storage
      ensures Valid() && output.Valid()
      ensures var d := Feed(old(output.Text()), old(Pending()), b);
              && output.Text() == d.emitted && Pending() == d.pending
              && r == if d.error.Some? then Err(d.error.value) else Ok(())
    {
      ghost var before := Pending();
      if pendingLength == 0 {
        if b <= 0x7F {
          pending[0] := b;
          pendingLength, expectedLength := 1, 1;
          assert Pending() == [b];
          r := FlushComplete(output);
          return;
        }
        var width := Width(b);
        if width == 0 {
          return Err(InvalidUtf8(b));
        }
        expectedLength := width;
        pending[0] := b;
        pendingLength := 1;
        assert Pending() == [b];
        return Ok(());
      }
      if !Tail(b) {
        Reset();
        return Err(InvalidUtf8(b));
      }
      pending[pendingLength] := b;
      pendingLength := pendingLength + 1;
      assert Pending() == before + [b];
      if pendingLength != expectedLength {
        return Ok(());
      }
      r := FlushComplete(output);
    }

    // push_bytes: after the capacity check the sink never refuses a fragment, and the
    // call does exactly what feeding the bytes one by one does.
    // The stream grows by the bytes; after an error no continuation of it could have been
    // well formed, and a new one begins.
    method PushBytes(bytes: seq<byte>, output: TextBuffer) returns (r: Result<(), DecodeError>)
      requires Streaming() && output.Valid() && output.storage != pending
      modifies this, pending, output`length, output.storage
      ensures Streaming() && output.Valid()
      ensures old(pendingLength) + |bytes| > output.storage.Length - old(output.length) ==>
        && r == Err(DecodeCapacity(old(pendingLength) + |bytes|, output.storage.Length - old(output.length)))
        && output.Text() == old(output.Text()) && Pending() == old(Pending())
      ensures old(pendingLength) + |bytes| <= output.storage.Length - old(output.length) ==>
        var d := FeedAll(old(output.Text()), old(Pending()), bytes);
        && output.Text() == d.emitted && Pending() == d.pending
        && r == if d.error.Some? then Err(d.error.value) else Ok(())
      ensures r.Ok? ==>
        && fed == old(fed) + bytes
        && old(written) <= written && output.Text() == old(output.Text()) + written[|old(written)|..]
      ensures r.Err? && r.error.DecodeCapacity? ==> fed == old(fed) && written == old(written)
      ensures r.Err? && !r.error.DecodeCapacity? ==> fed == [] && forall more :: !WellFormed(old(fed) + bytes + more)
    {
      hide Feed, FeedAll, IsCharacter, WellFormed;
      var required := pendingLength + |bytes|;
      if required > output.RemainingCapacity() {
        return Err(DecodeCapacity(required, output.RemainingCapacity()));
      }
      ghost var text, start, stream, sent := output.Text(), Pending(), fed, written;
      StreamGrows(stream, sent, start, text, bytes);
      FedNothing(text, start, bytes);
      r := FlushComplete(output);
      if r.Err? {
        return;
      }
      for i := 0 to |bytes|
        invariant Valid() && output.Valid()
        invariant FeedAll(text, start, bytes[..i]) == Decoding(output.Text(), Pending(), None)
        invariant output.length + pendingLength + |bytes| - i <= output.storage.Length
      {
        FedOneMore(text, start, bytes, i);
        NothingLost(text, start, bytes[..i]);
        FeedKeeps(output.Text(), Pending(), bytes[i]);
        var pushed := PushByte(bytes[i], output);
        if pushed.Err? {
          StopsAt(text, start, bytes, i + 1);
          NothingLost(text, start, bytes);
          StreamBroken(stream + bytes);
          FeedNothing([]);
          fed, written := [], [];
          return pushed;
        }
      }
      assert bytes[..|bytes|] == bytes;
      fed, written := stream + bytes, sent + output.Text()[|text|..];
      return Ok(());
    }
  }

  // A stream that goes on decodes alike wherever its text is emitted to.
  lemma StreamGrows(stream: seq<byte>, sent: seq<byte>, start: seq<byte>, text: seq<byte>, bytes: seq<byte>)
    requires FeedAll([], [], stream) == Decoding(sent, start, None)
    ensures var d, whole := FeedAll(text, start, bytes), FeedAll([], [], stream + bytes);
            && text <= d.emitted
            && whole == Decoding(sent + d.emitted[|text|..], d.pending, d.error)
  {
    ChunksAgree([], [], stream, bytes);
    SinkIsFree(sent, text, start, bytes);
  }

  lemma {:induction false} SinkIsFree(a: seq<byte>, b: seq<byte>, pending: seq<byte>, bytes: seq<byte>)
    ensures var x, y := FeedAll(a, pending, bytes), FeedAll(b, pending, bytes);
            b <= y.emitted && x == Decoding(a + y.emitted[|b|..], y.pending, y.error)
    decreases |bytes|
  {
    if bytes == [] {
      assert a + b[|b|..] == a;
    } else {
      var n := |bytes| - 1;
      SinkIsFree(a, b, pending, bytes[..n]);
      var y := FeedAll(b, pending, bytes[..n]);
      if y.error.None? {
        OneSinkIsFree(a, b, y.emitted, y.pending, bytes[n]);
      }
    }
  }

  lemma OneSinkIsFree(a: seq<byte>, b: seq<byte>, text: seq<byte>, pending: seq<byte>, next: byte)
    requires b <= text
    ensures var x, y := Feed(a + text[|b|..], pending, next), Feed(text, pending, next);
            b <= y.emitted && x == Decoding(a + y.emitted[|b|..], y.pending, y.error)
  {
    var y := Feed(text, pending, next);
    var more := y.emitted[|text|..];
    assert y.emitted == text + more;
    assert a + text[|b|..] + more == a + y.emitted[|b|..];
  }

  lemma StreamBroken(stream: seq<byte>)
    requires FeedAll([], [], stream).error.Some?
    ensures forall more :: !WellFormed(stream + more)
  {
    hide FeedAll, WellFormed;
    forall more
      ensures !WellFormed(stream + more)
    {
      ErrorsAreFinal(stream, more);
    }
  }

  lemma FedNothing(emitted: seq<byte>, pending: seq<byte>, bytes: seq<byte>)
    ensures FeedAll(emitted, pending, bytes[..0]) == Decoding(emitted, pending, None)
  {
  }

  lemma FedOneMore(emitted: seq<byte>, pending: seq<byte>, bytes: seq<byte>, i: nat)
    requires i < |bytes| && FeedAll(emitted, pending, bytes[..i]).error.None?
    ensures var before := FeedAll(emitted, pending, bytes[..i]);
            FeedAll(emitted, pending, bytes[..i + 1]) == Feed(before.emitted, before.pending, bytes[i])
  {
    assert bytes[..i + 1][..i] == bytes[..i];
  }

  lemma StopsAt(emitted: seq<byte>, pending: seq<byte>, bytes: seq<byte>, i: nat)
    requires i <= |bytes| && FeedAll(emitted, pending, bytes[..i]).error.Some?
    ensures FeedAll(emitted, pending, bytes) == FeedAll(emitted, pending, bytes[..i])
  {
    ChunksAgree(emitted, pending, bytes[..i], bytes[i..]);
    assert bytes == bytes[..i] + bytes[i..];
  }
}
