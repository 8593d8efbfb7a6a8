/**
 Download sinks: where the bytes of a download go. A streaming sink writes as it goes but withholds
 the last `tailBytes` bytes until size and checksum pass; the fixed sink does the same with one
 buffer of twice that size. The writer is seen as the bytes written to it and how it ended, the
 hasher as the bytes it was given and an arbitrary digest function.
 */
module Sinks {
  import opened Basics

  datatype WriterState = Open | Finished | Aborted(code: Code)

  datatype Code = SizeMismatch | ChecksumMismatch | Intact | Plain {
    predicate Ok() { Intact? || Plain? }
  }

  function Lower(s: string): string {
    if s == [] then [] else [if 'A' <= s[0] <= 'Z' then s[0] + 32 as char else s[0]] + Lower(s[1..])
  }

  /** An absent or empty checksum asks for no check. */
  function NormalizeExpectedSha1(expected: Option<string>): Option<string> {
    if expected.None? || expected.value == "" then None else Some(Lower(expected.value))
  }

  /** The verdict on the bytes hashed: size first, then checksum. */
  function Verdict(digest: Bytes -> string, hashed: Bytes, expectedSha1: Option<string>, expectedSize: nat, receivedBytes: nat): Code {
    var sha1 := NormalizeExpectedSha1(expectedSha1);
    if receivedBytes != expectedSize then SizeMismatch
    else if sha1.Some? && digest(hashed) != sha1.value then ChecksumMismatch
    else if sha1.Some? then Intact else Plain
  }

  /** The same letters and digits, whatever their case. */
  predicate SameLetters(a: string, b: string) {
    |a| == |b| && forall i :: 0 <= i < |a| ==> a[i] == b[i] || CaseOf(a[i], b[i]) || CaseOf(b[i], a[i])
  }

  predicate CaseOf(small: char, large: char) {
    'a' <= small <= 'z' && 'A' <= large <= 'Z' && small as int - 'a' as int == large as int - 'A' as int
  }

  predicate LowercaseHex(s: string) {
    s != "" && forall i :: 0 <= i < |s| ==> '0' <= s[i] <= '9' || 'a' <= s[i] <= 'f'
  }

  lemma {:induction false} LowerIsVariant(digest: string, expected: string)
    requires forall i :: 0 <= i < |digest| ==> '0' <= digest[i] <= '9' || 'a' <= digest[i] <= 'f'
    ensures digest == Lower(expected) <==> SameLetters(digest, expected)
  {
    if digest != [] && expected != [] {
      LowerIsVariant(digest[1..], expected[1..]);
      assert digest == [digest[0]] + digest[1..] && expected == [expected[0]] + expected[1..];
      assert Lower(expected)[1..] == Lower(expected[1..]);
      FirstLetter(digest, expected);
    } else if expected == [] {
      assert digest == Lower(expected) <==> digest == [];
    } else {
      assert |Lower(expected)| > 0;
    }
  }

  lemma FirstLetter(a: string, b: string)
    requires a != [] && b != []
    ensures SameLetters(a, b) <==>
      (a[0] == b[0] || CaseOf(a[0], b[0]) || CaseOf(b[0], a[0])) && SameLetters(a[1..], b[1..])
  {
    if SameLetters(a[1..], b[1..]) && (a[0] == b[0] || CaseOf(a[0], b[0]) || CaseOf(b[0], a[0])) {
      forall i | 0 <= i < |a| ensures a[i] == b[i] || CaseOf(a[i], b[i]) || CaseOf(b[i], a[i]) {
        if i > 0 {
          assert a[i] == a[1..][i - 1] && b[i] == b[1..][i - 1];
        }
      }
    }
    if SameLetters(a, b) {
      forall i | 0 <= i < |a| - 1
        ensures a[1..][i] == b[1..][i] || CaseOf(a[1..][i], b[1..][i]) || CaseOf(b[1..][i], a[1..][i])
      {
        assert a[1..][i] == a[i + 1] && b[1..][i] == b[i + 1];
      }
    }
  }

  /** A download is good exactly if it has the announced size and, where a checksum was given, that is its
      digest in any case of letters. */
  lemma GoodExactly(digest: Bytes -> string, hashed: Bytes, expected: Option<string>, expectedSize: nat, receivedBytes: nat)
    requires LowercaseHex(digest(hashed))
    ensures var code := Verdict(digest, hashed, expected, expectedSize, receivedBytes);
      var unchecked := expected == None || expected == Some("");
      && (code == SizeMismatch <==> receivedBytes != expectedSize)
      && (code == Plain <==> receivedBytes == expectedSize && unchecked)
      && (code == Intact <==> receivedBytes == expectedSize && !unchecked && SameLetters(digest(hashed), expected.value))
  {
    if expected.Some? {
      LowerIsVariant(digest(hashed), expected.value);
    }
  }

  // ----- what has been written after n bytes of input

  /** Bytes the original sink holds back. */
  function Tail(total: nat, tailBytes: nat): nat {
    Min(total, tailBytes)
  }

  /** Bytes the fixed sink holds back: more than the tail, as soon as there are more. */
  function FixedTail(total: nat, tailBytes: nat): (held: nat)
    requires tailBytes >= 1
    ensures Tail(total, tailBytes) <= held <= total
    ensures held <= 2 * tailBytes
  {
    if total <= tailBytes then total else tailBytes + 1 + (total - tailBytes - 1) % tailBytes
  }

  function WrittenBy(input: Bytes, held: nat): Bytes
    requires held <= |input|
  {
    input[..|input| - held]
  }

  /** The fixed sink refines the original: whatever has been appended and however it was cut, its
      output is a prefix of the original's, and both hold back the last bytes of the input. */
  lemma FixedRefinesOriginal(input: Bytes, tailBytes: nat)
    requires tailBytes >= 1
    ensures WrittenBy(input, FixedTail(|input|, tailBytes)) <= WrittenBy(input, Tail(|input|, tailBytes))
    ensures WrittenBy(input, Tail(|input|, tailBytes)) + input[|input| - Tail(|input|, tailBytes)..] == input
    ensures FixedTail(|input|, tailBytes) >= Tail(|input|, tailBytes) == Min(|input|, tailBytes)
  {}

  lemma AtLeastOne(k: int, t: nat)
    requires k >= 1
    ensures k * t >= t
  {
    assert k * t == (k - 1) * t + t;
  }

  lemma UniqueDivision(x: nat, q: int, r: nat, t: nat)
    requires t > 0 && r < t && x == q * t + r
    ensures x % t == r
  {
    var q', r' := x / t, x % t;
    assert x == t * q' + r';
    assert q' * t == t * q';
    assert (q' - q) * t == q' * t - q * t;
    assert (q - q') * t == q * t - q' * t;
    if q' > q {
      AtLeastOne(q' - q, t);
      assert false;
    } else if q > q' {
      AtLeastOne(q - q', t);
      assert false;
    }
  }

  /** A number of whole tails has been written: then this is how much is held. */
  lemma HeldIs(total: nat, flushes: nat, held: nat, tailBytes: nat)
    requires tailBytes >= 1 && total == flushes * tailBytes + held && held <= 2 * tailBytes
    requires flushes > 0 ==> held > tailBytes
    ensures held == FixedTail(total, tailBytes)
  {
    if total > tailBytes {
      if flushes == 0 {
        assert (total - tailBytes - 1) % tailBytes == total - tailBytes - 1;
      } else {
        UniqueDivision(total - tailBytes - 1, flushes, held - tailBytes - 1, tailBytes);
      }
    } else if flushes > 0 {
      assert false;
    }
  }

  // ----- the original streaming sink

  class StreamingSink {
    const tailBytes: nat
    const digest: Bytes -> string
    var tail: Bytes
    var hashed: Bytes
    var written: Bytes
    var writer: WriterState
    ghost var input: Bytes      // everything appended

    ghost predicate Valid()
      reads this
    {
      && hashed == input && written + tail == input
      && |tail| == Tail(|input|, tailBytes)
      && writer == Open
    }

    constructor (tailBytes: nat, digest: Bytes -> string)
      ensures Valid() && input == [] && this.tailBytes == tailBytes && this.digest == digest
    {
      this.tailBytes, this.digest := tailBytes, digest;
      tail, hashed, written, writer, input := [], [], [], Open, [];
    }

    method Append(bytes: Bytes)
      requires Valid()
      modifies this
      ensures Valid() && input == old(input) + bytes
      ensures written == WrittenBy(input, Tail(|input|, tailBytes))
    {
      hashed := hashed + bytes;
      input := input + bytes;
      var combined := if tail == [] then bytes else if bytes == [] then tail else tail + bytes;
      if |combined| <= tailBytes {
        tail := combined;
        return;
      }
      var flushLength := |combined| - tailBytes;
      written := written + combined[..flushLength];
      tail := combined[flushLength..];
    }

    method Finalize(expectedSha1: Option<string>, expectedSize: nat, receivedBytes: nat) returns (code: Code)
      requires Valid()
      modifies this
      ensures code == Verdict(digest, input, expectedSha1, expectedSize, receivedBytes) && input == old(input)
      ensures if code.Ok() then written == input && writer == Finished
              else written == old(written) && writer == Aborted(code)
    {
      var sha1 := NormalizeExpectedSha1(expectedSha1);
      var computed := if sha1.Some? then Some(digest(hashed)) else None;
      if receivedBytes != expectedSize {
        writer := Aborted(SizeMismatch);
        return SizeMismatch;
      }
      if sha1.Some? && computed != sha1 {
        writer := Aborted(ChecksumMismatch);
        return ChecksumMismatch;
      }
      if |tail| > 0 {
        written := written + tail;
      }
      writer := Finished;
      return if sha1.Some? then Intact else Plain;
    }
  }

  // ----- the fixed streaming sink

  /** How much one turn of the append loop takes of what remains (see StreamingSinkFixed.AppendTurn). */
  function TakeOf(bufferLength: nat, tailBytes: nat, remaining: nat): int {
    var start := if bufferLength == 2 * tailBytes then tailBytes else bufferLength;
    Min(2 * tailBytes - start, remaining)
  }

  /** The append loop always moves on exactly when there is a tail to withhold. With no tail its
      buffer has no room, and a non-empty append would never end. */
  lemma AppendProgressesExactly(tailBytes: nat)
    ensures (forall bufferLength: nat, remaining: nat {:trigger TakeOf(bufferLength, tailBytes, remaining)} ::
               bufferLength <= 2 * tailBytes && remaining > 0 ==> TakeOf(bufferLength, tailBytes, remaining) > 0)
            <==> tailBytes >= 1
  {
    if tailBytes == 0 {
      assert TakeOf(0, 0, 1) == 0;
    }
  }

  lemma Grown(written: Bytes, front: Bytes, piece: Bytes, before: Bytes, taken: Bytes)
    requires written + front == before + taken
    ensures written + (front + piece) == before + (taken + piece)
  {
    assert written + (front + piece) == (written + front) + piece;
    assert before + (taken + piece) == (before + taken) + piece;
  }

  class StreamingSinkFixed {
    const tailBytes: nat
    const digest: Bytes -> string
    const buffer: array<byte>
    var bufferLength: nat
    var hashed: Bytes
    var written: Bytes
    var writer: WriterState
    ghost var input: Bytes
    ghost var flushes: nat
    ghost var copied: nat       // bytes copied by appends

    ghost predicate Valid()
      reads this, buffer
    {
      && tailBytes >= 1 && buffer.Length == 2 * tailBytes && bufferLength <= buffer.Length
      && hashed == input && written + buffer[..bufferLength] == input
      && |written| == flushes * tailBytes
      && (flushes > 0 ==> bufferLength > tailBytes)
      && copied == |input| + 2 * |written|
      && writer == Open
    }

    constructor (tailBytes: nat, digest: Bytes -> string)
      requires tailBytes >= 1
      ensures Valid() && input == [] && this.tailBytes == tailBytes && this.digest == digest && fresh(buffer)
    {
      this.tailBytes, this.digest := tailBytes, digest;
      buffer := new byte[2 * tailBytes](i => 0);
      bufferLength, hashed, written, writer := 0, [], [], Open;
      input, flushes, copied := [], 0, 0;
    }

    /** Copies bytes into the buffer. */
    method Put(bytes: Bytes)
      requires bufferLength + |bytes| <= buffer.Length
      modifies this`bufferLength, this`copied, buffer
      ensures bufferLength == old(bufferLength) + |bytes| && copied == old(copied) + |bytes|
      ensures buffer[..bufferLength] == old(buffer[..bufferLength]) + bytes
    {
      for i := 0 to |bytes|
        modifies buffer
        invariant buffer[..bufferLength] == old(buffer[..bufferLength])
        invariant buffer[bufferLength..bufferLength + i] == bytes[..i]
      {
        buffer[bufferLength + i] := bytes[i];
      }
      bufferLength := bufferLength + |bytes|;
      copied := copied + |bytes|;
    }

    /** Writes the front half of a full buffer and slides the back half to the front. */
    method Flush()
      requires bufferLength == buffer.Length == 2 * tailBytes
      modifies this`written, this`bufferLength, this`copied, buffer
      ensures bufferLength == tailBytes && copied == old(copied) + 2 * tailBytes
      ensures written == old(written) + old(buffer[..tailBytes])
      ensures buffer[..tailBytes] == old(buffer[tailBytes..])
    {
      var capacity := 2 * tailBytes;
      written := written + buffer[..capacity - tailBytes];
      for i := 0 to tailBytes
        modifies buffer
        invariant buffer[..i] == old(buffer[tailBytes..tailBytes + i])
        invariant buffer[tailBytes..] == old(buffer[tailBytes..])
      {
        buffer[i] := buffer[capacity - tailBytes + i];
      }
      assert old(buffer[tailBytes..tailBytes + tailBytes]) == old(buffer[tailBytes..]);
      bufferLength := tailBytes;
      copied := copied + 2 * tailBytes;
    }

    /** Everything written and held, in order. */
    ghost function Contents(): Bytes
      requires bufferLength <= buffer.Length
      reads this, buffer
    {
      written + buffer[..bufferLength]
    }

    /** Makes room in the buffer if it is full. */
    method MakeRoom()
      requires bufferLength <= buffer.Length == 2 * tailBytes
      requires |written| == flushes * tailBytes && (flushes > 0 ==> bufferLength >= tailBytes)
      modifies this`written, this`bufferLength, this`copied, this`flushes, buffer
      ensures bufferLength == if old(bufferLength) == buffer.Length then tailBytes else old(bufferLength)
      ensures flushes > 0 ==> bufferLength >= tailBytes
      ensures Contents() == old(Contents()) && |written| == flushes * tailBytes
      ensures copied == old(copied) + 2 * (|written| - |old(written)|)
    {
      if bufferLength == buffer.Length {
        ghost var held := buffer[..];
        assert buffer[..bufferLength] == held && held == held[..tailBytes] + held[tailBytes..];
        assert (flushes + 1) * tailBytes == flushes * tailBytes + tailBytes;
        Flush();
        flushes := flushes + 1;
      }
    }

    /** One turn of the append loop, whatever the tail: how much of the chunk it takes. */
    method AppendTurn(chunk: Bytes, offset: nat, ghost before: Bytes) returns (take: int)
      requires offset < |chunk| && bufferLength <= buffer.Length == 2 * tailBytes
      requires Contents() == before + chunk[..offset]
      requires |written| == flushes * tailBytes && (flushes > 0 ==> bufferLength >= tailBytes)
      modifies this`written, this`bufferLength, this`copied, this`flushes, buffer
      ensures take == TakeOf(old(bufferLength), tailBytes, |chunk| - offset) && 0 <= take <= |chunk| - offset
      ensures bufferLength <= buffer.Length && Contents() == before + chunk[..offset + take]
      ensures |written| == flushes * tailBytes && (flushes > 0 ==> bufferLength >= tailBytes + take)
      ensures copied == old(copied) + take + 2 * (|written| - |old(written)|)
    {
      MakeRoom();
      take := Min(buffer.Length - bufferLength, |chunk| - offset);
      ghost var piece := chunk[offset..offset + take];
      ghost var front := buffer[..bufferLength];
      Put(chunk[offset..offset + take]);
      Grown(written, front, piece, before, chunk[..offset]);
      assert chunk[..offset] + piece == chunk[..offset + take];
    }

    /** What has been written after an append depends only on how much has been appended in all;
        and appends copy at most three bytes for each byte of input. */
    method Append(chunk: Bytes)
      requires Valid()
      modifies this, buffer
      ensures Valid() && input == old(input) + chunk
      ensures bufferLength == FixedTail(|input|, tailBytes)
      ensures written == WrittenBy(input, FixedTail(|input|, tailBytes))
      ensures copied <= 3 * |input|
    {
      hashed := hashed + chunk;
      ghost var before := input;
      var offset := 0;
      while offset < |chunk|
        modifies this`written, this`bufferLength, this`copied, this`flushes, buffer
        invariant 0 <= offset <= |chunk| && bufferLength <= buffer.Length
        invariant Contents() == before + chunk[..offset]
        invariant |written| == flushes * tailBytes && (flushes > 0 ==> bufferLength > tailBytes)
        invariant copied == |before| + offset + 2 * |written|
      {
        var take := AppendTurn(chunk, offset, before);
        offset := offset + take;
      }
      input := before + chunk;
      assert chunk[..|chunk|] == chunk;
      HeldIs(|input|, flushes, bufferLength, tailBytes);
    }

    method Finalize(expectedSha1: Option<string>, expectedSize: nat, receivedBytes: nat) returns (code: Code)
      requires Valid()
      modifies this
      ensures code == Verdict(digest, input, expectedSha1, expectedSize, receivedBytes) && input == old(input)
      ensures if code.Ok() then written == input && writer == Finished
              else written == old(written) && writer == Aborted(code)
    {
      var sha1 := NormalizeExpectedSha1(expectedSha1);
      var computed := if sha1.Some? then Some(digest(hashed)) else None;
      if receivedBytes != expectedSize {
        writer := Aborted(SizeMismatch);
        return SizeMismatch;
      }
      if sha1.Some? && computed != sha1 {
        writer := Aborted(ChecksumMismatch);
        return ChecksumMismatch;
      }
      if bufferLength > 0 {
        written := written + buffer[..bufferLength];
      }
      writer := Finished;
      return if sha1.Some? then Intact else Plain;
    }
  }

  // ----- the blob sink

  /** Copies the chunks one after the other into one array. */
  method CombineChunks(chunks: seq<Bytes>) returns (combined: array<byte>)
    ensures fresh(combined) && combined[..] == Concat(chunks)
  {
    var total := 0;
    for i := 0 to |chunks|
      invariant total == |Concat(chunks[..i])|
    {
      assert chunks[..i + 1] == chunks[..i] + [chunks[i]];
      ConcatSnoc(chunks[..i], chunks[i]);
      total := total + |chunks[i]|;
    }
    assert chunks[..|chunks|] == chunks;
    combined := new byte[total](i => 0);
    var offset := 0;
    for i := 0 to |chunks|
      invariant offset == |Concat(chunks[..i])| <= total
      invariant combined[..offset] == Concat(chunks[..i])
    {
      assert chunks[..i + 1] == chunks[..i] + [chunks[i]];
      assert chunks == chunks[..i + 1] + chunks[i + 1..];
      ConcatSnoc(chunks[..i], chunks[i]);
      ConcatAppend(chunks[..i + 1], chunks[i + 1..]);
      ghost var front := combined[..offset];
      for j := 0 to |chunks[i]|
        invariant combined[..offset] == front && combined[offset..offset + j] == chunks[i][..j]
      {
        combined[offset + j] := chunks[i][j];
      }
      assert combined[..offset + |chunks[i]|] == front + chunks[i];
      offset := offset + |chunks[i]|;
    }
  }

  class BlobSink {
    const digest: Bytes -> string
    var chunks: seq<Bytes>
    var saved: Option<Bytes>

    constructor (digest: Bytes -> string)
      ensures this.digest == digest && chunks == [] && saved == None
    {
      this.digest, chunks, saved := digest, [], None;
    }

    method Append(bytes: Bytes)
      modifies this
      ensures Concat(chunks) == old(Concat(chunks)) + bytes && saved == old(saved)
    {
      ConcatSnoc(chunks, bytes);
      chunks := chunks + [bytes];
    }

    /** The same verdict; on success, and only then, the whole input is saved. */
    method Finalize(expectedSha1: Option<string>, expectedSize: nat, receivedBytes: nat) returns (code: Code)
      requires saved == None
      modifies this
      ensures code == Verdict(digest, Concat(chunks), expectedSha1, expectedSize, receivedBytes) && chunks == old(chunks)
      ensures saved == if code.Ok() then Some(Concat(chunks)) else None
    {
      var sha1 := NormalizeExpectedSha1(expectedSha1);
      var combined := CombineChunks(chunks);
      if receivedBytes != expectedSize { return SizeMismatch; }
      if sha1.Some? && digest(combined[..]) != sha1.value { return ChecksumMismatch; }
      saved := Some(combined[..]);
      return if sha1.Some? then Intact else Plain;
    }
  }
}
