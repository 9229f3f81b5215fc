/** The sealed-token blob: three parts, each behind a four-byte big-endian length. */
module Envelope {
  import opened Wrappers
  import opened Octets

  type Bytes = seq<Byte>

  datatype Envelope = Envelope(wrappedDek: Bytes, nonce: Bytes, ciphertext: Bytes)

  const LIMIT: nat := 0x1_0000_0000

  function Pack(n: nat): Bytes
    requires n < LIMIT
  {
    [n / 0x100_0000, n / 0x1_0000 % 0x100, n / 0x100 % 0x100, n % 0x100]
  }

  function Unpack(h: Bytes): nat
    requires |h| == 4
  {
    h[0] as int * 0x100_0000 + h[1] as int * 0x1_0000 + h[2] as int * 0x100 + h[3] as int
  }

  /** The first header byte is the most significant. */
  lemma HeaderIsBigEndian(n: nat)
    requires n < LIMIT
    ensures LIMIT == 256 * 256 * 256 * 256 && |Pack(n)| == 4
    ensures var h := Pack(n);
            h[0] as int * (256 * 256 * 256) + h[1] as int * (256 * 256) + h[2] as int * 256 + h[3] as int == n
  {
  }

  function Print(parts: seq<Bytes>): Option<Bytes> {
    if parts == [] then Some([])
    else if |parts[0]| >= LIMIT then None
    else
      var rest := Print(parts[1..]);
      if rest.None? then None else Some(Pack(|parts[0]|) + parts[0] + rest.value)
  }

  /** None where struct.pack raises. */
  function ToBlob(e: Envelope): Option<Bytes> {
    Print([e.wrappedDek, e.nonce, e.ciphertext])
  }

  /** blob[i:i+n], which stops at the end of the blob. */
  function Slice(blob: Bytes, i: nat, n: nat): Bytes {
    if i >= |blob| then [] else if i + n >= |blob| then blob[i..] else blob[i..i + n]
  }

  /** The next k parts from index i, and the index after them; None where struct.unpack raises. */
  function Parse(blob: Bytes, i: nat, k: nat): Option<(seq<Bytes>, nat)>
    decreases k
  {
    if k == 0 then Some(([], i))
    else
      var header := Slice(blob, i, 4);
      if |header| != 4 then None
      else
        var n := Unpack(header);
        var rest := Parse(blob, i + 4 + n, k - 1);
        if rest.None? then None
        else Some(([Slice(blob, i + 4, n)] + rest.value.0, rest.value.1))
  }

  lemma {:induction false} ParseCount(blob: Bytes, i: nat, k: nat)
    ensures Parse(blob, i, k).Some? ==> |Parse(blob, i, k).value.0| == k && i <= Parse(blob, i, k).value.1
    decreases k
  {
    if k > 0 && |Slice(blob, i, 4)| == 4 {
      ParseCount(blob, i + 4 + Unpack(Slice(blob, i, 4)), k - 1);
    }
  }

  function Decoded(blob: Bytes): Option<Envelope> {
    var p := Parse(blob, 0, 3);
    if p.Some? && |p.value.0| == 3 then Some(Envelope(p.value.0[0], p.value.0[1], p.value.0[2])) else None
  }

  /** The loop's view: parts already out, k more to read from i. */
  function ReadOn(blob: Bytes, out: seq<Bytes>, i: nat, k: nat): Option<seq<Bytes>>
    decreases k
  {
    if k == 0 then Some(out)
    else
      var header := Slice(blob, i, 4);
      if |header| != 4 then None
      else
        var n := Unpack(header);
        ReadOn(blob, out + [Slice(blob, i + 4, n)], i + 4 + n, k - 1)
  }

  lemma {:induction false} ReadOnIsParse(blob: Bytes, out: seq<Bytes>, i: nat, k: nat)
    ensures var p := Parse(blob, i, k);
            ReadOn(blob, out, i, k) == if p.Some? then Some(out + p.value.0) else None
    decreases k
  {
    if k == 0 {
      assert out + [] == out;
    } else if |Slice(blob, i, 4)| == 4 {
      var n := Unpack(Slice(blob, i, 4));
      var part := Slice(blob, i + 4, n);
      ReadOnIsParse(blob, out + [part], i + 4 + n, k - 1);
      var p := Parse(blob, i + 4 + n, k - 1);
      if p.Some? { assert out + ([part] + p.value.0) == (out + [part]) + p.value.0; }
    }
  }

  method FromBlob(blob: Bytes) returns (e: Option<Envelope>)
    ensures e == Decoded(blob)
  {
    ReadOnIsParse(blob, [], 0, 3);
    ParseCount(blob, 0, 3);
    var out: seq<Bytes>, i := [], 0;
    for k := 0 to 3
      invariant |out| == k && ReadOn(blob, out, i, 3 - k) == ReadOn(blob, [], 0, 3)
    {
      var header := Slice(blob, i, 4);
      if |header| != 4 {
        return None;
      }
      var n := Unpack(header);
      i := i + 4;
      out := out + [Slice(blob, i, n)];
      i := i + n;
    }
    e := Some(Envelope(out[0], out[1], out[2]));
  }

  // ----- printing and parsing -----

  lemma UnpackPack(n: nat)
    requires n < LIMIT
    ensures |Pack(n)| == 4 && Unpack(Pack(n)) == n
  {
  }

  lemma PackUnpack(h: Bytes)
    requires |h| == 4
    ensures Unpack(h) < LIMIT && Pack(Unpack(h)) == h
  {
    var n := Unpack(h);
    assert n / 0x100_0000 == h[0];
    assert n / 0x1_0000 == h[0] as int * 0x100 + h[1] as int;
    assert n / 0x100 == h[0] as int * 0x1_0000 + h[1] as int * 0x100 + h[2] as int;
  }

  /** These bytes stand in the blob at index i. */
  predicate Stands(blob: Bytes, i: nat, p: Bytes) {
    i + |p| <= |blob| && blob[i..i + |p|] == p
  }

  lemma StandsSplit(blob: Bytes, i: nat, a: Bytes, b: Bytes)
    requires Stands(blob, i, a + b)
    ensures Stands(blob, i, a) && Stands(blob, i + |a|, b)
  {
    assert blob[i..i + |a|] == (a + b)[..|a|];
    assert blob[i + |a|..i + |a| + |b|] == (a + b)[|a|..];
  }

  lemma SliceStands(blob: Bytes, i: nat, p: Bytes)
    requires Stands(blob, i, p)
    ensures Slice(blob, i, |p|) == p
  {
  }

  lemma ParseOne(blob: Bytes, i: nat, parts: seq<Bytes>, end: nat)
    requires parts != [] && |Slice(blob, i, 4)| == 4 && Unpack(Slice(blob, i, 4)) == |parts[0]|
    requires Slice(blob, i + 4, |parts[0]|) == parts[0]
    requires Parse(blob, i + 4 + |parts[0]|, |parts| - 1) == Some((parts[1..], end))
    ensures Parse(blob, i, |parts|) == Some((parts, end))
  {
    hide Slice, Unpack;
    assert parts == [parts[0]] + parts[1..];
  }

  lemma PrintCons(parts: seq<Bytes>) returns (header: Bytes, rest: Bytes)
    requires parts != [] && Print(parts).Some?
    ensures |header| == 4 && Unpack(header) == |parts[0]|
    ensures Print(parts[1..]) == Some(rest) && Print(parts) == Some(header + parts[0] + rest)
  {
    header, rest := Pack(|parts[0]|), Print(parts[1..]).value;
    UnpackPack(|parts[0]|);
  }

  lemma {:induction false} ParsePrinted(blob: Bytes, i: nat, parts: seq<Bytes>)
    requires Print(parts).Some? && Stands(blob, i, Print(parts).value)
    ensures Parse(blob, i, |parts|) == Some((parts, i + |Print(parts).value|))
    decreases |parts|
  {
    if parts != [] {
      var header, rest := PrintCons(parts);
      hide Slice, Unpack, Pack, Parse, Print, Stands;
      StandsSplit(blob, i, header + parts[0], rest);
      StandsSplit(blob, i, header, parts[0]);
      SliceStands(blob, i, header);
      SliceStands(blob, i + 4, parts[0]);
      ParsePrinted(blob, i + 4 + |parts[0]|, parts[1..]);
      ParseOne(blob, i, parts, i + 4 + |parts[0]| + |rest|);
    }
  }

  lemma {:induction false} PrintsWhenShort(parts: seq<Bytes>)
    ensures Print(parts).Some? <==> forall i :: 0 <= i < |parts| ==> |parts[i]| < LIMIT
  {
    if parts != [] {
      PrintsWhenShort(parts[1..]);
      assert forall i :: 1 <= i < |parts| ==> parts[i] == parts[1..][i - 1];
    }
  }

  /** Parsing undoes printing, whatever follows the blob, for all parts that fit their length field. */
  lemma RoundTrip(e: Envelope, after: Bytes)
    ensures ToBlob(e).Some? <==> |e.wrappedDek| < LIMIT && |e.nonce| < LIMIT && |e.ciphertext| < LIMIT
    ensures ToBlob(e).Some? ==> Decoded(ToBlob(e).value + after) == Some(e)
  {
    var parts := [e.wrappedDek, e.nonce, e.ciphertext];
    PrintsWhenShort(parts);
    assert parts[0] == e.wrappedDek && parts[1] == e.nonce && parts[2] == e.ciphertext;
    if ToBlob(e).Some? {
      var blob := ToBlob(e).value + after;
      assert Stands(blob, 0, ToBlob(e).value);
      ParsePrinted(blob, 0, parts);
    }
  }

  lemma PrintInjective(a: Envelope, b: Envelope)
    requires ToBlob(a).Some? && ToBlob(a) == ToBlob(b)
    ensures a == b
  {
    RoundTrip(a, []);
    RoundTrip(b, []);
  }

  /** The index one past what the parser consumed. */
  function Consumed(blob: Bytes): nat {
    var p := Parse(blob, 0, 3);
    if p.Some? then p.value.1 else 0
  }

  /** One parsed part, in bounds, prints back to the bytes it came from. */
  lemma ReprintOne(blob: Bytes, i: nat, j: nat, n: nat, rest: seq<Bytes>)
    requires i + 4 + n <= j <= |blob| && n < LIMIT && Slice(blob, i, 4) == Pack(n)
    requires Print(rest) == Some(blob[i + 4 + n..j])
    ensures Print([Slice(blob, i + 4, n)] + rest) == Some(blob[i..j])
  {
    var parts := [Slice(blob, i + 4, n)] + rest;
    assert parts[1..] == rest && |parts[0]| == n;
    assert blob[i..j] == Pack(n) + parts[0] + blob[i + 4 + n..j];
  }

  lemma {:induction false} Reprint(blob: Bytes, i: nat, k: nat)
    requires i <= |blob| && Parse(blob, i, k).Some? && Parse(blob, i, k).value.1 <= |blob|
    ensures var (parts, j) := Parse(blob, i, k).value;
            i <= j && Print(parts) == Some(blob[i..j])
    decreases k
  {
    if k > 0 {
      var n := Unpack(Slice(blob, i, 4));
      PackUnpack(Slice(blob, i, 4));
      ParseCount(blob, i + 4 + n, k - 1);
      var (rest, j) := Parse(blob, i + 4 + n, k - 1).value;
      Reprint(blob, i + 4 + n, k - 1);
      ReprintOne(blob, i, j, n, rest);
    } else {
      assert blob[i..i] == [];
    }
  }

  /** A part shorter than its length field says prints with another length field. */
  lemma ShortPartDiffers(blob: Bytes, i: nat, n: nat, rest: seq<Bytes>)
    requires i + 4 <= |blob| < i + 4 + n && n < LIMIT && Slice(blob, i, 4) == Pack(n)
    requires Print(rest).Some?
    ensures var printed := Print([Slice(blob, i + 4, n)] + rest);
            printed.Some? && !(printed.value <= blob[i..])
  {
    var parts := [Slice(blob, i + 4, n)] + rest;
    assert parts[1..] == rest && |parts[0]| < n;
    UnpackPack(n);
    UnpackPack(|parts[0]|);
    var printed := Print(parts).value;
    assert printed[..4] == Pack(|parts[0]|) && blob[i..][..4] == Pack(n);
  }

  lemma PrefixDrop<T>(a: seq<T>, b: seq<T>, n: nat)
    requires n <= |a| && n <= |b|
    ensures a <= b ==> a[n..] <= b[n..]
  {
  }

  lemma LaterDifference(blob: Bytes, i: nat, n: nat, rest: seq<Bytes>)
    requires i + 4 + n <= |blob| && n < LIMIT && Slice(blob, i, 4) == Pack(n)
    requires Print(rest).Some? && !(Print(rest).value <= blob[i + 4 + n..])
    ensures var printed := Print([Slice(blob, i + 4, n)] + rest);
            printed.Some? && !(printed.value <= blob[i..])
  {
    var parts := [Slice(blob, i + 4, n)] + rest;
    assert parts[1..] == rest && |parts[0]| == n;
    var printed, tail := Print(parts).value, Print(rest).value;
    assert printed == Pack(n) + parts[0] + tail;
    assert printed[4 + n..] == tail && blob[i..][4 + n..] == blob[i + 4 + n..];
    PrefixDrop(printed, blob[i..], 4 + n);
  }

  lemma NothingPastEnd(blob: Bytes, i: nat, k: nat)
    requires i > |blob| && Parse(blob, i, k).Some?
    ensures k == 0
  {
    assert |Slice(blob, i, 4)| == 0;
  }

  /** A cut-off part is always the last one, and printing it again changes its length field. */
  lemma {:induction false} CutOffDiffers(blob: Bytes, i: nat, k: nat)
    requires i <= |blob| && Parse(blob, i, k).Some? && Parse(blob, i, k).value.1 > |blob|
    ensures Print(Parse(blob, i, k).value.0).Some?
    ensures !(Print(Parse(blob, i, k).value.0).value <= blob[i..])
    decreases k
  {
    assert Print([]) == Some([]);
    hide Unpack, Pack, Print;
    var n := Unpack(Slice(blob, i, 4));
    PackUnpack(Slice(blob, i, 4));
    var rest := Parse(blob, i + 4 + n, k - 1).value.0;
    if i + 4 + n <= |blob| {
      CutOffDiffers(blob, i + 4 + n, k - 1);
      LaterDifference(blob, i, n, rest);
    } else {
      NothingPastEnd(blob, i + 4 + n, k - 1);
      ShortPartDiffers(blob, i, n, rest);
    }
  }

  /**
   Printing a parsed blob again gives back the bytes consumed exactly when the parse stayed
   inside the blob; past the end, the slice has silently shortened the last part.
   */
  lemma ReprintExactlyInBounds(blob: Bytes)
    requires Decoded(blob).Some?
    ensures ToBlob(Decoded(blob).value).Some?
    ensures ToBlob(Decoded(blob).value).value <= blob <==> Consumed(blob) <= |blob|
    ensures Consumed(blob) <= |blob| ==> ToBlob(Decoded(blob).value).value == blob[..Consumed(blob)]
  {
    var parts := Parse(blob, 0, 3).value.0;
    var e := Decoded(blob).value;
    assert parts == [e.wrappedDek, e.nonce, e.ciphertext];
    assert blob[0..] == blob;
    if Consumed(blob) <= |blob| {
      Reprint(blob, 0, 3);
    } else {
      CutOffDiffers(blob, 0, 3);
    }
  }
}
