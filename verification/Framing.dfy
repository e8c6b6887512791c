/**
 Length framing of hashed streams, and what two of them determine: a dependency tree
 (scripts/greater-realm-production-immutable-artifact.ts) and a package manifest
 (scripts/generate-local-binding-yaml-manifest.py). A byte is a character below 256; text
 stands for its UTF-8 bytes, which determine it.
 */
module Framing {
  import opened Wrappers

  type Bytes = string

  datatype Field = Field(tag: Bytes, value: Bytes)

  // --------------------------------------------------------------- eight-byte lengths

  function Power(k: nat): nat {
    if k == 0 then 1 else 256 * Power(k - 1)
  }

  /** `n` in `k` bytes, most significant first, modulo 256^k. */
  function BigEndian(n: nat, k: nat): (bytes: Bytes)
    ensures |bytes| == k
  {
    if k == 0 then "" else BigEndian(n / 256, k - 1) + [(n % 256) as char]
  }

  function FromBigEndian(bytes: Bytes): nat {
    if bytes == "" then 0 else 256 * FromBigEndian(bytes[..|bytes| - 1]) + bytes[|bytes| - 1] as nat
  }

  lemma {:induction false} BigEndianReads(n: nat, k: nat)
    requires n < Power(k)
    ensures FromBigEndian(BigEndian(n, k)) == n
  {
    if k > 0 {
      BigEndianReads(n / 256, k - 1);
      assert BigEndian(n, k)[..k - 1] == BigEndian(n / 256, k - 1);
    }
  }

  const MAX_LENGTH: nat := 0x1_0000_0000_0000_0000

  lemma PowerIsMax()
    ensures Power(8) == MAX_LENGTH
  {
    assert Power(4) == 0x1_0000_0000;
  }

  // -------------------------------------------------------------------------- streams

  function Framed(data: Bytes): Bytes {
    BigEndian(|data|, 8) + data
  }

  function Frame(field: Field): Bytes {
    Framed(field.tag) + Framed(field.value)
  }

  function Stream(fields: seq<Field>): Bytes {
    if fields == [] then "" else Frame(fields[0]) + Stream(fields[1..])
  }

  predicate Framable(fields: seq<Field>) {
    forall i | 0 <= i < |fields| :: |fields[i].tag| < MAX_LENGTH && |fields[i].value| < MAX_LENGTH
  }

  /** Reads one framed byte string off the front. */
  function Unframe(stream: Bytes): (read: Option<(Bytes, Bytes)>)
    ensures read.Some? ==> |read.value.1| + 8 <= |stream|
  {
    if |stream| < 8 then None else
    var length := FromBigEndian(stream[..8]);
    if |stream| < 8 + length then None else Some((stream[8..8 + length], stream[8 + length..]))
  }

  function Decode(stream: Bytes): Option<seq<Field>>
    decreases |stream|
  {
    if stream == "" then Some([]) else
    var tag := Unframe(stream);
    if tag.None? then None else
    var value := Unframe(tag.value.1);
    if value.None? then None else
    var rest := Decode(value.value.1);
    if rest.None? then None else Some([Field(tag.value.0, value.value.0)] + rest.value)
  }

  lemma UnframeReads(data: Bytes, rest: Bytes)
    requires |data| < MAX_LENGTH
    ensures Unframe(Framed(data) + rest) == Some((data, rest))
  {
    PowerIsMax();
    BigEndianReads(|data|, 8);
    var stream := Framed(data) + rest;
    assert stream[..8] == BigEndian(|data|, 8);
    assert stream[8..8 + |data|] == data && stream[8 + |data|..] == rest;
  }

  /** Decoding inverts framing, for every list of fields with lengths below 2^64. */
  lemma {:induction false} DecodeReads(fields: seq<Field>)
    requires Framable(fields)
    ensures Decode(Stream(fields)) == Some(fields)
  {
    if fields != [] {
      hide Stream, Framed, Unframe, Decode;
      var field, rest := fields[0], fields[1..];
      DecodeReads(rest);
      UnframeReads(field.tag, Framed(field.value) + Stream(rest));
      UnframeReads(field.value, Stream(rest));
      StreamBegins(fields);
      DecodesOneMore(Stream(fields), field, Framed(field.value) + Stream(rest), Stream(rest), rest);
      assert fields == [field] + rest;
    }
  }

  lemma StreamBegins(fields: seq<Field>)
    requires fields != []
    ensures Stream(fields) == Framed(fields[0].tag) + (Framed(fields[0].value) + Stream(fields[1..])) && |Stream(fields)| >= 8
  {
  }

  lemma DecodesOneMore(stream: Bytes, field: Field, middle: Bytes, end: Bytes, rest: seq<Field>)
    requires stream != "" && Unframe(stream) == Some((field.tag, middle)) && Unframe(middle) == Some((field.value, end))
    requires Decode(end) == Some(rest)
    ensures Decode(stream) == Some([field] + rest)
  {
    hide Unframe;
  }

  /** So concatenated frames determine the fields. */
  lemma StreamInjective(xs: seq<Field>, ys: seq<Field>)
    requires Framable(xs) && Framable(ys) && Stream(xs) == Stream(ys)
    ensures xs == ys
  {
    DecodeReads(xs);
    DecodeReads(ys);
  }

  lemma {:induction false} StreamAppends(xs: seq<Field>, ys: seq<Field>)
    ensures Stream(xs + ys) == Stream(xs) + Stream(ys)
  {
    hide Frame;
    if xs == [] {
      assert xs + ys == ys;
    } else {
      StreamAppends(xs[1..], ys);
      assert (xs + ys)[1..] == xs[1..] + ys;
      Associates(Frame(xs[0]), Stream(xs[1..]), Stream(ys));
    }
  }

  lemma Associates(x: Bytes, y: Bytes, z: Bytes)
    ensures x + (y + z) == (x + y) + z
  {
  }

  /** At 2^64 the length wraps, and framing loses its promise. */
  lemma LengthsWrapAt(n: nat)
    ensures BigEndian(n + MAX_LENGTH, 8) == BigEndian(n, 8)
  {
    PowerIsMax();
    Wraps(n, 8);
  }

  lemma {:induction false} Wraps(n: nat, k: nat)
    ensures BigEndian(n + Power(k), k) == BigEndian(n, k)
  {
    if k > 0 {
      Wraps(n / 256, k - 1);
      assert (n + 256 * Power(k - 1)) / 256 == n / 256 + Power(k - 1);
      assert (n + 256 * Power(k - 1)) % 256 == n % 256;
    }
  }

  // ------------------------------------------------------------------------- numerals

  /** `toString(base)` for the bases in use. */
  function Numeral(n: nat, base: nat): (text: Bytes)
    requires 2 <= base <= 10
    ensures text != ""
  {
    if n < base then [(n + '0' as nat) as char] else Numeral(n / base, base) + [(n % base + '0' as nat) as char]
  }

  function NumeralValue(text: Bytes, base: nat): int
    requires 2 <= base <= 10
  {
    if text == "" then 0 else base * NumeralValue(text[..|text| - 1], base) + (text[|text| - 1] as int - '0' as int)
  }

  lemma Division(n: nat, base: nat)
    requires base > 0
    ensures n == base * (n / base) + n % base && n % base < base
  {
  }

  lemma {:induction false} NumeralReads(n: nat, base: nat)
    requires 2 <= base <= 10
    ensures NumeralValue(Numeral(n, base), base) == n
  {
    if n >= base {
      NumeralReads(n / base, base);
      var text := Numeral(n, base);
      assert text == Numeral(n / base, base) + [(n % base + '0' as nat) as char];
      assert text[..|text| - 1] == Numeral(n / base, base);
      Division(n, base);
    } else {
      assert Numeral(n, base)[..0] == "";
    }
  }

  lemma NumeralInjective(m: nat, n: nat, base: nat)
    requires 2 <= base <= 10 && Numeral(m, base) == Numeral(n, base)
    ensures m == n
  {
    NumeralReads(m, base);
    NumeralReads(n, base);
  }

  // ---------------------------------------------------------------------- hash objects

  /** A hash object, as far as its input: the digest is a function of `stream`. */
  class Hash {
    var stream: Bytes

    constructor ()
      ensures stream == ""
    {
      stream := "";
    }

    method Update(data: Bytes)
      modifies this
      ensures stream == old(stream) + data
    {
      stream := stream + data;
    }
  }

  /** `updateLengthFramed`, and `frame` of the manifest generator. */
  method UpdateLengthFramed(digest: Hash, tag: Bytes, value: Bytes)
    modifies digest
    ensures digest.stream == old(digest.stream) + Frame(Field(tag, value))
  {
    digest.Update(BigEndian(|tag|, 8));
    digest.Update(tag);
    digest.Update(BigEndian(|value|, 8));
    digest.Update(value);
  }

  /** Frames a few fields, one after the other. */
  method UpdateFields(digest: Hash, fields: seq<Field>)
    modifies digest
    ensures digest.stream == old(digest.stream) + Stream(fields)
  {
    for i := 0 to |fields|
      invariant digest.stream == old(digest.stream) + Stream(fields[..i])
    {
      assert fields[..i + 1] == fields[..i] + [fields[i]];
      StreamAppends(fields[..i], [fields[i]]);
      StreamOfOne(fields[i]);
      UpdateLengthFramed(digest, fields[i].tag, fields[i].value);
      Associates(old(digest.stream), Stream(fields[..i]), Frame(fields[i]));
    }
    assert fields[..|fields|] == fields;
  }

  lemma StreamOfOne(field: Field)
    ensures Stream([field]) == Frame(field)
  {
  }
}
