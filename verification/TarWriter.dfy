/** A model encoder of the archives the reader accepts, and the round trip. */
module TarWriter {
  import opened Wrappers
  import opened TarReader

  /** A member to write; `prefix` and `name` are the two halves of the ustar path. */
  datatype Source = Source(prefix: string, name: string, kind: Kind, mode: nat, body: Bytes)

  ghost predicate AsciiText(text: string) {
    forall i | 0 <= i < |text| :: 1 <= text[i] as nat < 128
  }

  ghost function Codes(text: string): Bytes
    requires AsciiText(text)
  {
    seq(|text|, i requires 0 <= i < |text| => text[i] as nat)
  }

  /** The decoder reads ASCII as itself. */
  ghost predicate DecodesAscii(utf8: Decoder) {
    forall text | AsciiText(text) :: utf8(Codes(text)) == Some(text)
  }

  ghost function Zeros(n: nat): (zeros: Bytes)
    ensures |zeros| == n && AllZero(zeros)
  {
    seq(n, _ => 0)
  }

  // ------------------------------------------------------------------------- number fields

  ghost function OctalText(n: nat, digits: nat): (text: string)
    ensures |text| == digits && (forall i | 0 <= i < |text| :: '0' <= text[i] <= '7') && AsciiText(text)
  {
    if digits == 0 then "" else OctalText(n / 8, digits - 1) + [(n % 8 + '0' as nat) as char]
  }

  ghost function Power8(k: nat): nat {
    if k == 0 then 1 else 8 * Power8(k - 1)
  }

  lemma {:induction false} OctalReads(n: nat, digits: nat)
    requires n < Power8(digits)
    ensures OctalValue(OctalText(n, digits)) == n
  {
    if digits > 0 {
      OctalReads(n / 8, digits - 1);
      assert OctalText(n, digits)[..digits - 1] == OctalText(n / 8, digits - 1);
    }
  }

  ghost function NumberField(n: nat, width: nat): (field: Bytes)
    requires width > 0
    ensures |field| == width
  {
    Codes(OctalText(n, width - 1)) + [0]
  }

  lemma AsciiOfCodes(text: string)
    requires AsciiText(text)
    ensures Ascii(Codes(text) + [0]) == text + ['\0']
  {
  }

  lemma DigitsSurviveTrimming(text: string)
    requires OctalDigits(text)
    ensures TrimStart(DropTrailing(text + ['\0'])) == text
  {
    assert (text + ['\0'])[..|text|] == text;
    assert DropTrailing(text + ['\0']) == DropTrailing(text);
  }

  lemma NumberFieldReads(n: nat, width: nat, maximum: nat)
    requires width > 1 && n < Power8(width - 1) && n <= maximum && n <= MAX_SAFE_INTEGER
    ensures TarOctal(NumberField(n, width), maximum) == Some(n)
  {
    var text := OctalText(n, width - 1);
    AsciiOfCodes(text);
    DigitsSurviveTrimming(text);
    OctalReads(n, width - 1);
  }

  // --------------------------------------------------------------------------- text fields

  ghost function TextField(text: string, width: nat): (field: Bytes)
    requires AsciiText(text) && |text| <= width
    ensures |field| == width
  {
    Codes(text) + Zeros(width - |text|)
  }

  lemma {:induction false} FirstZeroIs(field: Bytes, n: nat)
    requires n <= |field| && (forall i | 0 <= i < n :: field[i] != 0) && (n < |field| ==> field[n] == 0)
    ensures FirstZero(field) == n
  {
    if n > 0 {
      FirstZeroIs(field[1..], n - 1);
    }
  }

  lemma TextFieldReads(text: string, width: nat, utf8: Decoder)
    requires AsciiText(text) && |text| <= width && DecodesAscii(utf8)
    ensures TarString(TextField(text, width), utf8) == Some(text)
  {
    var field := TextField(text, width);
    FirstZeroIs(field, |text|);
    assert field[..|text|] == Codes(text) && field[|text|..] == Zeros(width - |text|);
  }

  // -------------------------------------------------------------------------------- header

  ghost function Raw(s: Source): string {
    if s.prefix == "" then s.name else s.prefix + "/" + s.name
  }

  ghost predicate Writable(s: Source) {
    && AsciiText(s.prefix) && |s.prefix| <= 155 && AsciiText(s.name) && |s.name| <= 100
    && SafeName(Normalized(Raw(s)), s.kind)
    && s.mode <= 4095 && !SpecialBits(s.mode)
    && |s.body| <= MAX_BYTES && (s.kind.Directory? ==> s.body == [])
  }

  /** The first 148 bytes: name and mode, then two ids, size and time. */
  ghost function HeadBytes(s: Source): (bytes: Bytes)
    requires Writable(s)
    ensures |bytes| == 148
  {
    (TextField(s.name, 100) + NumberField(s.mode, 8)) + (Zeros(16) + NumberField(|s.body|, 12) + Zeros(12))
  }

  /** The next 109 after the checksum: type, link name, magic, version. */
  ghost function TypeBytes(s: Source): (bytes: Bytes)
    ensures |bytes| == 109
  {
    [if s.kind.File? then 0x30 else 0x35] + Zeros(100) + (TextField("ustar", 6) + TextField("00", 2))
  }

  /** The last 247: owner and device, prefix, padding. */
  ghost function PrefixBytes(s: Source): (bytes: Bytes)
    requires Writable(s)
    ensures |bytes| == 247
  {
    Zeros(80) + TextField(s.prefix, 155) + Zeros(12)
  }

  ghost function TailBytes(s: Source): (bytes: Bytes)
    requires Writable(s)
    ensures |bytes| == 356
  {
    TypeBytes(s) + PrefixBytes(s)
  }

  ghost function HeaderBytes(s: Source): (bytes: Bytes)
    requires Writable(s)
    ensures |bytes| == BLOCK
  {
    HeadBytes(s) + NumberField(Total(HeadBytes(s)) + 256 + Total(TailBytes(s)), 8) + TailBytes(s)
  }

  lemma Middle(w: Bytes, x: Bytes, y: Bytes, z: Bytes)
    requires w == x + y + z
    ensures w[|x|..|x| + |y|] == y
  {
  }

  lemma {:induction false} TotalBound(bytes: Bytes)
    ensures Total(bytes) <= 255 * |bytes|
  {
    if bytes != [] {
      TotalBound(bytes[..|bytes| - 1]);
    }
  }

  lemma Halves(w: Bytes, x: Bytes, y: Bytes)
    requires w == x + y
    ensures w[..|x|] == x && w[|x|..] == y
  {
  }

  lemma HeadFields(s: Source)
    requires Writable(s)
    ensures var head := HeadBytes(s);
            head[0..100] == TextField(s.name, 100) && head[100..108] == NumberField(s.mode, 8)
            && head[124..136] == NumberField(|s.body|, 12)
  {
    hide TextField, NumberField, SafeName, Zeros;
    var front := TextField(s.name, 100) + NumberField(s.mode, 8);
    var back := Zeros(16) + NumberField(|s.body|, 12) + Zeros(12);
    var head := HeadBytes(s);
    Halves(head, front, back);
    Halves(front, TextField(s.name, 100), NumberField(s.mode, 8));
    assert head[0..100] == front[..100] && head[100..108] == front[100..];
    Middle(back, Zeros(16), NumberField(|s.body|, 12), Zeros(12));
    assert head[124..136] == back[16..28];
  }

  lemma TypeFields(s: Source)
    ensures var bytes := TypeBytes(s);
            bytes[0] == (if s.kind.File? then 0x30 else 0x35) && bytes[1..101] == Zeros(100)
            && bytes[101..107] == TextField("ustar", 6) && bytes[107..109] == TextField("00", 2)
  {
    hide TextField, Zeros;
    var bytes, magic, version := TypeBytes(s), TextField("ustar", 6), TextField("00", 2);
    Middle(bytes, [if s.kind.File? then 0x30 else 0x35], Zeros(100), magic + version);
    Halves(magic + version, magic, version);
    assert bytes[101..107] == (magic + version)[..6] && bytes[107..109] == (magic + version)[6..];
  }

  lemma TailFields(s: Source)
    requires Writable(s)
    ensures var tail := TailBytes(s);
            tail[0] == (if s.kind.File? then 0x30 else 0x35) && tail[1..101] == Zeros(100)
            && tail[101..107] == TextField("ustar", 6) && tail[107..109] == TextField("00", 2)
            && tail[189..344] == TextField(s.prefix, 155)
  {
    hide TextField, SafeName, Zeros, TypeBytes;
    var tail, front, back := TailBytes(s), TypeBytes(s), PrefixBytes(s);
    TypeFields(s);
    Halves(tail, front, back);
    assert tail[1..101] == front[1..101] && tail[101..107] == front[101..107] && tail[107..109] == front[107..109];
    Middle(back, Zeros(80), TextField(s.prefix, 155), Zeros(12));
    assert tail[189..344] == back[80..235];
  }

  /** Where the fields of head and tail sit in the whole header. */
  lemma HeaderFields(s: Source)
    requires Writable(s)
    ensures var header := HeaderBytes(s);
            && header[..148] == HeadBytes(s) && header[156..] == TailBytes(s)
            && header[148..156] == NumberField(Checksum(header), 8)
            && header[0..100] == TextField(s.name, 100) && header[100..108] == NumberField(s.mode, 8)
            && header[124..136] == NumberField(|s.body|, 12)
  {
    hide TextField, NumberField, SafeName, HeadBytes, TailBytes, Total;
    var header, head, tail := HeaderBytes(s), HeadBytes(s), TailBytes(s);
    var sum := NumberField(Total(head) + 256 + Total(tail), 8);
    assert header == head + sum + tail;
    assert header[..148] == head && header[148..156] == sum && header[156..] == tail;
    HeadFields(s);
    assert header[0..100] == head[0..100] && header[100..108] == head[100..108] && header[124..136] == head[124..136];
  }

  ghost predicate TailFieldsAt(s: Source, header: Bytes)
    requires AsciiText(s.prefix) && |s.prefix| <= 155
  {
    && |header| == BLOCK && header[156] == (if s.kind.File? then 0x30 else 0x35)
    && header[157..257] == Zeros(100) && header[257..263] == TextField("ustar", 6)
    && header[263..265] == TextField("00", 2) && header[345..500] == TextField(s.prefix, 155)
  }

  lemma HeaderTail(s: Source)
    requires Writable(s)
    ensures TailFieldsAt(s, HeaderBytes(s))
  {
    hide TextField, SafeName, TailBytes, Zeros, HeaderBytes;
    TailFields(s);
    HeaderEnds(s);
    var header, tail := HeaderBytes(s), TailBytes(s);
    InTail(header, tail, 1, 101);
    InTail(header, tail, 101, 107);
    InTail(header, tail, 107, 109);
    InTail(header, tail, 189, 344);
  }

  lemma HeaderEnds(s: Source)
    requires Writable(s)
    ensures |HeaderBytes(s)| == BLOCK && HeaderBytes(s)[156..] == TailBytes(s) && HeaderBytes(s)[156] == TailBytes(s)[0]
  {
    hide NumberField, SafeName, HeadBytes, TailBytes, Total;
  }

  /** A field of the tail, counted from the start of the header. */
  lemma InTail(header: Bytes, tail: Bytes, from: nat, to: nat)
    requires |header| == BLOCK && header[156..] == tail && from <= to <= |tail|
    ensures header[156 + from..156 + to] == tail[from..to]
  {
  }

  lemma ChecksumReads(s: Source)
    requires Writable(s)
    ensures TarOctal(HeaderBytes(s)[148..156], MAX_SAFE_INTEGER) == Some(Checksum(HeaderBytes(s)))
  {
    hide HeaderBytes, TarOctal, NumberField, SafeName;
    HeaderFields(s);
    TotalBound(HeaderBytes(s)[..148]);
    TotalBound(HeaderBytes(s)[156..]);
    assert Power8(7) == 2097152;
    NumberFieldReads(Checksum(HeaderBytes(s)), 8, MAX_SAFE_INTEGER);
  }

  lemma MagicReads(s: Source, utf8: Decoder)
    requires Writable(s) && DecodesAscii(utf8)
    ensures var header := HeaderBytes(s);
            && TarString(header[257..263], utf8) == Some("ustar") && TarString(header[263..265], utf8) == Some("00")
            && TarString(header[157..257], utf8) == Some("")
            && TarString(header[345..500], utf8) == Some(s.prefix) && TarString(header[0..100], utf8) == Some(s.name)
  {
    hide HeaderBytes, TarString, SafeName, DecodesAscii, HeadBytes, TailBytes, NumberField;
    HeaderFields(s);
    HeaderTail(s);
    TextFieldReads("ustar", 6, utf8);
    TextFieldReads("00", 2, utf8);
    TextFieldReads("", 100, utf8);
    assert TextField("", 100) == Zeros(100);
    TextFieldReads(s.prefix, 155, utf8);
    TextFieldReads(s.name, 100, utf8);
  }

  lemma NumbersRead(s: Source)
    requires Writable(s)
    ensures TarOctal(HeaderBytes(s)[124..136], MAX_BYTES) == Some(|s.body|)
    ensures TarOctal(HeaderBytes(s)[100..108], 4095) == Some(s.mode)
  {
    hide HeaderBytes, TarOctal, NumberField, SafeName, HeadBytes, TailBytes, TextField;
    HeaderFields(s);
    assert Power8(7) == 2097152;
    assert Power8(11) == 4096 * Power8(7);
    NumberFieldReads(|s.body|, 12, MAX_BYTES);
    NumberFieldReads(s.mode, 8, 4095);
  }

  ghost function ModeOf(s: Source): nat {
    if s.kind.Directory? || Executable(s.mode) then 448 else 384
  }

  /** Reading a written header gives back name, kind, mode class and size. */
  lemma HeaderReads(s: Source, utf8: Decoder)
    requires Writable(s) && DecodesAscii(utf8)
    ensures ParseHeader(HeaderBytes(s), utf8) == Some(Header(Normalized(Raw(s)), s.kind, ModeOf(s), |s.body|))
  {
    hide HeaderBytes, TarOctal, TarString, Checksum, SafeName, DecodesAscii, Executable, SpecialBits;
    ChecksumReads(s);
    MagicReads(s, utf8);
    NumbersRead(s);
    HeaderTail(s);
  }

  lemma HeaderIsNotZero(s: Source)
    requires Writable(s)
    ensures !AllZero(HeaderBytes(s))
  {
    hide HeaderBytes;
    HeaderTail(s);
  }

  // ------------------------------------------------------------------------------- archive

  ghost function MemberBytes(s: Source): (bytes: Bytes)
    requires Writable(s)
    ensures |bytes| == BLOCK + Padded(|s.body|)
  {
    PaddedCovers(|s.body|);
    HeaderBytes(s) + s.body + Zeros(Padded(|s.body|) - |s.body|)
  }

  lemma PaddedCovers(size: nat)
    ensures size <= Padded(size) && Padded(size) % 512 == 0
  {
  }

  ghost predicate AllWritable(sources: seq<Source>) {
    forall i | 0 <= i < |sources| :: Writable(sources[i])
  }

  ghost function ArchiveBytes(sources: seq<Source>): Bytes
    requires AllWritable(sources)
  {
    if sources == [] then Zeros(2 * BLOCK) else MemberBytes(sources[0]) + ArchiveBytes(sources[1..])
  }

  ghost function MemberOf(s: Source, offset: nat): Member {
    Member(Split(Normalized(Raw(s))), s.kind, ModeOf(s), offset + BLOCK, |s.body|)
  }

  ghost function MembersOf(sources: seq<Source>, offset: nat): seq<Member> {
    if sources == [] then [] else [MemberOf(sources[0], offset)] + MembersOf(sources[1..], End(MemberOf(sources[0], offset)))
  }

  ghost function NameOf(s: Source): string {
    Normalized(Raw(s))
  }

  ghost function BodySum(sources: seq<Source>): nat {
    if sources == [] then 0 else |sources[0].body| + BodySum(sources[1..])
  }

  /** Names that are new and each once, and room for all of it. */
  ghost predicate Fits(sources: seq<Source>, names: set<string>, count: nat, total: nat) {
    && AllWritable(sources)
    && (forall i | 0 <= i < |sources| :: NameOf(sources[i]) !in names)
    && (forall i, j | 0 <= i < j < |sources| :: NameOf(sources[i]) != NameOf(sources[j]))
    && count + |sources| <= MAX_ENTRIES && total + BodySum(sources) <= MAX_BYTES
  }

  lemma FitsRest(sources: seq<Source>, names: set<string>, count: nat, total: nat, more: nat)
    requires sources != [] && Fits(sources, names, count, total) && more <= 1
    ensures Fits(sources[1..], names + {NameOf(sources[0])}, count + more, total + |sources[0].body|)
    ensures count < MAX_ENTRIES && total + |sources[0].body| <= MAX_BYTES && NameOf(sources[0]) !in names
  {
    hide Writable, NameOf;
    var rest := sources[1..];
    forall i | 0 <= i < |rest| ensures Writable(rest[i]) && NameOf(rest[i]) !in names + {NameOf(sources[0])} {
      assert rest[i] == sources[i + 1];
    }
    forall i, j | 0 <= i < j < |rest| ensures NameOf(rest[i]) != NameOf(rest[j]) {
      assert rest[i] == sources[i + 1] && rest[j] == sources[j + 1];
    }
  }

  /** The reader finds a written member where it was put. */
  lemma MemberReads(b: Bytes, utf8: Decoder, s: Source, offset: nat, names: set<string>, total: nat)
    requires Writable(s) && DecodesAscii(utf8) && NameOf(s) !in names && total + |s.body| <= MAX_BYTES
    requires offset + BLOCK + Padded(|s.body|) <= |b| && b[offset..offset + BLOCK + Padded(|s.body|)] == MemberBytes(s)
    ensures !AllZero(b[offset..offset + BLOCK])
    ensures MemberAt(b, utf8, offset, names, total) == Some((MemberOf(s, offset), NameOf(s)))
  {
    hide HeaderBytes, ParseHeader, SafeName, Split, AllZero, Padded;
    var bytes, body, padding := MemberBytes(s), s.body, Zeros(Padded(|s.body|) - |s.body|);
    PaddedCovers(|s.body|);
    assert b[offset..offset + BLOCK] == bytes[..BLOCK] == HeaderBytes(s);
    HeaderReads(s, utf8);
    HeaderIsNotZero(s);
    var start := offset + BLOCK;
    assert b[start + |body|..start + Padded(|body|)] == bytes[BLOCK + |body|..] == padding;
  }

  lemma BlocksAdd(m: nat, n: nat)
    requires m % 512 == 0 && n % 512 == 0
    ensures (m + n) % 512 == 0
  {
  }

  lemma {:induction false} ArchiveLength(sources: seq<Source>)
    requires AllWritable(sources)
    ensures |ArchiveBytes(sources)| >= 2 * BLOCK && |ArchiveBytes(sources)| % 512 == 0
  {
    hide Writable, Padded, MemberBytes;
    if sources != [] {
      var rest := |ArchiveBytes(sources[1..])|;
      ArchiveLength(sources[1..]);
      PaddedCovers(|sources[0].body|);
      BlocksAdd(BLOCK + Padded(|sources[0].body|), rest);
    }
  }

  /** From any point on, the reader gives back the members still to come. */
  lemma {:induction false} ArchiveReadsFrom(b: Bytes, utf8: Decoder, sources: seq<Source>, offset: nat,
                                           names: set<string>, count: nat, total: nat)
    requires DecodesAscii(utf8) && Fits(sources, names, count, total)
    requires offset <= |b| && b[offset..] == ArchiveBytes(sources)
    ensures MembersFrom(b, utf8, offset, names, count, total) == Some(MembersOf(sources, offset))
    decreases |sources|
  {
    hide Writable, MemberAt, MemberOf, Padded, AllZero, DecodesAscii, MemberBytes, ArchiveBytes, MembersFrom, Fits, NameOf, End, CountWith;
    ArchiveLengthHere(sources, names, count, total);
    if sources == [] {
      ArchiveEnds();
      EmptyArchiveReads(b, utf8, offset, names, count, total);
    } else {
      var s, m := sources[0], MemberOf(sources[0], offset);
      WritableHere(sources, names, count, total);
      MemberSpan(s, offset, count);
      FitsRest(sources, names, count, total, CountWith(count, m) - count);
      ArchiveBegins(sources);
      SlicesOf(b, offset, MemberBytes(s), ArchiveBytes(sources[1..]));
      MemberReads(b, utf8, s, offset, names, total);
      ArchiveReadsFrom(b, utf8, sources[1..], End(m), names + {NameOf(s)}, CountWith(count, m), total + |s.body|);
      OneMemberMore(b, utf8, offset, names, count, total, m, NameOf(s));
    }
  }

  lemma ArchiveEnds()
    ensures AllWritable([]) && ArchiveBytes([]) == Zeros(2 * BLOCK)
  {
  }

  lemma ArchiveBegins(sources: seq<Source>)
    requires sources != [] && AllWritable(sources)
    ensures AllWritable(sources[1..]) && ArchiveBytes(sources) == MemberBytes(sources[0]) + ArchiveBytes(sources[1..])
  {
    hide Writable, MemberBytes;
  }

  lemma SlicesOf(b: Bytes, offset: nat, first: Bytes, rest: Bytes)
    requires offset <= |b| && b[offset..] == first + rest
    ensures offset + |first| <= |b| && b[offset..offset + |first|] == first && b[offset + |first|..] == rest
  {
    assert b[offset..offset + |first|] == b[offset..][..|first|] && b[offset + |first|..] == b[offset..][|first|..];
  }

  lemma MemberSpan(s: Source, offset: nat, count: nat)
    requires Writable(s)
    ensures var m := MemberOf(s, offset);
            && m.size == |s.body| && End(m) == offset + |MemberBytes(s)| && offset + BLOCK <= End(m)
            && |MemberBytes(s)| == BLOCK + Padded(|s.body|) && count <= CountWith(count, m) <= count + 1
  {
    hide Writable, Split, NameOf, HeaderBytes;
  }

  /** How the reader gets past one member. */
  lemma OneMemberMore(b: Bytes, utf8: Decoder, offset: nat, names: set<string>, count: nat, total: nat, m: Member, name: string)
    requires offset + BLOCK <= |b| && !AllZero(b[offset..offset + BLOCK]) && count < MAX_ENTRIES
    requires MemberAt(b, utf8, offset, names, total) == Some((m, name))
    ensures MembersFrom(b, utf8, offset, names, count, total)
         == (var rest := MembersFrom(b, utf8, End(m), names + {name}, CountWith(count, m), total + m.size);
             if rest.None? then None else Some([m] + rest.value))
  {
    hide AllZero, MemberAt, End, CountWith;
  }

  lemma WritableHere(sources: seq<Source>, names: set<string>, count: nat, total: nat)
    requires sources != [] && Fits(sources, names, count, total)
    ensures AllWritable(sources) && Writable(sources[0])
  {
  }

  lemma ArchiveLengthHere(sources: seq<Source>, names: set<string>, count: nat, total: nat)
    requires Fits(sources, names, count, total)
    ensures AllWritable(sources) && |ArchiveBytes(sources)| >= 2 * BLOCK
  {
    ArchiveLength(sources);
  }

  lemma EmptyArchiveReads(b: Bytes, utf8: Decoder, offset: nat, names: set<string>, count: nat, total: nat)
    requires offset <= |b| && b[offset..] == Zeros(2 * BLOCK)
    ensures MembersFrom(b, utf8, offset, names, count, total) == Some([])
  {
    assert b[offset..offset + BLOCK] == Zeros(2 * BLOCK)[..BLOCK];
  }

  /** Reading inverts writing: every entry, its class of mode, and where its body lies. */
  lemma ReaderInvertsWriter(sources: seq<Source>, utf8: Decoder)
    requires DecodesAscii(utf8) && Fits(sources, {}, 0, 0) && EntriesOf(MembersOf(sources, 0)) != []
    ensures ReadArchive(ArchiveBytes(sources), utf8)
         == Some(Archive(EntriesOf(MembersOf(sources, 0)), SizeSum(MembersOf(sources, 0))))
  {
    hide Fits, DecodesAscii, ArchiveBytes, MembersFrom, MembersOf, EntriesOf, SizeSum;
    ArchiveLengthIs(sources);
    var b := ArchiveBytes(sources);
    assert b[0..] == b;
    ArchiveReadsFrom(b, utf8, sources, 0, {}, 0, 0);
  }

  lemma ArchiveLengthIs(sources: seq<Source>)
    requires Fits(sources, {}, 0, 0)
    ensures AllWritable(sources) && |ArchiveBytes(sources)| >= 1024 && |ArchiveBytes(sources)| % 512 == 0
  {
    ArchiveLength(sources);
  }
}
