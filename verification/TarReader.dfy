/**
 The reader of npm archives: the accepted subset of the "ustar Interchange Format" section
 of the pax utility in IEEE Std 1003.1-2017
 (scripts/greater-realm-production-immutable-artifact.ts, parseSafeNpmTar).

 The buffer is the gunzipped archive. UTF-8 decoding is a parameter.
 */
module TarReader {
  import opened Wrappers

  type byte = n: nat | n < 256
  type Bytes = seq<byte>
  type Decoder = Bytes -> Option<string>

  const BLOCK: nat := 512
  const MAX_ENTRIES: nat := 20_000
  const MAX_BYTES: nat := 268_435_456
  const MAX_SAFE_INTEGER: nat := 9007199254740991

  datatype Kind = Directory | File

  datatype Member = Member(components: seq<string>, kind: Kind, mode: nat, offset: nat, size: nat)

  datatype Entry = Entry(path: string, kind: Kind, mode: nat, offset: nat, size: nat)

  datatype Archive = Archive(entries: seq<Entry>, fileBytes: nat)

  // ---------------------------------------------------------------------- header fields

  predicate AllZero(bytes: Bytes) {
    forall i | 0 <= i < |bytes| :: bytes[i] == 0
  }

  function FirstZero(field: Bytes): (n: nat)
    ensures n <= |field|
    ensures forall i | 0 <= i < n :: field[i] != 0
    ensures n < |field| ==> field[n] == 0
  {
    if field == [] || field[0] == 0 then 0 else 1 + FirstZero(field[1..])
  }

  /** `tarString` */
  function TarString(field: Bytes, utf8: Decoder): Option<string> {
    var zero := FirstZero(field);
    if AllZero(field[zero..]) then utf8(field[..zero]) else None
  }

  /** `toString('ascii')` drops the highest bit. */
  function Ascii(field: Bytes): string {
    seq(|field|, i requires 0 <= i < |field| => (field[i] % 128) as char)
  }

  function DropTrailing(text: string): string {
    if text != "" && text[|text| - 1] in {'\0', ' '} then DropTrailing(text[..|text| - 1]) else text
  }

  /** `trimStart`, on ASCII. */
  function TrimStart(text: string): string {
    if text != "" && (text[0] == ' ' || 9 <= text[0] as nat <= 13) then TrimStart(text[1..]) else text
  }

  predicate OctalDigits(text: string) {
    text != "" && forall i | 0 <= i < |text| :: '0' <= text[i] <= '7'
  }

  function OctalValue(text: string): nat
    requires forall i | 0 <= i < |text| :: '0' <= text[i] <= '7'
  {
    if text == "" then 0 else 8 * OctalValue(text[..|text| - 1]) + (text[|text| - 1] as nat - '0' as nat)
  }

  /** `tarOctal` */
  function TarOctal(field: Bytes, maximum: nat): (n: Option<nat>)
    ensures n.Some? ==> n.value <= maximum
  {
    var text := TrimStart(DropTrailing(Ascii(field)));
    if !OctalDigits(text) then None
    else if OctalValue(text) > MAX_SAFE_INTEGER || OctalValue(text) > maximum then None
    else Some(OctalValue(text))
  }

  // What an octal field is, byte by byte: the top bit is ignored, spaces may stand before the
  // digits, and spaces and zeros after them.

  ghost predicate SpaceByte(b: byte) { b == 0x20 || 9 <= b <= 13 || b == 0xa0 || 0x89 <= b <= 0x8d }
  ghost predicate DigitByte(b: byte) { 0x30 <= b <= 0x37 || 0xb0 <= b <= 0xb7 }
  ghost predicate PadByte(b: byte) { b == 0 || b == 0x20 || b == 0x80 || b == 0xa0 }

  ghost function DigitsValue(digits: Bytes): nat {
    if digits == [] then 0 else 8 * DigitsValue(digits[..|digits| - 1]) + digits[|digits| - 1] % 8
  }

  ghost predicate OctalField(lead: Bytes, digits: Bytes, pad: Bytes) {
    && (forall i | 0 <= i < |lead| :: SpaceByte(lead[i]))
    && digits != [] && (forall i | 0 <= i < |digits| :: DigitByte(digits[i]))
    && (forall i | 0 <= i < |pad| :: PadByte(pad[i]))
  }

  lemma {:induction false} DropsPad(text: Bytes, pad: Bytes)
    requires text != [] && !PadByte(text[|text| - 1]) && forall i | 0 <= i < |pad| :: PadByte(pad[i])
    ensures DropTrailing(Ascii(text + pad)) == Ascii(text)
  {
    if pad == [] {
      assert text + pad == text;
    } else {
      var n := |text + pad| - 1;
      assert Ascii(text + pad)[..n] == Ascii((text + pad)[..n]) && (text + pad)[..n] == text + pad[..|pad| - 1];
      assert PadByte(pad[|pad| - 1]) && (text + pad)[n] == pad[|pad| - 1];
      DropsPad(text, pad[..|pad| - 1]);
    }
  }

  lemma {:induction false} TrimsLead(lead: Bytes, text: Bytes)
    requires text != [] && !SpaceByte(text[0]) && forall i | 0 <= i < |lead| :: SpaceByte(lead[i])
    ensures TrimStart(Ascii(lead + text)) == Ascii(text)
  {
    if lead == [] {
      assert lead + text == text;
    } else {
      assert Ascii(lead + text)[1..] == Ascii((lead + text)[1..]) && (lead + text)[1..] == lead[1..] + text;
      assert SpaceByte(lead[0]) && (lead + text)[0] == lead[0];
      TrimsLead(lead[1..], text);
    }
  }

  lemma DigitsAreOctal(digits: Bytes)
    ensures digits != [] && (forall i | 0 <= i < |digits| :: DigitByte(digits[i])) <==> OctalDigits(Ascii(digits))
  {
    assert forall i | 0 <= i < |digits| :: DigitByte(digits[i]) <==> '0' <= Ascii(digits)[i] <= '7';
  }

  lemma {:induction false} DigitsRead(digits: Bytes)
    requires digits == [] || OctalDigits(Ascii(digits))
    ensures (forall i | 0 <= i < |digits| :: '0' <= Ascii(digits)[i] <= '7') && OctalValue(Ascii(digits)) == DigitsValue(digits)
  {
    if digits != [] {
      var n := |digits| - 1;
      assert Ascii(digits)[..n] == Ascii(digits[..n]);
      assert n > 0 ==> OctalDigits(Ascii(digits[..n]));
      DigitsRead(digits[..n]);
      assert '0' <= Ascii(digits)[n] <= '7';
    }
  }

  /** An octal field of this shape reads as the value of its digits, up to the maximum. */
  lemma OctalFieldReads(lead: Bytes, digits: Bytes, pad: Bytes, maximum: nat)
    requires OctalField(lead, digits, pad) && maximum <= MAX_SAFE_INTEGER
    ensures TarOctal(lead + digits + pad, maximum) == if DigitsValue(digits) <= maximum then Some(DigitsValue(digits)) else None
  {
    DigitsAreOctal(digits);
    DigitsRead(digits);
    var text := lead + digits;
    assert text[|text| - 1] == digits[|digits| - 1] && DigitByte(digits[|digits| - 1]) && DigitByte(digits[0]);
    DropsPad(text, pad);
    TrimsLead(lead, digits);
  }

  /** And what reads at all is of this shape. */
  lemma ReadIsOctalField(field: Bytes, maximum: nat) returns (lead: Bytes, digits: Bytes, pad: Bytes)
    requires TarOctal(field, maximum).Some?
    ensures OctalField(lead, digits, pad) && field == lead + digits + pad
    ensures TarOctal(field, maximum) == Some(DigitsValue(digits))
  {
    var n := PadStarts(field, |field|);
    assert field[..|field|] == field;
    var m := LeadEnds(field[..n]);
    lead, digits, pad := field[..m], field[m..n], field[n..];
    assert field[..n][m..] == digits && field[..n][..m] == lead;
    DigitsAreOctal(digits);
    DigitsRead(digits);
  }

  lemma {:induction false} PadStarts(field: Bytes, end: nat) returns (n: nat)
    requires end <= |field|
    ensures n <= end && (forall i | n <= i < end :: PadByte(field[i]))
    ensures DropTrailing(Ascii(field[..end])) == Ascii(field[..n])
  {
    n := end;
    if end > 0 && PadByte(field[end - 1]) {
      assert Ascii(field[..end])[..end - 1] == Ascii(field[..end - 1]);
      assert Ascii(field[..end])[end - 1] == (field[end - 1] % 128) as char;
      n := PadStarts(field, end - 1);
    } else if end > 0 {
      assert Ascii(field[..end])[end - 1] == (field[end - 1] % 128) as char;
    }
  }

  lemma {:induction false} LeadEnds(field: Bytes) returns (m: nat)
    ensures m <= |field| && (forall i | 0 <= i < m :: SpaceByte(field[i]))
    ensures TrimStart(Ascii(field)) == Ascii(field[m..])
  {
    m := 0;
    if field != [] && SpaceByte(field[0]) {
      assert Ascii(field)[1..] == Ascii(field[1..]);
      var rest := LeadEnds(field[1..]);
      m := 1 + rest;
      assert field[1..][rest..] == field[m..];
      forall i | 0 <= i < m ensures SpaceByte(field[i]) { if i > 0 { assert field[1..][i - 1] == field[i]; } }
    }
  }

  ghost function Total(bytes: Bytes): nat {
    if bytes == [] then 0 else Total(bytes[..|bytes| - 1]) + bytes[|bytes| - 1]
  }

  /** The sum of the header with the checksum field read as spaces. */
  ghost function Checksum(header: Bytes): nat
    requires |header| == BLOCK
  {
    Total(header[..148]) + 8 * 0x20 + Total(header[156..])
  }

  // ------------------------------------------------------------------------ member names

  function Split(text: string): (components: seq<string>)
    ensures components != []
  {
    if text == "" then [""]
    else
      var rest := Split(text[1..]);
      if text[0] == '/' then [""] + rest else [[text[0]] + rest[0]] + rest[1..]
  }

  function Join(components: seq<string>): string {
    if components == [] then "" else if |components| == 1 then components[0]
    else components[0] + "/" + Join(components[1..])
  }

  ghost function Normalized(raw: string): string {
    if raw != "" && raw[|raw| - 1] == '/' then raw[..|raw| - 1] else raw
  }

  ghost predicate Printable(text: string) {
    forall i | 0 <= i < |text| :: text[i] as nat >= 0x20 && text[i] != '\U{7f}' && text[i] != '\\'
  }

  ghost predicate PlainComponent(component: string) {
    component != "" && component != "." && component != ".."
  }

  ghost predicate SafeName(normalized: string, kind: Kind) {
    var components := Split(normalized);
    && 7 <= |normalized| <= 4096 && Printable(normalized)
    && components[0] == "package"
    && (forall i | 1 <= i < |components| :: PlainComponent(components[i]))
    && (kind.File? ==> |components| >= 2)
  }

  ghost function KindOf(flag: byte): Option<Kind> {
    if flag == 0 || flag == 0x30 then Some(File) else if flag == 0x35 then Some(Directory) else None
  }

  datatype Header = Header(name: string, kind: Kind, mode: nat, size: nat)

  /** Octal 7000, and octal 111: any octal digit of the mode odd. */
  ghost predicate SpecialBits(mode: nat) { mode >= 512 }
  ghost predicate Executable(mode: nat) { mode % 8 % 2 == 1 || mode / 8 % 8 % 2 == 1 || mode / 64 % 8 % 2 == 1 }

  ghost predicate IsUstar(header: Bytes, utf8: Decoder)
    requires |header| == BLOCK
  {
    && TarOctal(header[148..156], MAX_SAFE_INTEGER) == Some(Checksum(header))
    && TarString(header[257..263], utf8) == Some("ustar") && TarString(header[263..265], utf8) == Some("00")
    && TarString(header[157..257], utf8) == Some("")
  }

  /** The checks on one header block, and what it says. */
  ghost function ParseHeader(header: Bytes, utf8: Decoder): (parsed: Option<Header>)
    requires |header| == BLOCK
    ensures parsed.Some? ==> SafeName(parsed.value.name, parsed.value.kind) && parsed.value.size <= MAX_BYTES
    ensures parsed.Some? && parsed.value.kind.Directory? ==> parsed.value.size == 0
  {
    if !IsUstar(header, utf8) then None else
    var prefix, name := TarString(header[345..500], utf8), TarString(header[0..100], utf8);
    if prefix.None? || name.None? then None else
    var raw := if prefix.value == "" then name.value else prefix.value + "/" + name.value;
    var size, mode, kind := TarOctal(header[124..136], MAX_BYTES), TarOctal(header[100..108], 4095), KindOf(header[156]);
    if size.None? || mode.None? || kind.None? || SpecialBits(mode.value) || !SafeName(Normalized(raw), kind.value)
       || (kind.value.Directory? && size.value != 0)
    then None else
    Some(Header(Normalized(raw), kind.value,
                if kind.value.Directory? || Executable(mode.value) then 448 else 384, size.value))
  }

  // ----------------------------------------------------------------------- the archive

  ghost function Padded(size: nat): nat {
    (size + 511) / 512 * 512
  }

  /** What the header at `offset` and the bytes after it say of one member. */
  ghost function MemberAt(b: Bytes, utf8: Decoder, offset: nat, names: set<string>, total: nat): (found: Option<(Member, string)>)
    requires offset + BLOCK <= |b|
    ensures found.Some? ==> End(found.value.0) <= |b| && found.value.0.offset == offset + BLOCK
  {
    var parsed := ParseHeader(b[offset..offset + BLOCK], utf8);
    if parsed.None? || parsed.value.name in names || total + parsed.value.size > MAX_BYTES then None else
    var body, size := offset + BLOCK, parsed.value.size;
    if body + Padded(size) > |b| || size > Padded(size) || !AllZero(b[body + size..body + Padded(size)]) then None else
    Some((Member(Split(parsed.value.name), parsed.value.kind, parsed.value.mode, body, size), parsed.value.name))
  }

  ghost function End(m: Member): (end: nat)
    ensures end >= m.offset
  {
    m.offset + Padded(m.size)
  }

  /** How many entries there are once `m` is read after `count`. */
  ghost function CountWith(count: nat, m: Member): nat {
    if |m.components| > 1 then count + 1 else count
  }

  /** What the archive says from `offset` on, after `names` with `count` entries and `total` file bytes. */
  ghost function MembersFrom(b: Bytes, utf8: Decoder, offset: nat, names: set<string>, count: nat, total: nat): Option<seq<Member>>
    decreases |b| - offset
  {
    if offset + BLOCK > |b| then None
    else if AllZero(b[offset..offset + BLOCK]) then
      if offset + 2 * BLOCK <= |b| && AllZero(b[offset..]) then Some([]) else None
    else if count >= MAX_ENTRIES then None else
    var found := MemberAt(b, utf8, offset, names, total);
    if found.None? then None else
    var (m, name) := found.value;
    var rest := MembersFrom(b, utf8, End(m), names + {name}, CountWith(count, m), total + m.size);
    if rest.None? then None else Some([m] + rest.value)
  }

  /** The entries handed on: every member but the directory `package` itself. */
  ghost function EntriesOf(members: seq<Member>): seq<Entry> {
    if members == [] then [] else
    var m := members[|members| - 1];
    EntriesOf(members[..|members| - 1])
    + if |m.components| > 1 then [Entry(Join(m.components[1..]), m.kind, m.mode, m.offset, m.size)] else []
  }

  ghost function SizeSum(members: seq<Member>): nat {
    if members == [] then 0 else SizeSum(members[..|members| - 1]) + members[|members| - 1].size
  }

  ghost function Members(b: Bytes, utf8: Decoder): Option<seq<Member>> {
    if |b| < 1024 || |b| % 512 != 0 then None else MembersFrom(b, utf8, 0, {}, 0, 0)
  }

  ghost function ReadArchive(b: Bytes, utf8: Decoder): Option<Archive> {
    var members := Members(b, utf8);
    if members.None? || EntriesOf(members.value) == [] then None
    else Some(Archive(EntriesOf(members.value), SizeSum(members.value)))
  }

  // ------------------------------------------------------------------------- the loop

  /** The members of the whole archive are those read so far and those from `offset` on. */
  ghost predicate StillReads(b: Bytes, utf8: Decoder, offset: nat, names: set<string>, count: nat, total: nat, read: seq<Member>) {
    Members(b, utf8)
    == match MembersFrom(b, utf8, offset, names, count, total)
       case None => None
       case Some(rest) => Some(read + rest)
  }

  /** Reading one member moves the reader past its padded body. */
  lemma ReadsOn(b: Bytes, utf8: Decoder, offset: nat, names: set<string>, count: nat, total: nat, read: seq<Member>)
    requires StillReads(b, utf8, offset, names, count, total, read)
    requires offset + BLOCK <= |b| && !AllZero(b[offset..offset + BLOCK])
    ensures count >= MAX_ENTRIES || MemberAt(b, utf8, offset, names, total).None? ==> Members(b, utf8) == None
    ensures count < MAX_ENTRIES && MemberAt(b, utf8, offset, names, total).Some? ==>
              var (m, name) := MemberAt(b, utf8, offset, names, total).value;
              StillReads(b, utf8, End(m), names + {name}, CountWith(count, m), total + m.size, read + [m])
  {
    hide MemberAt, End, AllZero;
    if count < MAX_ENTRIES && MemberAt(b, utf8, offset, names, total).Some? {
      var (m, name) := MemberAt(b, utf8, offset, names, total).value;
      var rest := MembersFrom(b, utf8, End(m), names + {name}, CountWith(count, m), total + m.size);
      if rest.Some? {
        assert read + ([m] + rest.value) == (read + [m]) + rest.value;
      }
    }
  }

  /** Where the reader stops: at a zero block, or at the end. */
  lemma Stops(b: Bytes, utf8: Decoder, offset: nat, names: set<string>, count: nat, total: nat, read: seq<Member>)
    requires StillReads(b, utf8, offset, names, count, total, read)
    requires offset + BLOCK <= |b| ==> AllZero(b[offset..offset + BLOCK])
    ensures Members(b, utf8) == if offset + 2 * BLOCK <= |b| && AllZero(b[offset..]) then Some(read) else None
  {
    assert read + [] == read;
  }

  lemma EntriesSnoc(read: seq<Member>, m: Member)
    ensures EntriesOf(read + [m])
         == EntriesOf(read) + if |m.components| > 1 then [Entry(Join(m.components[1..]), m.kind, m.mode, m.offset, m.size)] else []
    ensures SizeSum(read + [m]) == SizeSum(read) + m.size
  {
    assert (read + [m])[..|read|] == read;
  }

  method HeaderChecksum(header: Bytes) returns (sum: nat)
    requires |header| == BLOCK
    ensures sum == Checksum(header)
  {
    sum := 0;
    for index := 0 to |header|
      invariant sum == Total(header[..if index < 148 then index else 148])
                       + 0x20 * (if index < 148 then 0 else if index < 156 then index - 148 else 8)
                       + Total(header[156..if index < 156 then 156 else index])
    {
      if index < 148 { TotalSnoc(header, 0, index); }
      if index >= 156 { TotalSnoc(header, 156, index); }
      sum := sum + if index >= 148 && index < 156 then 0x20 else header[index];
    }
    assert header[156..|header|] == header[156..];
  }

  lemma TotalSnoc(bytes: Bytes, from: nat, i: nat)
    requires from <= i < |bytes|
    ensures Total(bytes[from..i + 1]) == Total(bytes[from..i]) + bytes[i]
  {
    assert bytes[from..i + 1][..i - from] == bytes[from..i];
  }

  /** The checks on a name: the pattern, the components, and a path below `package` for a file. */
  method AcceptsName(normalized: string, components: seq<string>, file: bool) returns (ok: bool)
    requires components == Split(normalized)
    ensures ok <==> SafeName(normalized, if file then File else Directory)
  {
    hide Split;
    if |normalized| < 7 || |normalized| > 4096 { return false; }
    if exists i | 0 <= i < |normalized| :: normalized[i] as nat <= 0x1f || normalized[i] as nat == 0x7f || normalized[i] as nat == 0x5c {
      return false;
    }
    if components[0] != "package" { return false; }
    if exists i | 1 <= i < |components| :: components[i] == "" || components[i] == "." || components[i] == ".." { return false; }
    ok := !(file && |components| < 2);
  }

  lemma ModeBits(mode: nat)
    requires mode <= 4095
    ensures SpecialBits(mode) <==> mode / 512 % 8 != 0
    ensures Executable(mode) <==> mode % 2 == 1 || mode / 8 % 2 == 1 || mode / 64 % 2 == 1
  {
    OddDigit(mode);
    OddDigit(mode / 8);
    OddDigit(mode / 64);
  }

  lemma OddDigit(n: nat)
    ensures n % 8 % 2 == n % 2
  {
    var eighth, digit := n / 8, n % 8;
    assert n == 8 * eighth + digit;
    var half := 4 * eighth + digit / 2;
    assert n == 2 * half + digit % 2;
  }

  /** Checksum, magic, version, and no link name. */
  method ReadMagic(header: Bytes, utf8: Decoder) returns (ok: bool)
    requires |header| == BLOCK
    ensures ok <==> IsUstar(header, utf8)
  {
    hide Checksum, TarOctal, TarString;
    var calculatedChecksum := HeaderChecksum(header);
    if TarOctal(header[148..156], 9007199254740991) != Some(calculatedChecksum) { return false; }
    if TarString(header[257..263], utf8) != Some("ustar") { return false; }
    if TarString(header[263..265], utf8) != Some("00") { return false; }
    ok := TarString(header[157..257], utf8) == Some("");
  }

  /** What `parseSafeNpmTar` makes of one header block. */
  method ReadHeader(header: Bytes, utf8: Decoder) returns (parsed: Option<Header>)
    requires |header| == BLOCK
    ensures parsed == ParseHeader(header, utf8)
  {
    hide Checksum, TarOctal, TarString, SafeName, Split, IsUstar, SpecialBits, Executable;
    var ustar := ReadMagic(header, utf8);
    if !ustar { return None; }
    var prefix := TarString(header[345..500], utf8);
    if prefix.None? { return None; }
    var name := TarString(header[0..100], utf8);
    if name.None? { return None; }
    var rawPath := if prefix.value == "" then name.value else prefix.value + "/" + name.value;
    var normalized := if rawPath != "" && rawPath[|rawPath| - 1] == '/' then rawPath[..|rawPath| - 1] else rawPath;
    var flag := header[156];
    var file, directory := flag == 0 || flag == 0x30, flag == 0x35;
    var size := TarOctal(header[124..136], 268435456);
    if size.None? { return None; }
    var archiveMode := TarOctal(header[100..108], 4095);
    if archiveMode.None? || (!file && !directory) { return None; }
    var named := AcceptsName(normalized, Split(normalized), file);
    ModeBits(archiveMode.value);
    if archiveMode.value / 512 % 8 != 0 || !named || (directory && size.value != 0) { return None; }
    var anyExecute := archiveMode.value % 2 == 1 || archiveMode.value / 8 % 2 == 1 || archiveMode.value / 64 % 2 == 1;
    parsed := Some(Header(normalized, if file then File else Directory, if directory || anyExecute then 448 else 384, size.value));
  }

  /** The member whose header stands at `offset`, with its body and padding. */
  method ReadMember(b: Bytes, utf8: Decoder, offset: nat, paths: set<string>, totalFileBytes: nat)
    returns (found: Option<(Member, string)>)
    requires offset + BLOCK <= |b|
    ensures found == MemberAt(b, utf8, offset, paths, totalFileBytes)
  {
    hide ParseHeader, Split;
    var header := ReadHeader(b[offset..offset + BLOCK], utf8);
    if header.None? || header.value.name in paths { return None; }
    var size := header.value.size;
    if totalFileBytes + size > 268435456 { return None; }
    var bodyOffset, paddedSize := offset + 512, if size % 512 == 0 then size else size - size % 512 + 512;
    if bodyOffset + paddedSize > |b| || exists i | bodyOffset + size <= i < bodyOffset + paddedSize :: b[i] != 0 { return None; }
    found := Some((Member(Split(header.value.name), header.value.kind, header.value.mode, bodyOffset, size), header.value.name));
  }

  /** `parseSafeNpmTar`, after gunzip. */
  method ParseSafeNpmTar(b: Bytes, utf8: Decoder) returns (archive: Option<Archive>)
    ensures archive == ReadArchive(b, utf8)
  {
    hide MemberAt, AllZero, MembersFrom, Join;
    if |b| < 1024 || |b| % BLOCK != 0 { return None; }
    var entries: seq<Entry> := [];
    var paths: set<string> := {};
    var offset: nat, zeroBlocks: nat, totalFileBytes: nat := 0, 0, 0;
    ghost var read: seq<Member> := [];
    ghost var stop: nat := 0;
    StartsReading(b, utf8);
    while offset + BLOCK <= |b|
      invariant offset <= |b| && zeroBlocks <= 1 && stop + zeroBlocks * BLOCK == offset
      invariant StillReads(b, utf8, stop, paths, |entries|, totalFileBytes, read)
      invariant zeroBlocks == 1 ==> AllZero(b[stop..stop + BLOCK])
      invariant entries == EntriesOf(read) && totalFileBytes == SizeSum(read)
      decreases |b| - offset
    {
      var header := b[offset..offset + BLOCK];
      if AllZero(header) {
        zeroBlocks := zeroBlocks + 1;
        offset := offset + BLOCK;
        if zeroBlocks >= 2 { break; }
        continue;
      }
      if zeroBlocks != 0 {
        Stops(b, utf8, stop, paths, |entries|, totalFileBytes, read);
        TailIsNotZero(b, stop);
        return None;
      }
      ReadsOn(b, utf8, offset, paths, |entries|, totalFileBytes, read);
      if |entries| >= 20_000 { return None; }
      var found := ReadMember(b, utf8, offset, paths, totalFileBytes);
      if found.None? { return None; }
      var (member, name) := found.value;
      paths, totalFileBytes := paths + {name}, totalFileBytes + member.size;
      if |member.components| > 1 {
        entries := entries + [Entry(Join(member.components[1..]), member.kind, member.mode, member.offset, member.size)];
      }
      EntriesSnoc(read, member);
      read := read + [member];
      offset := member.offset + (member.size + 511) / 512 * 512;
      stop := offset;
    }
    Stops(b, utf8, stop, paths, |entries|, totalFileBytes, read);
    TailIsZero(b, stop);
    if zeroBlocks < 2 || |entries| < 1 || !AllZero(b[offset..]) { return None; }
    archive := Some(Archive(entries, totalFileBytes));
  }

  lemma StartsReading(b: Bytes, utf8: Decoder)
    requires |b| >= 1024 && |b| % 512 == 0
    ensures StillReads(b, utf8, 0, {}, 0, 0, [])
  {
    hide MembersFrom;
    var rest := MembersFrom(b, utf8, 0, {}, 0, 0);
    if rest.Some? { assert [] + rest.value == rest.value; }
  }

  lemma ZeroInside(b: Bytes, from: nat, x: nat, y: nat)
    requires from <= x <= y <= |b| && AllZero(b[from..])
    ensures AllZero(b[x..y])
  {
    var whole, part := b[from..], b[x..y];
    forall i | 0 <= i < |part| ensures part[i] == 0 {
      assert part[i] == whole[x - from + i];
    }
  }

  lemma TailIsNotZero(b: Bytes, stop: nat)
    requires stop + 2 * BLOCK <= |b| && !AllZero(b[stop + BLOCK..stop + 2 * BLOCK])
    ensures !AllZero(b[stop..])
  {
    hide AllZero;
    if AllZero(b[stop..]) {
      ZeroInside(b, stop, stop + BLOCK, stop + 2 * BLOCK);
    }
  }

  lemma ZeroJoins(b: Bytes, from: nat, mid: nat)
    requires from <= mid <= |b| && AllZero(b[from..mid]) && AllZero(b[mid..])
    ensures AllZero(b[from..])
  {
    var whole, head, tail := b[from..], b[from..mid], b[mid..];
    forall i | 0 <= i < |whole| ensures whole[i] == 0 {
      assert whole[i] == if i < mid - from then head[i] else tail[i - (mid - from)];
    }
  }

  /** Two zero blocks and a zero rest are a zero tail. */
  lemma TailIsZero(b: Bytes, stop: nat)
    ensures stop + 2 * BLOCK <= |b| && AllZero(b[stop..stop + BLOCK]) && AllZero(b[stop + BLOCK..stop + 2 * BLOCK]) ==>
              (AllZero(b[stop..]) <==> AllZero(b[stop + 2 * BLOCK..]))
  {
    hide AllZero;
    if stop + 2 * BLOCK <= |b| && AllZero(b[stop..stop + BLOCK]) && AllZero(b[stop + BLOCK..stop + 2 * BLOCK]) {
      if AllZero(b[stop..]) {
        ZeroInside(b, stop, stop + 2 * BLOCK, |b|);
        assert b[stop + 2 * BLOCK..|b|] == b[stop + 2 * BLOCK..];
      } else if AllZero(b[stop + 2 * BLOCK..]) {
        ZeroJoins(b, stop + BLOCK, stop + 2 * BLOCK);
        ZeroJoins(b, stop, stop + BLOCK);
      }
    }
  }

  // -------------------------------------------------------------------------- the tiling

  /** Member `i` starts a header after the one before it, or after `from`, and its padding is zero. */
  ghost predicate TileAt(b: Bytes, members: seq<Member>, from: nat, i: nat)
    requires i < |members|
  {
    var m := members[i];
    && m.offset == (if i == 0 then from else End(members[i - 1])) + BLOCK
    && m.offset + m.size <= End(m) <= |b|
    && AllZero(b[m.offset + m.size..End(m)])
  }

  /** Headers and padded bodies from `from` on, then a zero tail of at least two blocks. */
  ghost predicate Tiles(b: Bytes, members: seq<Member>, from: nat) {
    && (forall i | 0 <= i < |members| :: TileAt(b, members, from, i))
    && var stop := if members == [] then from else End(members[|members| - 1]);
       stop + 2 * BLOCK <= |b| && AllZero(b[stop..])
  }

  lemma TilesCons(b: Bytes, m: Member, rest: seq<Member>, from: nat)
    requires Tiles(b, rest, End(m)) && m.offset == from + BLOCK && m.offset + m.size <= End(m) <= |b|
    requires AllZero(b[m.offset + m.size..End(m)])
    ensures Tiles(b, [m] + rest, from)
  {
    hide AllZero, End;
    var members := [m] + rest;
    forall i | 0 <= i < |members| ensures TileAt(b, members, from, i) {
      if i > 0 {
        assert TileAt(b, rest, End(m), i - 1) && members[i] == rest[i - 1];
      }
    }
  }

  lemma MemberAtTiles(b: Bytes, utf8: Decoder, offset: nat, names: set<string>, total: nat)
    requires offset + BLOCK <= |b| && MemberAt(b, utf8, offset, names, total).Some?
    ensures var m := MemberAt(b, utf8, offset, names, total).value.0;
            m.offset == offset + BLOCK && m.offset + m.size <= End(m) <= |b| && AllZero(b[m.offset + m.size..End(m)])
  {
    hide ParseHeader, Padded, Split;
  }

  /** Every accepted buffer is headers, padded bodies and a zero tail, and nothing else. */
  lemma {:induction false} AcceptedTiles(b: Bytes, utf8: Decoder, offset: nat, names: set<string>, count: nat, total: nat)
    requires MembersFrom(b, utf8, offset, names, count, total).Some?
    ensures Tiles(b, MembersFrom(b, utf8, offset, names, count, total).value, offset)
    decreases |b| - offset
  {
    hide MemberAt, AllZero, End;
    if !AllZero(b[offset..offset + BLOCK]) {
      var (m, name) := MemberAt(b, utf8, offset, names, total).value;
      var rest := MembersFrom(b, utf8, End(m), names + {name}, CountWith(count, m), total + m.size).value;
      hide Tiles;
      AcceptedTiles(b, utf8, End(m), names + {name}, CountWith(count, m), total + m.size);
      MemberAtTiles(b, utf8, offset, names, total);
      TilesCons(b, m, rest, offset);
    }
  }

  /** Bodies lie in the buffer, in order, a header apart. */
  lemma {:induction false} BodiesAreDisjoint(b: Bytes, members: seq<Member>, from: nat, i: nat, j: nat)
    requires Tiles(b, members, from) && i < j < |members|
    ensures members[i].offset + members[i].size + BLOCK <= members[j].offset
    ensures members[j].offset + members[j].size + 2 * BLOCK <= |b|
    decreases |members| - i
  {
    hide Padded, AllZero;
    EndsGrow(b, members, from, j);
    assert TileAt(b, members, from, i) && TileAt(b, members, from, i + 1) && TileAt(b, members, from, j);
    if i + 1 < j {
      BodiesAreDisjoint(b, members, from, i + 1, j);
    }
  }

  lemma {:induction false} EndsGrow(b: Bytes, members: seq<Member>, from: nat, j: nat)
    requires Tiles(b, members, from) && j < |members|
    ensures End(members[j]) + 2 * BLOCK <= |b|
    decreases |members| - j
  {
    hide Padded, AllZero;
    if j + 1 < |members| {
      EndsGrow(b, members, from, j + 1);
      assert TileAt(b, members, from, j + 1);
    }
  }

  // --------------------------------------------------------------------------- the names

  lemma {:induction false} SplitJoins(text: string)
    ensures Join(Split(text)) == text
  {
    if text != "" {
      SplitJoins(text[1..]);
      var rest := Split(text[1..]);
      if text[0] != '/' && |rest| > 1 {
        assert ([text[0]] + rest[0]) + "/" + Join(rest[1..]) == [text[0]] + (rest[0] + "/" + Join(rest[1..]));
      }
    }
  }

  ghost predicate SafeMember(m: Member) {
    && m.components != [] && m.components[0] == "package"
    && (forall i | 1 <= i < |m.components| :: PlainComponent(m.components[i]) && Printable(m.components[i]))
    && (m.kind.File? ==> |m.components| >= 2) && (m.kind.Directory? ==> m.size == 0)
    && m.mode in {384, 448} && (m.kind.Directory? ==> m.mode == 448)
  }

  lemma {:induction false} PrintableParts(text: string)
    requires Printable(text)
    ensures forall i | 0 <= i < |Split(text)| :: Printable(Split(text)[i])
  {
    if text != "" {
      PrintableParts(text[1..]);
    }
  }

  lemma MemberAtSafe(b: Bytes, utf8: Decoder, offset: nat, names: set<string>, total: nat)
    requires offset + BLOCK <= |b| && MemberAt(b, utf8, offset, names, total).Some?
    ensures var (m, name) := MemberAt(b, utf8, offset, names, total).value;
            SafeMember(m) && Join(m.components) == name && name !in names && total + m.size <= MAX_BYTES
  {
    hide Padded, AllZero, TarOctal, TarString, Checksum, Executable, SpecialBits, Split, Join, Printable;
    var h := ParseHeader(b[offset..offset + BLOCK], utf8).value;
    SplitJoins(h.name);
    PrintableParts(h.name);
  }

  /** Safe names, each once, none of them in `names`. */
  ghost predicate SafeAndDistinct(members: seq<Member>, names: set<string>) {
    && (forall i | 0 <= i < |members| :: SafeMember(members[i]) && Join(members[i].components) !in names)
    && (forall i, j | 0 <= i < j < |members| :: Join(members[i].components) != Join(members[j].components))
  }

  lemma SafeCons(m: Member, rest: seq<Member>, names: set<string>)
    requires SafeMember(m) && Join(m.components) !in names && SafeAndDistinct(rest, names + {Join(m.components)})
    ensures SafeAndDistinct([m] + rest, names)
  {
    hide SafeMember, Join;
    var members := [m] + rest;
    forall i | 0 < i < |members| ensures members[i] == rest[i - 1] {}
  }

  /** Names are safe and no two members have the same; sizes add up within the limit. */
  lemma {:induction false} AcceptedNames(b: Bytes, utf8: Decoder, offset: nat, names: set<string>, count: nat, total: nat)
    requires MembersFrom(b, utf8, offset, names, count, total).Some? && total <= MAX_BYTES
    ensures var members := MembersFrom(b, utf8, offset, names, count, total).value;
            SafeAndDistinct(members, names) && total + SizeSum(members) <= MAX_BYTES
    decreases |b| - offset
  {
    hide MemberAt, AllZero, End;
    if !AllZero(b[offset..offset + BLOCK]) {
      var (m, name) := MemberAt(b, utf8, offset, names, total).value;
      var rest := MembersFrom(b, utf8, End(m), names + {name}, CountWith(count, m), total + m.size).value;
      hide SafeAndDistinct, SafeMember, SizeSum, Join;
      MemberAtSafe(b, utf8, offset, names, total);
      AcceptedNames(b, utf8, End(m), names + {name}, CountWith(count, m), total + m.size);
      SafeCons(m, rest, names);
      SizesCons(m, rest);
    }
  }

  lemma {:induction false} SizesCons(m: Member, rest: seq<Member>)
    ensures SizeSum([m] + rest) == m.size + SizeSum(rest)
  {
    if rest == [] {
      assert ([m] + rest)[..0] == [];
    } else {
      assert ([m] + rest)[..|rest|] == [m] + rest[..|rest| - 1];
      SizesCons(m, rest[..|rest| - 1]);
    }
  }

  /** The stripped path of a member below `package`. */
  ghost function PathOf(m: Member): string
    requires |m.components| > 1
  {
    Join(m.components[1..])
  }

  lemma PathFixesName(x: Member, y: Member)
    requires SafeMember(x) && SafeMember(y) && |x.components| > 1 && |y.components| > 1 && PathOf(x) == PathOf(y)
    ensures Join(x.components) == Join(y.components)
  {
  }

  lemma {:induction false} EntriesAreMembers(members: seq<Member>, entry: Entry)
    requires entry in EntriesOf(members)
    ensures exists m :: m in members && |m.components| > 1 && entry.path == PathOf(m)
  {
    var n := |members| - 1;
    if entry in EntriesOf(members[..n]) {
      EntriesAreMembers(members[..n], entry);
    } else {
      assert members[n] in members && |members[n].components| > 1;
    }
  }

  ghost predicate PathsDistinct(entries: seq<Entry>) {
    forall i, j | 0 <= i < j < |entries| :: entries[i].path != entries[j].path
  }

  /** Stripping keeps paths distinct. */
  lemma {:induction false} EntryPathsAreDistinct(members: seq<Member>, names: set<string>)
    requires SafeAndDistinct(members, names)
    ensures PathsDistinct(EntriesOf(members))
  {
    if members != [] {
      var n := |members| - 1;
      var init, m := members[..n], members[n];
      EntryPathsAreDistinct(init, names);
      forall i | 0 <= i < |EntriesOf(init)| && |m.components| > 1 ensures EntriesOf(init)[i].path != PathOf(m) {
        EntriesAreMembers(init, EntriesOf(init)[i]);
        var other :| other in init && |other.components| > 1 && EntriesOf(init)[i].path == PathOf(other);
        var k :| 0 <= k < n && init[k] == other;
        assert members[k] == other;
        if PathOf(other) == PathOf(m) { PathFixesName(other, m); }
      }
    }
  }

  /** The whole of what an accepted archive promises. */
  lemma AcceptedArchive(b: Bytes, utf8: Decoder)
    requires Members(b, utf8).Some?
    ensures var members := Members(b, utf8).value;
            && Tiles(b, members, 0) && SafeAndDistinct(members, {}) && SizeSum(members) <= MAX_BYTES
            && PathsDistinct(EntriesOf(members))
  {
    AcceptedTiles(b, utf8, 0, {}, 0, 0);
    AcceptedNames(b, utf8, 0, {}, 0, 0);
    EntryPathsAreDistinct(Members(b, utf8).value, {});
  }
}
