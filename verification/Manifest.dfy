/** The digest of a package manifest (scripts/generate-local-binding-yaml-manifest.py). */
module Manifest {
  import opened Wrappers
  import opened Framing

  datatype FileEntry = FileEntry(path: Bytes, mode: nat, bytes: nat, sha256: Bytes)

  datatype Record = Record(
    schemaVersion: nat, profile: Bytes, name: Bytes, version: Bytes, sri: Bytes, entry: Bytes, files: seq<FileEntry>)

  ghost function HeadFields(r: Record): seq<Field> {
    [Field("schemaVersion", Numeral(r.schemaVersion, 10)), Field("profile", r.profile), Field("name", r.name),
     Field("version", r.version), Field("sri", r.sri), Field("entry", r.entry)]
  }

  ghost function FileFields(f: FileEntry): seq<Field> {
    [Field("file.path", f.path), Field("file.mode", Numeral(f.mode, 10)), Field("file.bytes", Numeral(f.bytes, 10)),
     Field("file.sha256", f.sha256)]
  }

  ghost function FilesFields(files: seq<FileEntry>): (fields: seq<Field>)
    ensures |fields| == 4 * |files|
  {
    if files == [] then [] else FilesFields(files[..|files| - 1]) + FileFields(files[|files| - 1])
  }

  ghost function RecordFields(r: Record): seq<Field> {
    HeadFields(r) + FilesFields(r.files)
  }

  method UpdateHead(digest: Hash, r: Record)
    modifies digest
    ensures digest.stream == old(digest.stream) + Stream(HeadFields(r))
  {
    UpdateFields(digest, [
      Field("schemaVersion", Numeral(r.schemaVersion, 10)), Field("profile", r.profile), Field("name", r.name),
      Field("version", r.version), Field("sri", r.sri), Field("entry", r.entry)]);
  }

  method UpdateFile(digest: Hash, file: FileEntry)
    modifies digest
    ensures digest.stream == old(digest.stream) + Stream(FileFields(file))
  {
    UpdateFields(digest, [
      Field("file.path", file.path), Field("file.mode", Numeral(file.mode, 10)),
      Field("file.bytes", Numeral(file.bytes, 10)), Field("file.sha256", file.sha256)]);
  }

  /** `manifest_digest`, up to the hash of what it has fed. */
  method ManifestDigest(r: Record) returns (digest: Hash)
    ensures fresh(digest) && digest.stream == Stream(RecordFields(r))
  {
    digest := new Hash();
    hide Stream, HeadFields, FileFields;
    ghost var head := HeadFields(r);
    UpdateHead(digest, r);
    assert r.files[..0] == [] && head + [] == head;
    for i := 0 to |r.files|
      invariant fresh(digest)
      invariant digest.stream == Stream(head + FilesFields(r.files[..i]))
    {
      UpdateFile(digest, r.files[i]);
      FilesSnoc(r.files, i);
      StreamAppends(head + FilesFields(r.files[..i]), FileFields(r.files[i]));
      assert (head + FilesFields(r.files[..i])) + FileFields(r.files[i]) == head + FilesFields(r.files[..i + 1]);
    }
    assert r.files[..|r.files|] == r.files;
  }

  lemma FilesSnoc(files: seq<FileEntry>, i: nat)
    requires i < |files|
    ensures FilesFields(files[..i + 1]) == FilesFields(files[..i]) + FileFields(files[i])
  {
    assert files[..i + 1][..i] == files[..i];
  }

  lemma FileDetermined(x: FileEntry, y: FileEntry)
    requires FileFields(x) == FileFields(y)
    ensures x == y
  {
    assert forall i | 0 <= i < 4 :: FileFields(x)[i] == FileFields(y)[i];
    NumeralInjective(x.mode, y.mode, 10);
    NumeralInjective(x.bytes, y.bytes, 10);
  }

  lemma {:induction false} FilesDetermined(x: seq<FileEntry>, y: seq<FileEntry>)
    requires FilesFields(x) == FilesFields(y)
    ensures x == y
  {
    if x != [] {
      var n := |x| - 1;
      var fields := FilesFields(x);
      assert fields[..4 * n] == FilesFields(x[..n]) && fields[4 * n..] == FileFields(x[n]);
      assert fields[..4 * n] == FilesFields(y[..n]) && fields[4 * n..] == FileFields(y[n]);
      FilesDetermined(x[..n], y[..n]);
      FileDetermined(x[n], y[n]);
      assert x == x[..n] + [x[n]] && y == y[..n] + [y[n]];
    }
  }

  /** Equal manifest streams mean equal records: every field, every file, in order. */
  lemma EqualStreamsMeanEqualRecords(x: Record, y: Record)
    requires Framable(RecordFields(x)) && Framable(RecordFields(y))
    requires Stream(RecordFields(x)) == Stream(RecordFields(y))
    ensures x == y
  {
    hide Stream, Framable;
    StreamInjective(RecordFields(x), RecordFields(y));
    var fields := RecordFields(x);
    assert fields[..6] == HeadFields(x) && fields[6..] == FilesFields(x.files);
    assert fields[..6] == HeadFields(y) && fields[6..] == FilesFields(y.files);
    assert forall i | 0 <= i < 6 :: HeadFields(x)[i] == HeadFields(y)[i];
    NumeralInjective(x.schemaVersion, y.schemaVersion, 10);
    FilesDetermined(x.files, y.files);
  }
}
