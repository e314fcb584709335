/** File names: which names a peer may publish under, and the names of a transfer's own files. */
module Names {
  import opened Wrappers

  type TransferId = b: seq<byte> | |b| == 16 witness seq(16, _ => 0)

  const HEX := "0123456789abcdef"
  const PREFIX := ".sensor-transfer-"

  function Hex(bytes: seq<byte>): string {
    if bytes == [] then ""
    else [HEX[bytes[0] / 16], HEX[bytes[0] % 16]] + Hex(bytes[1..])
  }

  function PartName(id: TransferId): string { PREFIX + Hex(id) + ".part" }

  function MetaName(id: TransferId): string { PREFIX + Hex(id) + ".meta" }

  function Utf8Length(name: string): nat {
    if name == "" then 0
    else
      var c := name[0] as int;
      (if c < 0x80 then 1 else if c < 0x800 then 2 else if c < 0x1_0000 then 3 else 4) + Utf8Length(name[1..])
  }

  predicate IsControl(c: char) {
    c as int < 0x20 || 0x7F <= c as int < 0xA0
  }

  /** Everything before the first full stop. */
  function Stem(name: string): string {
    if name == "" || name[0] == '.' then "" else [name[0]] + Stem(name[1..])
  }

  function AsciiUpper(name: string): string {
    if name == "" then ""
    else [if 'a' <= name[0] <= 'z' then (name[0] as int - 32) as char else name[0]] + AsciiUpper(name[1..])
  }

  const DEVICES: set<string> := {
    "CON", "PRN", "AUX", "NUL", "COM1", "COM2", "COM3", "COM4", "COM5", "COM6", "COM7", "COM8", "COM9",
    "LPT1", "LPT2", "LPT3", "LPT4", "LPT5", "LPT6", "LPT7", "LPT8", "LPT9",
    "COM\U{00B9}", "COM\U{00B2}", "COM\U{00B3}", "LPT\U{00B9}", "LPT\U{00B2}", "LPT\U{00B3}"
  }

  const FORBIDDEN: set<char> := {'/', '\\', ':', '<', '>', '"', '|', '?', '*'}

  predicate ValidName(name: string) {
    && name != ""
    && Utf8Length(name) <= 180
    && name[0] != '.'
    && name[|name| - 1] !in {'.', ' '}
    && (forall i | 0 <= i < |name| :: !IsControl(name[i]) && name[i] !in FORBIDDEN)
    && AsciiUpper(Stem(name)) !in DEVICES
  }

  /** A published name never collides with a transfer's own files, whatever its identifier. */
  lemma ValidNamesAreOrdinary(name: string)
    requires ValidName(name)
    ensures Ordinary(name)
  {
    forall id: TransferId ensures name != PartName(id) && name != MetaName(id) {
      assert PartName(id)[0] == '.' && MetaName(id)[0] == '.';
    }
  }

  lemma {:induction false} HexLength(bytes: seq<byte>)
    ensures |Hex(bytes)| == 2 * |bytes|
  {
    if bytes != [] { HexLength(bytes[1..]); }
  }

  lemma {:induction false} HexIsInjective(a: seq<byte>, b: seq<byte>)
    requires Hex(a) == Hex(b)
    ensures a == b
  {
    HexLength(a);
    HexLength(b);
    if a != [] {
      assert Hex(a)[2..] == Hex(a[1..]) && Hex(b)[2..] == Hex(b[1..]);
      HexIsInjective(a[1..], b[1..]);
      DigitsDiffer(a[0] / 16, b[0] / 16);
      DigitsDiffer(a[0] % 16, b[0] % 16);
      assert Hex(a)[0] == HEX[a[0] / 16] && Hex(a)[1] == HEX[a[0] % 16];
      assert Hex(b)[0] == HEX[b[0] / 16] && Hex(b)[1] == HEX[b[0] % 16];
      assert a == [a[0]] + a[1..] && b == [b[0]] + b[1..];
    }
  }

  lemma DigitsDiffer(i: nat, j: nat)
    requires i < 16 && j < 16
    ensures HEX[i] == HEX[j] ==> i == j
  {
  }

  /** Different transfers own different files, and a part file is never a metadata file. */
  lemma TransferFilesAreDistinct(a: TransferId, b: TransferId)
    ensures PartName(a) == PartName(b) ==> a == b
    ensures MetaName(a) == MetaName(b) ==> a == b
    ensures PartName(a) != MetaName(b)
  {
    HexLength(a);
    HexLength(b);
    var n := |PREFIX|;
    assert PartName(a)[n..n + 32] == Hex(a) && MetaName(a)[n..n + 32] == Hex(a);
    assert PartName(b)[n..n + 32] == Hex(b) && MetaName(b)[n..n + 32] == Hex(b);
    if PartName(a) == PartName(b) || MetaName(a) == MetaName(b) { HexIsInjective(a, b); }
    assert PartName(a)[n + 33] == 'p' && MetaName(b)[n + 33] == 'm';
  }

  /** A directory entry by its role; Render gives the name the file system sees. */
  datatype FileName = Plain(name: string) | Part(id: TransferId) | Meta(id: TransferId)

  function Render(f: FileName): string {
    match f
    case Plain(name) => name
    case Part(id) => PartName(id)
    case Meta(id) => MetaName(id)
  }

  /** A plain name is one that no transfer uses for its own files. */
  ghost predicate Ordinary(name: string) {
    forall id: TransferId :: name != PartName(id) && name != MetaName(id)
  }

  /** Entries may be told apart by role, because the names they are stored under are different. */
  lemma RenderedNamesAreDistinct(a: FileName, b: FileName)
    requires a.Plain? ==> Ordinary(a.name)
    requires b.Plain? ==> Ordinary(b.name)
    ensures Render(a) == Render(b) ==> a == b
  {
    if a.Plain? || b.Plain? {
      return;
    }
    TransferFilesAreDistinct(a.id, b.id);
    TransferFilesAreDistinct(b.id, a.id);
  }

  predicate Simple(c: char) { 'a' <= c <= 'z' || 'A' <= c <= 'Z' || '0' <= c <= '9' || c == '-' || c == '_' }

  /** Names of letters, digits, dashes and underscores with an extension are accepted, up to 180 of them. */
  lemma {:induction false} PlainLength(name: string)
    requires forall i | 0 <= i < |name| :: Simple(name[i]) || name[i] == '.'
    ensures Utf8Length(name) == |name|
  {
    if name != "" {
      forall i | 0 <= i < |name[1..]| ensures Simple(name[1..][i]) || name[1..][i] == '.' { assert name[1..][i] == name[i + 1]; }
      PlainLength(name[1..]);
    }
  }

  lemma {:induction false} StemOfPlain(stem: string, rest: string)
    requires (forall i | 0 <= i < |stem| :: stem[i] != '.') && (rest == "" || rest[0] == '.')
    ensures Stem(stem + rest) == stem
  {
    if stem == "" {
      assert stem + rest == rest;
    } else {
      assert (stem + rest)[0] == stem[0] && (stem + rest)[1..] == stem[1..] + rest;
      StemOfPlain(stem[1..], rest);
    }
  }

  lemma {:induction false} UpperLength(name: string)
    ensures |AsciiUpper(name)| == |name|
  {
    if name != "" { UpperLength(name[1..]); }
  }

  lemma PlainNamesAreValid(stem: string, extension: string)
    requires |stem| > 4 && extension != "" && |stem| + 1 + |extension| <= 180
    requires (forall i | 0 <= i < |stem| :: Simple(stem[i])) && (forall i | 0 <= i < |extension| :: Simple(extension[i]))
    ensures ValidName(stem + "." + extension)
  {
    var name := stem + "." + extension;
    assert name == stem + ("." + extension);
    PlainLength(name);
    StemOfPlain(stem, "." + extension);
    UpperLength(stem);
    assert name[|name| - 1] == extension[|extension| - 1];
    assert forall d | d in DEVICES :: |d| <= 4;
  }
}
