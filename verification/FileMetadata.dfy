/** Names, limits and the size of metadata.json in src/file_store.rs. */
module FileMetadata {
  import opened Common
  import opened Text

  type Bytes = seq<bv8>

  const MAX_FILE_BYTES := 50 * 1024 * 1024
  const MAX_FILES := 1024
  const MAX_STORE_BYTES := 1024 * 1024 * 1024
  const MAX_PRINCIPAL_FILES := 256
  const MAX_PRINCIPAL_BYTES := 256 * 1024 * 1024
  /** `MAX_FILES * 3`, the scan's own safety limit. */
  const MAX_VISITS := 3 * MAX_FILES
  /** What `read_metadata` is willing to read. */
  const METADATA_LIMIT := 8192

  datatype Meta = Meta(
    id: string, filename: string, mimeType: string, bytes: u64, createdAt: u64, expiresAt: Option<u64>, purpose: string)

  predicate ExpiredAt(m: Meta, now: nat) {
    m.expiresAt.Some? && m.expiresAt.value <= now
  }

  predicate AsciiWord(c: char) {
    'a' <= c <= 'z' || 'A' <= c <= 'Z' || '0' <= c <= '9' || c == '_'
  }

  predicate SafeComponent(s: string) {
    0 < |s| <= 100 && forall i :: 0 <= i < |s| ==> AsciiWord(s[i])
  }

  predicate IsStage(name: string) {
    ".stage-" <= name
  }

  /** The names `path` accepts for a published file. */
  predicate FileId(id: string) {
    "file_" <= id && SafeComponent(id)
  }

  lemma FileIdIsNoStage(id: string)
    requires FileId(id)
    ensures !IsStage(id)
  {
    assert id[0] == 'f';
  }

  /* ---------- UTF-8 and JSON lengths ---------- */

  function Utf8Length(c: char): nat {
    if (c as int) < 0x80 then 1 else if (c as int) < 0x800 then 2 else if (c as int) < 0x1_0000 then 3 else 4
  }

  /** `str::len`. */
  function ByteLength(s: string): nat {
    if s == "" then 0 else Utf8Length(s[0]) + ByteLength(s[1..])
  }

  /** How many bytes serde_json writes for one character of a string. */
  function EscapedChar(c: char): nat {
    if c == '"' || c == '\\' then 2
    else if 8 <= (c as int) <= 10 || 12 <= (c as int) <= 13 then 2
    else if (c as int) < 0x20 then 6
    else Utf8Length(c)
  }

  function EscapedLength(s: string): nat {
    if s == "" then 0 else EscapedChar(s[0]) + EscapedLength(s[1..])
  }

  function DecimalLength(n: nat): nat {
    if n < 10 then 1 else 1 + DecimalLength(n / 10)
  }

  /** The length of metadata.json: 80 bytes of keys and punctuation, two quotes per string, the values. */
  function MetadataLength(m: Meta): nat {
    80 + 8
    + EscapedLength(m.id) + EscapedLength(m.filename) + EscapedLength(m.mimeType) + EscapedLength(m.purpose)
    + DecimalLength(m.bytes) + DecimalLength(m.createdAt)
    + (if m.expiresAt.None? then 4 else DecimalLength(m.expiresAt.value))
  }

  function HexDigit(n: nat): char
    requires n < 16
  {
    "0123456789abcdef"[n]
  }

  /** One character inside a JSON string, as serde_json writes it. */
  function Escape(c: char): string {
    match c as int
    case 0x22 => "\\\""
    case 0x5C => "\\\\"
    case 0x08 => "\\b"
    case 0x09 => "\\t"
    case 0x0A => "\\n"
    case 0x0C => "\\f"
    case 0x0D => "\\r"
    case n => if n < 0x20 then "\\u00" + [HexDigit(n / 16), HexDigit(n % 16)] else [c]
  }

  function Escaped(s: string): string {
    if s == "" then "" else Escape(s[0]) + Escaped(s[1..])
  }

  function Quoted(s: string): string {
    "\"" + Escaped(s) + "\""
  }

  function Decimal(n: nat): string {
    if n < 10 then [HexDigit(n)] else Decimal(n / 10) + [HexDigit(n % 10)]
  }

  function First(key: string, value: string): string {
    ("{\"" + key + "\":") + value
  }

  function Field(before: string, key: string, value: string): string {
    before + (",\"" + key + "\":") + value
  }

  function Expiry(at: Option<u64>): string {
    if at.None? then "null" else Decimal(at.value)
  }

  function NamesText(m: Meta): string {
    Field(Field(First("id", Quoted(m.id)), "filename", Quoted(m.filename)), "mime_type", Quoted(m.mimeType))
  }

  function NumbersText(before: string, m: Meta): string {
    Field(Field(Field(before, "bytes", Decimal(m.bytes)), "created_at", Decimal(m.createdAt)),
          "expires_at", Expiry(m.expiresAt))
  }

  /** The text of metadata.json. */
  function MetadataText(m: Meta): string {
    Field(NumbersText(NamesText(m), m), "purpose", Quoted(m.purpose)) + "}"
  }

  lemma {:induction false} ByteLengthAdds(a: string, b: string)
    ensures ByteLength(a + b) == ByteLength(a) + ByteLength(b)
  {
    if a == "" {
      assert a + b == b;
    } else {
      assert (a + b)[0] == a[0] && (a + b)[1..] == a[1..] + b;
      ByteLengthAdds(a[1..], b);
    }
  }

  lemma {:induction false} AsciiLength(s: string)
    requires forall i :: 0 <= i < |s| ==> (s[i] as int) < 0x80
    ensures ByteLength(s) == |s|
  {
    if s != "" {
      AsciiLength(s[1..]);
    }
  }

  lemma EscapeLength(c: char)
    ensures ByteLength(Escape(c)) == EscapedChar(c)
  {
    if Escape(c) == [c] {
      assert ByteLength([c]) == Utf8Length(c) + ByteLength([c][1..]);
    } else {
      AsciiLength(Escape(c));
    }
  }

  lemma {:induction false} QuotedLength(s: string)
    ensures ByteLength(Escaped(s)) == EscapedLength(s) && ByteLength(Quoted(s)) == EscapedLength(s) + 2
  {
    if s != "" {
      EscapeLength(s[0]);
      QuotedLength(s[1..]);
      ByteLengthAdds(Escape(s[0]), Escaped(s[1..]));
    }
    AsciiLength("\"");
    ByteLengthAdds("\"", Escaped(s));
    ByteLengthAdds("\"" + Escaped(s), "\"");
  }

  lemma {:induction false} DecimalIsAscii(n: nat)
    ensures |Decimal(n)| == DecimalLength(n) && forall i :: 0 <= i < |Decimal(n)| ==> '0' <= Decimal(n)[i] <= '9'
  {
    if n >= 10 {
      DecimalIsAscii(n / 10);
    }
  }

  lemma FieldLength(before: string, key: string, value: string)
    requires forall i :: 0 <= i < |key| ==> (key[i] as int) < 0x80
    ensures ByteLength(Field(before, key, value)) == ByteLength(before) + |key| + 4 + ByteLength(value)
  {
    var middle := ",\"" + key + "\":";
    AsciiLength(middle);
    ByteLengthAdds(before, middle);
    ByteLengthAdds(before + middle, value);
  }

  lemma FirstLength(key: string, text: string)
    requires forall i :: 0 <= i < |key| ==> (key[i] as int) < 0x80
    ensures ByteLength(First(key, Quoted(text))) == |key| + 6 + EscapedLength(text)
  {
    var start := "{\"" + key + "\":";
    AsciiLength(start);
    QuotedLength(text);
    ByteLengthAdds(start, Quoted(text));
  }

  lemma TextFieldLength(before: string, key: string, text: string)
    requires forall i :: 0 <= i < |key| ==> (key[i] as int) < 0x80
    ensures ByteLength(Field(before, key, Quoted(text))) == ByteLength(before) + |key| + 6 + EscapedLength(text)
  {
    QuotedLength(text);
    FieldLength(before, key, Quoted(text));
  }

  lemma LastFieldLength(before: string, key: string, text: string)
    requires forall i :: 0 <= i < |key| ==> (key[i] as int) < 0x80
    ensures ByteLength(Field(before, key, Quoted(text)) + "}")
         == ByteLength(before) + |key| + 7 + EscapedLength(text)
  {
    TextFieldLength(before, key, text);
    AsciiLength("}");
    ByteLengthAdds(Field(before, key, Quoted(text)), "}");
  }

  lemma DecimalBytes(n: nat)
    ensures ByteLength(Decimal(n)) == DecimalLength(n)
  {
    DecimalIsAscii(n);
    AsciiLength(Decimal(n));
  }

  lemma ExpiryBytes(at: Option<u64>)
    ensures ByteLength(Expiry(at)) == if at.None? then 4 else DecimalLength(at.value)
  {
    if at.Some? {
      DecimalBytes(at.value);
    } else {
      AsciiLength("null");
    }
  }

  lemma NamesLength(m: Meta)
    ensures ByteLength(NamesText(m))
         == 37 + EscapedLength(m.id) + EscapedLength(m.filename) + EscapedLength(m.mimeType)
  {
    var t := First("id", Quoted(m.id));
    FirstLength("id", m.id);
    TextFieldLength(t, "filename", m.filename);
    TextFieldLength(Field(t, "filename", Quoted(m.filename)), "mime_type", m.mimeType);
  }

  lemma NumbersLength(before: string, m: Meta)
    ensures ByteLength(NumbersText(before, m))
         == ByteLength(before) + 37 + DecimalLength(m.bytes) + DecimalLength(m.createdAt)
            + (if m.expiresAt.None? then 4 else DecimalLength(m.expiresAt.value))
  {
    DecimalBytes(m.bytes);
    DecimalBytes(m.createdAt);
    ExpiryBytes(m.expiresAt);
    var t := Field(before, "bytes", Decimal(m.bytes));
    FieldLength(before, "bytes", Decimal(m.bytes));
    FieldLength(t, "created_at", Decimal(m.createdAt));
    FieldLength(Field(t, "created_at", Decimal(m.createdAt)), "expires_at", Expiry(m.expiresAt));
  }

  /** The size the store compares with its limit is that of the JSON text in UTF-8. */
  lemma MetadataLengthIsItsText(m: Meta)
    ensures ByteLength(MetadataText(m)) == MetadataLength(m)
  {
    NamesLength(m);
    NumbersLength(NamesText(m), m);
    LastFieldLength(NumbersText(NamesText(m), m), "purpose", m.purpose);
  }

  /** A name grows by one character exactly while it stays within 255 bytes and takes no character with a meaning. */
  lemma FilenameGrows(s: string, c: char)
    ensures FilenameOk(s + [c]) <==>
      && (s == "" || FilenameOk(s)) && ByteLength(s) + ByteLength([c]) <= 255 && !IsControl(c)
      && c != '<' && c != '>' && c != ':' && c != '\"' && c != '|' && c != '?' && c != '*' && c != '\\' && c != '/'
    ensures MimeTypeOk(s + [c]) <==>
      (s == "" || MimeTypeOk(s)) && ByteLength(s) + ByteLength([c]) <= 255 && !IsControl(c)
  {
    ByteLengthAdds(s, [c]);
    var t := s + [c];
    assert t[|s|] == c && forall i :: 0 <= i < |s| ==> t[i] == s[i];
  }

  /** A principal or an id that is accepted names one entry below its directory and leads nowhere else. */
  lemma ComponentsStayInside(s: string)
    requires SafeComponent(s) || FileId(s)
    ensures 0 < |s| <= 100 && (FileId(s) ==> s[0] == 'f' && s[4] == '_')
    ensures '/' !in s && '\\' !in s && ':' !in s && '.' !in s && '-' !in s
  {
  }

  /** `read_metadata` can read back what `put` wrote. */
  predicate Readable(m: Meta) {
    MetadataLength(m) <= METADATA_LIMIT && m.bytes <= MAX_FILE_BYTES
  }

  /** What `put` checks before it takes the lock. */
  predicate FilenameOk(s: string) {
    s != "" && ByteLength(s) <= 255
    && forall i :: 0 <= i < |s| ==> !IsControl(s[i]) && s[i] !in "<>:\"|?*\\/"
  }

  predicate MimeTypeOk(s: string) {
    s != "" && ByteLength(s) <= 255 && forall i :: 0 <= i < |s| ==> !IsControl(s[i])
  }

  lemma {:induction false} EscapedWithoutControls(s: string)
    requires forall i :: 0 <= i < |s| ==> !IsControl(s[i])
    ensures EscapedLength(s) <= 2 * ByteLength(s)
  {
    if s != "" {
      EscapedWithoutControls(s[1..]);
    }
  }

  lemma {:induction false} EscapedWords(s: string)
    requires forall i :: 0 <= i < |s| ==> AsciiWord(s[i])
    ensures EscapedLength(s) == |s|
  {
    if s != "" {
      EscapedWords(s[1..]);
    }
  }

  function Power10(k: nat): nat {
    if k == 0 then 1 else 10 * Power10(k - 1)
  }

  lemma {:induction false} DecimalBound(n: nat, k: nat)
    requires k > 0 && n < Power10(k)
    ensures DecimalLength(n) <= k
  {
    if n >= 10 {
      DecimalBound(n / 10, k - 1);
    }
  }

  lemma U64Digits(n: u64)
    ensures DecimalLength(n) <= 20
  {
    assert Power10(4) == 10_000;
    assert Power10(8) == 100_000_000;
    assert Power10(12) == 1_000_000_000_000;
    assert Power10(16) == 10_000_000_000_000_000;
    assert Power10(20) == 100_000_000_000_000_000_000;
    DecimalBound(n, 20);
  }

  /** With a purpose of at most 6000 escaped bytes, everything `put` accepts can be read back. */
  lemma BoundedPurposeIsReadable(m: Meta)
    requires FileId(m.id) && FilenameOk(m.filename) && MimeTypeOk(m.mimeType) && m.bytes <= MAX_FILE_BYTES
    requires EscapedLength(m.purpose) <= 6000
    ensures Readable(m)
  {
    EscapedWords(m.id);
    EscapedWithoutControls(m.filename);
    EscapedWithoutControls(m.mimeType);
    U64Digits(m.bytes);
    U64Digits(m.createdAt);
    if m.expiresAt.Some? {
      U64Digits(m.expiresAt.value);
    }
  }

  /** The purposes src/api/files.rs lets through. */
  predicate ApiPurpose(p: string) {
    p == "user_data" || p == "assistants" || p == "batch" || p == "fine-tune" || p == "vision" || p == "evals"
  }

  lemma ApiPurposesAreShort(p: string)
    requires ApiPurpose(p)
    ensures EscapedLength(p) <= 6000
  {
    EscapedAtMost(p);
  }

  lemma {:induction false} EscapedAtMost(s: string)
    ensures EscapedLength(s) <= 6 * |s|
  {
    if s != "" {
      EscapedAtMost(s[1..]);
    }
  }

  lemma {:induction false} EscapedAtLeast(s: string)
    ensures EscapedLength(s) >= |s|
  {
    if s != "" {
      EscapedAtLeast(s[1..]);
    }
  }

  /** The store itself does not bound the purpose: one of 8192 letters makes metadata that cannot be read back. */
  lemma LongPurposeIsUnreadable(m: Meta)
    requires m.purpose == seq(8192, i => 'a')
    ensures !Readable(m)
  {
    EscapedAtLeast(m.purpose);
  }
}
