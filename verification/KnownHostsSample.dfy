/**
  A library that meets `Lawful`, so that what is proved under that assumption is about something: its
  parser splits a line at the first space and tells the hashed form by its frame, its digests have
  twenty bytes, and it can print one key.
 */
module KnownHostsSample {
  import opened Options
  import opened Text
  import opened KnownHosts

  const KEY_TEXT := "k d"

  /** One character for each byte, none of them whitespace or `|`. */
  function Encode(bytes: Bytes): (s: string)
    ensures |s| == |bytes| && forall i | 0 <= i < |s| :: 256 <= s[i] as int < 512
  {
    seq(|bytes|, i requires 0 <= i < |bytes| => (bytes[i] as int + 256) as char)
  }

  function Decode(s: string): (bytes: Bytes)
    ensures |bytes| == |s|
  {
    seq(|s|, i requires 0 <= i < |s| =>
      var n := s[i] as int - 256;
      if 0 <= n < 256 then n as byte else 0)
  }

  function Parse(data: KeyData, line: string): Option<Entry> {
    var n := Find(line, ' ');
    if line[n..] != " " + KEY_TEXT then None
    else
      var pattern := line[..n];
      var patterns := if |pattern| == 44 && pattern[..3] == "|1|" && pattern[23] == '|'
                      then HashedName(Decode(pattern[3..23]), Decode(pattern[24..]))
                      else Patterns([pattern]);
      Some(Entry(None, patterns, PublicKey(data, "")))
  }

  function Sample(data: KeyData): Library {
    Library(
      line => Parse(data, line),
      (_, _) => seq(20, _ => 0),
      Encode,
      (key: PublicKey) => if key.data == data then Some(KEY_TEXT) else None,
      _ => "",
      _ => "")
  }

  lemma DecodeEncode(bytes: Bytes)
    ensures Decode(Encode(bytes)) == bytes
  {
  }

  lemma ParseWritten(data: KeyData, pattern: string)
    requires NoWhitespace(pattern)
    ensures
      var line := WrittenLine(pattern, KEY_TEXT);
      Find(line, ' ') == |pattern| && line[..|pattern|] == pattern && line[|pattern|..] == " " + KEY_TEXT
  {
    var line := WrittenLine(pattern, KEY_TEXT);
    assert line[..|pattern|] == pattern && line[|pattern|] == ' ';
    assert ' ' !in pattern;
    FindUnique(line, ' ', |pattern|);
  }

  lemma HashedParses(data: KeyData, salt: Digest, hash: Digest)
    ensures Parse(data, WrittenLine(HashedPattern(Sample(data), salt, hash), KEY_TEXT))
         == Some(Entry(None, HashedName(salt, hash), PublicKey(data, "")))
  {
    var a, b := Encode(salt), Encode(hash);
    var pattern := "|1|" + a + "|" + b;
    assert pattern == HashedPattern(Sample(data), salt, hash);
    assert pattern[3..23] == a && pattern[24..] == b && pattern[..3] == "|1|" && pattern[23] == '|';
    ParseWritten(data, pattern);
    DecodeEncode(salt);
    DecodeEncode(hash);
  }

  lemma KeyTextFields()
    ensures Fields(KEY_TEXT) == ["k", "d"]
  {
    var rest := KEY_TEXT[1..];
    assert TrimStart(KEY_TEXT) == KEY_TEXT && Word(KEY_TEXT) == "k" && rest == " d";
    assert rest[1..] == "d" && TrimStart("d") == "d";
    assert TrimStart(rest) == "d";
    assert Word("d") == "d" && "d"[1..] == "" && Fields("") == [];
    assert Fields(rest) == ["d"];
  }

  /** For every key there is a lawful library that can print it. */
  lemma LawfulIsPossible(key: PublicKey)
    ensures Lawful(Sample(key.data)) && KeyPart(Sample(key.data), key).Some?
  {
    var data := key.data;
    var lib := Sample(data);
    KeyTextFields();
    assert KEY_TEXT == "k" + " " + "d";
    assert forall k: PublicKey :: KeyPart(lib, k) == if k.data == data then Some(KEY_TEXT) else None;
    forall pattern | PlainPattern(pattern)
      ensures lib.parse(WrittenLine(pattern, KEY_TEXT)) == Some(Entry(None, Patterns([pattern]), PublicKey(data, "")))
    {
      ParseWritten(data, pattern);
    }
    forall salt: Digest, name
      ensures lib.parse(WrittenLine(HashedPattern(lib, salt, lib.hmacSha1(salt, name)), KEY_TEXT))
           == Some(Entry(None, HashedName(salt, lib.hmacSha1(salt, name)), PublicKey(data, "")))
    {
      HashedParses(data, salt, lib.hmacSha1(salt, name));
    }
  }
}
