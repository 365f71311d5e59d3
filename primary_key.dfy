/**
 * `generate_primary_key`: the first ten hexadecimal characters of the SHA-256
 * digest of a formatted clock reading, a dash, then the reading itself.
 * The clock reading arrives already formatted ("%Y-%m-%d %H:%M:%S.%f"), and
 * the digest function is a parameter.
 */
module PrimaryKey {
  import opened Wrappers

  predicate IsHexDigit(c: char) {
    '0' <= c <= '9' || 'a' <= c <= 'f'
  }

  /** What `hashlib.sha256(...).hexdigest()` returns: 64 lower-case hexadecimal characters. */
  type HexDigest = s: string | |s| == 64 && forall i :: 0 <= i < |s| ==> IsHexDigit(s[i])
    witness seq(64, _ => '0')

  /** The key for the clock reading `stamp`. */
  function GeneratePrimaryKey(stamp: string, sha256: string -> HexDigest): (key: string)
    ensures |key| == 11 + |stamp|
    ensures key[..10] == sha256(stamp)[..10]
    ensures key[10] == '-' && key[11..] == stamp
  {
    sha256(stamp)[..10] + "-" + stamp
  }

  /** The position of the first occurrence of `c` in `s`. */
  function IndexOf(s: string, c: char): (r: Option<nat>)
    ensures r.None? <==> c !in s
    ensures r.Some? ==> r.value < |s| && s[r.value] == c
    ensures r.Some? ==> forall j :: 0 <= j < r.value ==> s[j] != c
  {
    if |s| == 0 then None
    else if s[0] == c then Some(0)
    else match IndexOf(s[1..], c)
      case None => None
      case Some(i) => Some(i + 1)
  }

  /** Splits a key at its first dash into hash prefix and timestamp; None when it has no dash. */
  function SplitKey(key: string): (r: Option<(string, string)>)
    ensures r.Some? ==> key == r.value.0 + "-" + r.value.1 && '-' !in r.value.0
    ensures r.None? <==> '-' !in key
  {
    match IndexOf(key, '-')
    case None => None
    case Some(i) =>
      assert key == key[..i] + "-" + key[i + 1..];
      Some((key[..i], key[i + 1..]))
  }

  /** Splitting a generated key recovers the digest prefix and the whole
      timestamp, even though the timestamp contains dashes of its own. */
  lemma SplitGeneratedKey(stamp: string, sha256: string -> HexDigest)
    ensures SplitKey(GeneratePrimaryKey(stamp, sha256)) == Some((sha256(stamp)[..10], stamp))
  {
    var key := GeneratePrimaryKey(stamp, sha256);
    var digest := sha256(stamp);
    forall j | 0 <= j < 10 ensures key[j] != '-' {
      assert key[j] == digest[j] && IsHexDigit(digest[j]);
    }
    assert IndexOf(key, '-') == Some(10);
  }

  /** Two keys built by the same digest function are equal exactly when their
      timestamps are: the key is as unique as the clock reading. */
  lemma KeysEqualIffStampsEqual(a: string, b: string, sha256: string -> HexDigest)
    ensures GeneratePrimaryKey(a, sha256) == GeneratePrimaryKey(b, sha256) <==> a == b
  {
    if GeneratePrimaryKey(a, sha256) == GeneratePrimaryKey(b, sha256) {
      SplitGeneratedKey(a, sha256);
      SplitGeneratedKey(b, sha256);
    }
  }

  predicate IsDigit(c: char) {
    '0' <= c <= '9'
  }

  /** The shape of a reading formatted with "%Y-%m-%d %H:%M:%S.%f":
      "YYYY-MM-DD HH:MM:SS.ffffff", 26 characters. */
  predicate MicrosecondStamp(s: string) {
    && |s| == 26
    && s[4] == '-' && s[7] == '-' && s[10] == ' '
    && s[13] == ':' && s[16] == ':' && s[19] == '.'
    && forall i :: 0 <= i < 26 && i !in {4, 7, 10, 13, 16, 19} ==> IsDigit(s[i])
  }

  /** Every such reading gives a 37-character key: ten hexadecimal characters,
      the dash at position 10, then the reading with its own dashes at 15 and 18. */
  lemma KeyOfMicrosecondStamp(stamp: string, sha256: string -> HexDigest)
    requires MicrosecondStamp(stamp)
    ensures |GeneratePrimaryKey(stamp, sha256)| == 37
    ensures GeneratePrimaryKey(stamp, sha256)[11..] == stamp
    ensures forall i :: 0 <= i < 10 ==> IsHexDigit(GeneratePrimaryKey(stamp, sha256)[i])
    ensures GeneratePrimaryKey(stamp, sha256)[10] == '-'
    ensures GeneratePrimaryKey(stamp, sha256)[15] == '-' && GeneratePrimaryKey(stamp, sha256)[18] == '-'
  {
    var key := GeneratePrimaryKey(stamp, sha256);
    forall i | 0 <= i < 10 ensures IsHexDigit(key[i]) {
      assert key[i] == sha256(stamp)[i];
    }
    assert key[15] == stamp[4] && key[18] == stamp[7];
  }
}
