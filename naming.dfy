/** How the handler names a stored object and how it derives the object's public URL. */
module Naming {
  import opened Values
  import opened Text

  /** The storage key of a file part: the `Date.now()` reading, a dash, and the
      file name the client sent. */
  function StorageKey(timestamp: nat, filename: string): (key: string)
    ensures |key| > |filename|
    ensures key[|key| - |filename|..] == filename
  {
    NatToString(timestamp) + "-" + filename
  }

  /** Splits a key at its first dash into the timestamp and the file name. Only keys
      that `StorageKey` can produce parse: a non-empty run of digits in canonical form
      (no leading zero), then a dash. */
  function ParseKey(key: string): Option<(nat, string)>
  {
    var k := IndexOf(key, '-');
    if k == |key| || k == 0 || !AllDigits(key[..k]) then None
    else
      var t := DigitsValue(key[..k]);
      if NatToString(t) != key[..k] then None else Some((t, key[k + 1..]))
  }

  /** Parsing inverts key derivation, in both directions. */
  lemma KeyRoundTrip(key: string, timestamp: nat, filename: string)
    ensures ParseKey(key) == Some((timestamp, filename)) <==> key == StorageKey(timestamp, filename)
  {
    if key == StorageKey(timestamp, filename) {
      var digits := NatToString(timestamp);
      assert key[|digits|] == '-';
      forall i | 0 <= i < |digits| ensures key[i] != '-' {
        assert key[i] == digits[i];
        assert IsDigit(digits[i]);
      }
      assert IndexOf(key, '-') == |digits|;
      assert key[..|digits|] == digits;
      assert key[|digits| + 1..] == filename;
      DigitsRoundTrip(timestamp);
    }
    if ParseKey(key) == Some((timestamp, filename)) {
      var k := IndexOf(key, '-');
      assert key == key[..k] + "-" + key[k + 1..];
    }
  }

  /** Two file parts with the same name read at different instants get different keys;
      more generally, the key determines both the timestamp and the file name. */
  lemma KeyInjective(t1: nat, f1: string, t2: nat, f2: string)
    requires StorageKey(t1, f1) == StorageKey(t2, f2)
    ensures t1 == t2 && f1 == f2
  {
    var key := StorageKey(t1, f1);
    KeyRoundTrip(key, t1, f1);
    KeyRoundTrip(key, t2, f2);
  }

  const UrlScheme := "https://"
  const StorageHost := ".s3.amazonaws.com/"

  /** The public, virtual-hosted URL of object `key` in `bucket`. */
  function ObjectUrl(bucket: string, key: string): (url: string)
    ensures |url| == |UrlScheme| + |bucket| + |StorageHost| + |key|
    ensures url[..|UrlScheme|] == UrlScheme
    ensures url[|url| - |key|..] == key
  {
    UrlScheme + bucket + StorageHost + key
  }

  /** The key a URL of `bucket` names, if it is one. */
  function KeyOfUrl(bucket: string, url: string): (key: Option<string>)
    ensures key.Some? ==> url == ObjectUrl(bucket, key.value)
  {
    var prefix := UrlScheme + bucket + StorageHost;
    if |prefix| <= |url| && url[..|prefix|] == prefix then
      assert url == url[..|prefix|] + url[|prefix|..];
      Some(url[|prefix|..])
    else None
  }

  /** Every object URL gives back its key, so different keys in one bucket get
      different URLs. */
  lemma UrlRoundTrip(bucket: string, key: string)
    ensures KeyOfUrl(bucket, ObjectUrl(bucket, key)) == Some(key)
  {
  }
}
