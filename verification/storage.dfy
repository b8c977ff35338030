/**
 * Object storage naming: where an uploaded file lives, how its public URL is
 * formed, and how a URL is turned back into the stored name. The HTTP calls
 * themselves are outside the model; the project URL and bucket are
 * parameters, and the clock and the random UUID arrive as values.
 */
module Storage {
  import opened Common
  import opened Codes
  import opened Text

  datatype StorageError =
      /** "Invalid URL" */
    | InvalidUrl

  /** The path that comes between the project URL and the bucket's public key. */
  const API_PATH: string := "/storage/v1"

  /** The key a public URL carries before the file name. */
  function PublicKey(bucket: string): (key: string)
    ensures |key| == |bucket| + 16
  {
    "/object/public/" + bucket + "/"
  }

  /** The key of the non-public object path, the fallback when the public key is absent. */
  function PlainKey(bucket: string): string
  {
    "/object/" + bucket + "/"
  }

  /** `getPublicUrl`. */
  function PublicUrl(baseUrl: string, bucket: string, fileName: string): (url: string)
    ensures url == baseUrl + API_PATH + PublicKey(bucket) + fileName
    ensures StartsWith(url, baseUrl) && EndsWith(url, fileName)
  {
    baseUrl + "/storage/v1/object/public/" + bucket + "/" + fileName
  }

  /**
   * `extractFileName`: what follows the first public key, or else what
   * follows the first plain key; a URL with neither is invalid.
   */
  function ExtractFileName(url: string, bucket: string): (r: Result<string, StorageError>)
    ensures r.Err? <==> !Contains(url, PublicKey(bucket)) && !Contains(url, PlainKey(bucket))
    ensures r.Ok? ==> EndsWith(url, r.value)
    ensures Contains(url, PublicKey(bucket)) ==>
      r == Ok(url[IndexOf(url, PublicKey(bucket)).value + |PublicKey(bucket)|..])
    ensures !Contains(url, PublicKey(bucket)) && Contains(url, PlainKey(bucket)) ==>
      r == Ok(url[IndexOf(url, PlainKey(bucket)).value + |PlainKey(bucket)|..])
  {
    var key := PublicKey(bucket);
    match IndexOf(url, key)
    case Some(i) => Ok(url[i + |key|..])
    case None =>
      var plain := PlainKey(bucket);
      match IndexOf(url, plain)
      case Some(i) => Ok(url[i + |plain|..])
      case None => Err(InvalidUrl)
  }

  /**
   * The public key first occurs where `getPublicUrl` puts it: not earlier,
   * inside the project URL or straddling its end.
   */
  predicate KeyFirstAfterBase(baseUrl: string, bucket: string)
  {
    forall i :: 0 <= i < |baseUrl + API_PATH| ==>
      !OccursAt(baseUrl + API_PATH + PublicKey(bucket), PublicKey(bucket), i)
  }

  /** Round trip: extracting the name from a public URL gives back the stored name. */
  lemma ExtractPublicUrl(baseUrl: string, bucket: string, fileName: string)
    requires KeyFirstAfterBase(baseUrl, bucket)
    ensures ExtractFileName(PublicUrl(baseUrl, bucket, fileName), bucket) == Ok(fileName)
  {
    var key := PublicKey(bucket);
    var head := baseUrl + API_PATH;
    var url := PublicUrl(baseUrl, bucket, fileName);
    assert url == (head + key) + fileName;
    assert OccursAt(url, key, |head|) by {
      assert url[|head|..|head| + |key|] == key;
    }
    forall i | 0 <= i < |head|
      ensures !OccursAt(url, key, i)
    {
      if OccursAt(url, key, i) {
        assert url[i..i + |key|] == (head + key)[i..i + |key|];
        assert OccursAt(head + key, key, i);
      }
    }
    assert IndexOf(url, key) == Some(|head|);
  }

  /**
   * A project URL without "/object/" in it is safe: the public key cannot
   * start inside it, nor inside "/storage/v1".
   */
  lemma PlainBaseUrlIsSafe(baseUrl: string, bucket: string)
    requires forall j :: !OccursAt(baseUrl, "/object/", j)
    ensures KeyFirstAfterBase(baseUrl, bucket)
  {
    var key := PublicKey(bucket);
    var s := baseUrl + API_PATH + key;
    var n := |baseUrl|;
    assert key[..15] == "/object/public/";
    assert forall m :: 0 <= m < 11 ==> s[n + m] == API_PATH[m];
    assert forall m :: 0 <= m < n ==> s[m] == baseUrl[m];
    forall i | 0 <= i < |baseUrl + API_PATH|
      ensures !OccursAt(s, key, i)
    {
      if i + 8 <= n {
        assert s[i..i + 8] == baseUrl[i..i + 8];
        assert !OccursAt(baseUrl, "/object/", i);
        assert s[i..i + 8] != key[..8];
        assert i + |key| <= |s| && s[i..i + 8] == s[i..i + |key|][..8];
      } else if i < n {
        // the key's "/object/" would have to run into "/storage/v1"
        assert n - i != 7 ==> s[i + (n - i)] != key[n - i];
        assert n - i == 7 ==> s[i + 8] != key[8];
      } else {
        // nor can it start inside "/storage/v1"
        assert s[i] != key[0] || s[i + 1] != key[1];
      }
    }
  }

  /**
   * A project URL that does not contain the key is not enough for the round
   * trip: the key may straddle the project URL's end, as with the project URL
   * "h/object/public/" + bucket.
   */
  lemma KeyStraddlingBaseBreaksRoundTrip(bucket: string, fileName: string)
    ensures !Contains("h/object/public/" + bucket, PublicKey(bucket))
    ensures ExtractFileName(PublicUrl("h/object/public/" + bucket, bucket, fileName), bucket)
         == Ok("storage/v1" + PublicKey(bucket) + fileName)
  {
    var key := PublicKey(bucket);
    var baseUrl := "h/object/public/" + bucket;
    var rest := "storage/v1" + key + fileName;
    assert baseUrl == "h" + key[..|key| - 1];
    assert PublicUrl(baseUrl, bucket, fileName) == "h" + key + rest;
    KeyAfterOneChar(key, rest);
  }

  /** A key that starts with '/' is found right after a leading 'h', and not in "h" + the key less its last character. */
  lemma KeyAfterOneChar(key: string, rest: string)
    requires |key| > 0 && key[0] == '/'
    ensures !Contains("h" + key[..|key| - 1], key)
    ensures IndexOf("h" + key + rest, key) == Some(1)
  {
    var url := "h" + key + rest;
    assert !OccursAt(url, key, 0) by {
      assert url[0] == 'h';
    }
    assert OccursAt(url, key, 1) by {
      assert url[1..1 + |key|] == key;
    }
    var short := "h" + key[..|key| - 1];
    assert !OccursAt(short, key, 0) by {
      assert short[0] == 'h';
    }
  }

  /** The file's extension: what follows its last '.', or the whole name when there is none. */
  function Extension(original: string): (ext: string)
    ensures EndsWith(original, ext)
    ensures forall k :: 0 <= k < |ext| ==> ext[k] != '.'
  {
    match LastIndexOf(original, '.')
    case None => original
    case Some(k) => original[k + 1..]
  }

  /**
   * `generateFileName`: folder, "/", the user id, "_", the timestamp as
   * yyyyMMddHHmmss, "_", the first eight characters of a random UUID, ".",
   * and the original's extension.
   */
  function GenerateFileName(original: string, userId: string, folder: string, now: DateTime, uuid: string): (name: string)
    requires |uuid| >= 8
    ensures var n := |folder| + |userId| + 2;
      && |name| == n + 24 + |Extension(original)|
      && StartsWith(name, folder + "/" + userId + "_")
      && name[n..n + 14] == FormatTimestamp(now) && AllDigits(name[n..n + 14])
      && name[n + 14..n + 23] == "_" + uuid[..8]
      && EndsWith(name, "." + Extension(original))
  {
    FileNameLayout(folder, userId, FormatTimestamp(now), uuid[..8], Extension(original));
    folder + "/" + userId + "_" + FormatTimestamp(now) + "_" + uuid[..8] + "." + Extension(original)
  }

  /** Where each piece of a generated name sits, for any stamp, tag and extension. */
  lemma FileNameLayout(folder: string, userId: string, stamp: string, tag: string, ext: string)
    requires |stamp| == 14 && |tag| == 8
    ensures var name := folder + "/" + userId + "_" + stamp + "_" + tag + "." + ext;
      var n := |folder| + |userId| + 2;
      && |name| == n + 24 + |ext|
      && StartsWith(name, folder + "/" + userId + "_")
      && name[n..n + 14] == stamp
      && name[n + 14..n + 23] == "_" + tag
      && EndsWith(name, "." + ext)
  {
    var prefix := folder + "/" + userId + "_";
    var name := folder + "/" + userId + "_" + stamp + "_" + tag + "." + ext;
    var n := |prefix|;
    assert name == prefix + stamp + ("_" + tag) + ("." + ext);
    assert name[..n + 14 + 9] == prefix + stamp + ("_" + tag);
    assert name[..n + 14] == prefix + stamp;
  }

  /** A name that ends in "." and a dot-free extension has that extension. */
  lemma ExtensionAfterLastDot(stem: string, ext: string)
    requires forall k :: 0 <= k < |ext| ==> ext[k] != '.'
    ensures Extension(stem + "." + ext) == ext
  {
    var name := stem + "." + ext;
    assert name[|stem|] == '.';
    assert forall k :: |stem| < k < |name| ==> name[k] == ext[k - |stem| - 1];
    assert LastIndexOf(name, '.') == Some(|stem|);
    assert name[|stem| + 1..] == ext;
  }

  /** A generated name keeps the original's extension: it is again what follows the name's last '.'. */
  lemma GeneratedNameKeepsExtension(original: string, userId: string, folder: string, now: DateTime, uuid: string)
    requires |uuid| >= 8
    ensures Extension(GenerateFileName(original, userId, folder, now, uuid)) == Extension(original)
  {
    var ext := Extension(original);
    var name := GenerateFileName(original, userId, folder, now, uuid);
    var stem := name[..|name| - |ext| - 1];
    assert name == stem + "." + ext;
    ExtensionAfterLastDot(stem, ext);
  }
}
