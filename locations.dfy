/**
 * Resolution of the locations a manifest names (`validateUrlOrFile`): an
 * existing file as given, a file relative to the manifest's directory, the URL
 * with its path percent-encoded segment by segment, or that URL prefixed with
 * the manifest's directory; anything else is an invalid URI.
 */
module Locations {
  import opened Wrappers
  import opened Errors
  import opened Manifests

  /** `explode('/', s)`: the pieces between slashes; always at least one. */
  function Split(s: string): (r: seq<string>)
    ensures |r| >= 1
    ensures forall i :: 0 <= i < |r| ==> '/' !in r[i]
    decreases |s|
  {
    if s == [] then [""]
    else if s[0] == '/' then [""] + Split(s[1..])
    else
      var rest := Split(s[1..]);
      [[s[0]] + rest[0]] + rest[1..]
  }

  /** `implode('/', parts)`. */
  function Join(parts: seq<string>): string
    requires |parts| >= 1
    decreases |parts|
  {
    if |parts| == 1 then parts[0] else parts[0] + "/" + Join(parts[1..])
  }

  /** Joining the pieces of a split gives back the string. */
  lemma {:induction false} JoinSplit(s: string)
    ensures Join(Split(s)) == s
    decreases |s|
  {
    if s == [] {
    } else if s[0] == '/' {
      JoinSplit(s[1..]);
      assert Split(s)[1..] == Split(s[1..]);
      assert s == "" + "/" + s[1..];
    } else {
      JoinSplit(s[1..]);
      var rest := Split(s[1..]);
      if |rest| == 1 {
        assert Join(rest) == rest[0];
      } else {
        assert Split(s)[1..] == rest[1..];
        assert Join(rest) == rest[0] + "/" + Join(rest[1..]);
        assert s == [s[0]] + s[1..];
      }
    }
  }

  /** Splitting a join of slash-free pieces gives back the pieces. */
  lemma {:induction false} SplitJoin(parts: seq<string>)
    requires |parts| >= 1
    requires forall i :: 0 <= i < |parts| ==> '/' !in parts[i]
    ensures Split(Join(parts)) == parts
    decreases |parts|, |parts[0]|
  {
    var p := parts[0];
    if |parts| == 1 {
      if p != [] {
        assert p[0] != '/' by { assert p[0] in p; }
        SplitJoin([p[1..]]) by {
          assert forall c :: c in p[1..] ==> c in p;
        }
        assert Join([p[1..]]) == p[1..];
        assert p == [p[0]] + p[1..];
      }
    } else {
      var tail := Join(parts[1..]);
      if p == [] {
        assert Join(parts) == "/" + tail;
        SplitJoin(parts[1..]);
        assert ("/" + tail)[1..] == tail;
        assert parts == [""] + parts[1..];
      } else {
        assert p[0] != '/' by { assert p[0] in p; }
        var shorter := [p[1..]] + parts[1..];
        assert forall i :: 1 <= i < |shorter| ==> shorter[i] == parts[i];
        assert '/' !in p[1..] by { assert forall c :: c in p[1..] ==> c in p; }
        SplitJoin(shorter);
        assert shorter[1..] == parts[1..];
        assert Join(shorter) == p[1..] + "/" + tail;
        assert Join(parts) == [p[0]] + Join(shorter);
        assert Join(parts)[1..] == Join(shorter);
        assert shorter[0] == p[1..] && p == [p[0]] + p[1..];
        assert parts == [[p[0]] + shorter[0]] + shorter[1..];
      }
    }
  }

  /** `array_map($encode, $parts)`. */
  function MapEach(encode: string -> string, parts: seq<string>): (r: seq<string>)
    ensures |r| == |parts|
    ensures forall i :: 0 <= i < |parts| ==> r[i] == encode(parts[i])
  {
    seq(|parts|, i requires 0 <= i < |parts| => encode(parts[i]))
  }

  /** The URL path with each slash-separated segment encoded. */
  function EncodePath(encode: string -> string, path: string): string {
    Join(MapEach(encode, Split(path)))
  }

  /** A path whose segments encoding leaves alone is left alone. */
  lemma EncodePathIdentity(encode: string -> string, path: string)
    requires forall i :: 0 <= i < |Split(path)| ==> encode(Split(path)[i]) == Split(path)[i]
    ensures EncodePath(encode, path) == path
  {
    assert MapEach(encode, Split(path)) == Split(path);
    JoinSplit(path);
  }

  /**
   * `str_replace($search, $replacement, $s)`: every occurrence of `search`,
   * scanning left to right without overlap, replaced; an empty `search`
   * changes nothing.
   */
  function ReplaceAll(s: string, search: string, replacement: string): string
    decreases |s|
  {
    if search == [] || |s| < |search| then s
    else if s[..|search|] == search then replacement + ReplaceAll(s[|search|..], search, replacement)
    else [s[0]] + ReplaceAll(s[1..], search, replacement)
  }

  /** Replacing a string by itself changes nothing. */
  lemma {:induction false} ReplaceBySelf(s: string, search: string)
    ensures ReplaceAll(s, search, search) == s
    decreases |s|
  {
    if search == [] || |s| < |search| {
    } else if s[..|search|] == search {
      ReplaceBySelf(s[|search|..], search);
      assert s == s[..|search|] + s[|search|..];
    } else {
      ReplaceBySelf(s[1..], search);
      assert s == [s[0]] + s[1..];
    }
  }

  /** The URL with its path component replaced by the encoded path. */
  function EncodedUrl(env: Environment, url: string): string
    requires env.urlPath(url).Some?
  {
    var path := env.urlPath(url).value;
    ReplaceAll(url, path, EncodePath(env.urlEncode, path))
  }

  /** A URL whose path needs no encoding is checked as it is. */
  lemma EncodedUrlUnchanged(env: Environment, url: string)
    requires env.urlPath(url).Some?
    requires var parts := Split(env.urlPath(url).value);
      forall i :: 0 <= i < |parts| ==> env.urlEncode(parts[i]) == parts[i]
    ensures EncodedUrl(env, url) == url
  {
    EncodePathIdentity(env.urlEncode, env.urlPath(url).value);
    ReplaceBySelf(url, env.urlPath(url).value);
  }

  /** `$baseDir . '/' . $url`. */
  function Under(baseDir: string, url: string): string {
    baseDir + "/" + url
  }

  /** Neither the location itself nor the location under the base directory is a file. */
  predicate NoLocalFile(env: Environment, url: string, baseDir: string) {
    !env.isFile(url) && !(baseDir != "" && env.isFile(Under(baseDir, url)))
  }

  /**
   * `validateUrlOrFile`: the first of these that holds wins — the location is an
   * existing file; the base directory is non-empty and the location joined to it
   * is a file; the encoded URL is valid; the encoded URL under the base
   * directory is valid. When none holds, "Invalid URI passed" names the location.
   * Before the URL checks, a location whose URL path PHP gives as null or false
   * fails with the TypeError `explode` raises on it under strict types.
   * Whatever it returns is an existing file or a valid URL.
   */
  function ValidateUrlOrFile(env: Environment, url: string, baseDir: string): (r: Result<string, Error>)
    ensures r.Ok? ==> env.isFile(r.value) || env.isValidUrl(r.value)
    ensures env.isFile(url) ==> r == Ok(url)
    ensures !env.isFile(url) && baseDir != "" && env.isFile(Under(baseDir, url)) ==> r == Ok(Under(baseDir, url))
    ensures NoLocalFile(env, url, baseDir) && env.urlPath(url).None? ==> r == Err(UrlPathTypeError(url))
    ensures r.Ok? && !env.isFile(r.value) ==>
      && env.urlPath(url).Some?
      && (r.value == EncodedUrl(env, url) || r.value == Under(baseDir, EncodedUrl(env, url)))
    ensures (NoLocalFile(env, url, baseDir) && env.urlPath(url).Some? &&
             env.isValidUrl(EncodedUrl(env, url))) ==> r == Ok(EncodedUrl(env, url))
    ensures (NoLocalFile(env, url, baseDir) && env.urlPath(url).Some? && !env.isValidUrl(EncodedUrl(env, url)) &&
             env.isValidUrl(Under(baseDir, EncodedUrl(env, url)))) ==> r == Ok(Under(baseDir, EncodedUrl(env, url)))
    ensures r == Err(InvalidUri(url)) <==>
      && NoLocalFile(env, url, baseDir)
      && env.urlPath(url).Some?
      && !env.isValidUrl(EncodedUrl(env, url))
      && !env.isValidUrl(Under(baseDir, EncodedUrl(env, url)))
    ensures r.Err? ==> r.error == InvalidUri(url) || r.error == UrlPathTypeError(url)
  {
    if env.isFile(url) then Ok(url)
    else if baseDir != "" && env.isFile(Under(baseDir, url)) then Ok(Under(baseDir, url))
    else if env.urlPath(url).None? then Err(UrlPathTypeError(url))
    else
      var newUrl := EncodedUrl(env, url);
      if env.isValidUrl(newUrl) then Ok(newUrl)
      else if env.isValidUrl(Under(baseDir, newUrl)) then Ok(Under(baseDir, newUrl))
      else Err(InvalidUri(url))
  }

  /** A valid URL that is not a file and needs no encoding is returned as it is. */
  lemma ValidUrlKept(env: Environment, url: string, baseDir: string)
    requires !env.isFile(url) && !(baseDir != "" && env.isFile(Under(baseDir, url)))
    requires env.isValidUrl(url) && env.urlPath(url).Some?
    requires var parts := Split(env.urlPath(url).value);
      forall i :: 0 <= i < |parts| ==> env.urlEncode(parts[i]) == parts[i]
    ensures ValidateUrlOrFile(env, url, baseDir) == Ok(url)
  {
    EncodedUrlUnchanged(env, url);
  }
}
