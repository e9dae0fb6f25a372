/**
 * The endpoint normaliser of the relay: the configured base URL loses every
 * trailing slash, and then gets the chat-completions path, with the `/v1`
 * version segment added only when the base does not already end in it.
 */
module Endpoint {
  import opened Text

  const VersionSegment := "/v1"
  const CompletionsPath := "/chat/completions"
  const VersionedCompletionsPath := "/v1/chat/completions"

  /** `s.rstrip('/')`: the longest prefix of `s` that does not end in a slash. */
  function TrimTrailingSlashes(s: string): (r: string)
    ensures r <= s
    ensures forall i :: |r| <= i < |s| ==> s[i] == '/'
    ensures r == [] || r[|r| - 1] != '/'
    decreases |s|
  {
    if |s| > 0 && s[|s| - 1] == '/' then TrimTrailingSlashes(s[..|s| - 1]) else s
  }

  /** The endpoint the relay posts to, built from the configured base URL. */
  function NormalizeEndpoint(baseUrl: string): (r: string)
    ensures TrimTrailingSlashes(baseUrl) <= r
    ensures EndsWith(r, VersionedCompletionsPath)
  {
    var clean := TrimTrailingSlashes(baseUrl);
    if EndsWith(clean, VersionSegment) then clean + CompletionsPath
    else clean + VersionedCompletionsPath
  }

  /**
   * The three properties of the postcondition of TrimTrailingSlashes pin its
   * result down: any prefix with them is the trimmed string.
   */
  lemma {:induction false} TrimUnique(s: string, r: string)
    requires r <= s
    requires forall i :: |r| <= i < |s| ==> s[i] == '/'
    requires r == [] || r[|r| - 1] != '/'
    ensures TrimTrailingSlashes(s) == r
    decreases |s|
  {
    if |s| == |r| {
      assert s == r;
    } else {
      assert s[|s| - 1] == '/';
      TrimUnique(s[..|s| - 1], r);
    }
  }

  /** Stripping twice strips nothing more. */
  lemma TrimIdempotent(s: string)
    ensures TrimTrailingSlashes(TrimTrailingSlashes(s)) == TrimTrailingSlashes(s)
  {
    var r := TrimTrailingSlashes(s);
    TrimUnique(r, r);
  }

  /** Slashes appended to a string are all stripped again. */
  lemma TrimIgnoresTrailingSlashes(s: string, slashes: string)
    requires forall i :: 0 <= i < |slashes| ==> slashes[i] == '/'
    ensures TrimTrailingSlashes(s + slashes) == TrimTrailingSlashes(s)
  {
    var r := TrimTrailingSlashes(s);
    forall i | |r| <= i < |s + slashes|
      ensures (s + slashes)[i] == '/'
    {
      if i >= |s| {
        assert (s + slashes)[i] == slashes[i - |s|];
      }
    }
    TrimUnique(s + slashes, r);
  }

  /** The normalised endpoint is the stripped base followed by one of the two paths, the short one exactly when the base already ends in `/v1`. */
  lemma NormalizeShape(baseUrl: string)
    ensures var clean := TrimTrailingSlashes(baseUrl);
      var tail := NormalizeEndpoint(baseUrl)[|clean|..];
      (tail == CompletionsPath || tail == VersionedCompletionsPath) &&
      (tail == CompletionsPath <==> EndsWith(clean, VersionSegment))
  {
    var clean := TrimTrailingSlashes(baseUrl);
    var r := NormalizeEndpoint(baseUrl);
    if EndsWith(clean, VersionSegment) {
      assert r[|clean|..] == CompletionsPath;
    } else {
      assert r[|clean|..] == VersionedCompletionsPath;
    }
  }

  /**
   * Normalising never introduces a doubled version segment: the endpoint ends
   * in `/v1/v1/chat/completions` only when the stripped base already ended in
   * `/v1/v1`.
   */
  lemma NoDoubledVersion(baseUrl: string)
    ensures EndsWith(NormalizeEndpoint(baseUrl), "/v1/v1/chat/completions")
        <==> EndsWith(TrimTrailingSlashes(baseUrl), "/v1/v1")
  {
    var clean := TrimTrailingSlashes(baseUrl);
    var doubled := "/v1/v1/chat/completions";
    assert "/v1/v1" + CompletionsPath == doubled;
    assert VersionSegment + VersionedCompletionsPath == doubled;
    assert "/v1/v1"[3..] == VersionSegment;
    EndsWithCancel(clean, "/v1/v1", CompletionsPath);
    EndsWithCancel(clean, VersionSegment, VersionedCompletionsPath);
    EndsWithTail(clean, "/v1/v1", 3);
  }

  /** Any run of trailing slashes on the base URL makes no difference to the endpoint. */
  lemma NormalizeIgnoresTrailingSlashes(baseUrl: string, slashes: string)
    requires forall i :: 0 <= i < |slashes| ==> slashes[i] == '/'
    ensures NormalizeEndpoint(baseUrl + slashes) == NormalizeEndpoint(baseUrl)
  {
    TrimIgnoresTrailingSlashes(baseUrl, slashes);
  }

  /**
   * The two conventional ways of writing the base URL, `https://host` and
   * `https://host/v1`, with or without a trailing slash, all reach the same
   * endpoint, `https://host/v1/chat/completions`.
   */
  lemma ConventionalFormsAgree(host: string)
    requires !EndsWith(host, "/") && !EndsWith(host, VersionSegment)
    ensures NormalizeEndpoint(host) == host + VersionedCompletionsPath
    ensures NormalizeEndpoint(host + "/") == host + VersionedCompletionsPath
    ensures NormalizeEndpoint(host + VersionSegment) == host + VersionedCompletionsPath
    ensures NormalizeEndpoint(host + VersionSegment + "/") == host + VersionedCompletionsPath
  {
    TrimUnique(host, host);
    NormalizeIgnoresTrailingSlashes(host, "/");
    var versioned := host + VersionSegment;
    TrimUnique(versioned, versioned);
    assert EndsWith(versioned, VersionSegment);
    NormalizeIgnoresTrailingSlashes(versioned, "/");
  }

  /** Worked examples for a base URL without a version segment. */
  lemma NormalizeExamplesBare()
    ensures NormalizeEndpoint("https://api.x.com") == "https://api.x.com/v1/chat/completions"
    ensures NormalizeEndpoint("https://api.x.com/") == "https://api.x.com/v1/chat/completions"
  {
    var host := "https://api.x.com";
    assert TrimTrailingSlashes(host) == host;
    assert !EndsWith(host, VersionSegment);
    assert host + VersionedCompletionsPath == "https://api.x.com/v1/chat/completions";
    NormalizeIgnoresTrailingSlashes(host, "/");
    assert host + "/" == "https://api.x.com/";
  }

  /** Worked examples for a base URL that ends in `/v1`. */
  lemma NormalizeExamplesVersioned()
    ensures NormalizeEndpoint("https://api.x.com/v1") == "https://api.x.com/v1/chat/completions"
    ensures NormalizeEndpoint("https://api.x.com/v1/") == "https://api.x.com/v1/chat/completions"
  {
    var versioned := "https://api.x.com/v1";
    assert TrimTrailingSlashes(versioned) == versioned;
    assert EndsWith(versioned, VersionSegment);
    assert versioned + CompletionsPath == "https://api.x.com/v1/chat/completions";
    NormalizeIgnoresTrailingSlashes(versioned, "/");
    assert versioned + "/" == "https://api.x.com/v1/";
  }
}
