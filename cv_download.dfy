/** The CV download endpoint, `GET /api/applications/cv?applicationId=...`
    (src/tests/integration/application-cv.integration.test.ts): look the
    application up, turn its stored `cvUrl` into a storage key with
    `normalizeCvKey`, and redirect to a download URL for that key, or to
    the stored URL itself when it is already a full URL.

    The application lookup and the storage's `getDownloadUrl` are
    parameters. URL parsing is a simplified reading of the WHATWG URL
    standard: see `Pathname`. */
module CvDownload {
  import opened Wrappers
  import opened Js
  import opened Http
  import opened Errors

  const MissingIdMessage := "Missing applicationId query parameter"
  const InvalidIdMessage := "Invalid applicationId"
  const NotFoundMessage := "Application not found"
  const NoCvMessage := "CV not found"
  const DownloadFailedMessage := "Failed to get CV download URL"

  /** The part of an application the endpoint reads; `cvUrl` may be null. */
  datatype StoredCv = StoredCv(cvUrl: Option<string>)

  predicate IsHttpUrl(s: string) {
    StartsWith(s, "http://") || StartsWith(s, "https://")
  }

  /** Characters that end a URL's host. */
  predicate EndsHost(c: char) {
    c == '/' || c == '?' || c == '#'
  }

  /** Characters that end a URL's path. */
  predicate EndsPath(c: char) {
    c == '?' || c == '#'
  }

  /** The length of the host at the start of `s`. */
  function HostLength(s: string): (n: nat)
    ensures n <= |s|
    ensures forall i :: 0 <= i < n ==> !EndsHost(s[i])
    ensures n == |s| || EndsHost(s[n])
  {
    if s == [] || EndsHost(s[0]) then 0 else 1 + HostLength(s[1..])
  }

  /** The length of the path at the start of `s`. */
  function PathLength(s: string): (n: nat)
    ensures n <= |s|
    ensures forall i :: 0 <= i < n ==> !EndsPath(s[i])
    ensures n == |s| || EndsPath(s[n])
  {
    if s == [] || EndsPath(s[0]) then 0 else 1 + PathLength(s[1..])
  }

  /** `new URL(u).pathname` for an http(s) URL: None where the constructor
      throws (an empty host); "/" where the URL has no path. */
  function Pathname(u: string): (p: Option<string>)
    requires IsHttpUrl(u)
    ensures p.Some? ==> p.value != [] && p.value[0] == '/'
  {
    var rest := if StartsWith(u, "http://") then u[7..] else u[8..];
    var host := HostLength(rest);
    if host == 0 then None
    else
      var path := rest[host..][..PathLength(rest[host..])];
      if path == [] || path[0] != '/' then Some("/") else Some(path)
  }

  /** The key for an already trimmed value: for an http(s) URL its
      pathname without the leading "/", falling back to the value when that
      is empty or the URL does not parse; anything else is the value. */
  function KeyOf(value: string): (key: string)
    ensures !IsHttpUrl(value) ==> key == value
    ensures IsHttpUrl(value) ==>
      var p := Pathname(value);
      key == if p.Some? && |p.value| > 1 then p.value[1..] else value
    ensures value != [] ==> key != []
  {
    if IsHttpUrl(value) then
      var pathname := Pathname(value);
      if pathname.None? then value
      else
        var stripped := pathname.value[1..];
        if stripped == [] then value else stripped
    else value
  }

  /** `normalizeCvKey`: trim, then take the key. */
  function NormalizeCvKey(keyOrUrl: string): (key: string)
    ensures Trim(keyOrUrl) != [] ==> key != []
  {
    KeyOf(Trim(keyOrUrl))
  }

  /** The endpoint. `rawId` is None when the query parameter is absent or
      not a single string. */
  function DownloadCv(rawId: Option<string>,
                      lookup: int -> Result<Option<StoredCv>, Failure>,
                      downloadUrl: string -> Result<string, Failure>): (r: Reply<()>)
    ensures rawId.None? ==> r == Reply(400, Message(MissingIdMessage))
    ensures rawId.Some? && ParseInt(rawId.value).None? ==> r == Reply(400, Message(InvalidIdMessage))
    ensures rawId.Some? && ParseInt(rawId.value).Some? && lookup(ParseInt(rawId.value).value).Err? ==>
      r == Reply(500, Message(DownloadFailedMessage))
    ensures rawId.Some? && ParseInt(rawId.value).Some? && lookup(ParseInt(rawId.value).value) == Ok(None) ==>
      r == Reply(404, Message(NotFoundMessage))
    ensures r.status == RedirectStatus <==> r.body.Redirect?
    ensures r.status in {302, 400, 404, 500}
  {
    if rawId.None? then Reply(400, Message(MissingIdMessage))
    else
      var id := ParseInt(rawId.value);
      if id.None? then Reply(400, Message(InvalidIdMessage))
      else
        match lookup(id.value)
        case Err(_) => Reply(500, Message(DownloadFailedMessage))
        case Ok(None) => Reply(404, Message(NotFoundMessage))
        case Ok(Some(application)) =>
          if application.cvUrl.None? || Trim(application.cvUrl.value) == [] then Reply(404, Message(NoCvMessage))
          else
            var key := NormalizeCvKey(application.cvUrl.value);
            if IsHttpUrl(key) then Reply(RedirectStatus, Redirect(key))
            else
              match downloadUrl(key)
              case Err(_) => Reply(500, Message(DownloadFailedMessage))
              case Ok(url) => Reply(RedirectStatus, Redirect(url))
  }

  /** An id that `parseInt` reads as NaN is refused before any lookup:
      the reply is the same whatever the store holds. */
  lemma InvalidIdNeverLooksUp(rawId: string,
                              lookup1: int -> Result<Option<StoredCv>, Failure>,
                              lookup2: int -> Result<Option<StoredCv>, Failure>,
                              downloadUrl: string -> Result<string, Failure>)
    requires ParseInt(rawId).None?
    ensures DownloadCv(Some(rawId), lookup1, downloadUrl) == DownloadCv(Some(rawId), lookup2, downloadUrl)
      == Reply(400, Message(InvalidIdMessage))
  {
  }

  /** In particular, an id that starts with a letter of either case is
      refused with 400 "Invalid applicationId". */
  lemma LetterIdIsInvalid(rawId: string,
                          lookup: int -> Result<Option<StoredCv>, Failure>,
                          downloadUrl: string -> Result<string, Failure>)
    requires rawId != [] && ('a' <= rawId[0] <= 'z' || 'A' <= rawId[0] <= 'Z')
    ensures DownloadCv(Some(rawId), lookup, downloadUrl) == Reply(400, Message(InvalidIdMessage))
  {
    ParseIntRejectsLetter(rawId);
  }

  /** A found application whose `cvUrl` is null, empty or only whitespace
      has no CV, and storage is not asked. */
  lemma BlankCvNotFound(rawId: string, cvUrl: Option<string>,
                        lookup: int -> Result<Option<StoredCv>, Failure>,
                        downloadUrl: string -> Result<string, Failure>)
    requires ParseInt(rawId).Some? && lookup(ParseInt(rawId).value) == Ok(Some(StoredCv(cvUrl)))
    requires cvUrl.None? || AllWhitespace(cvUrl.value)
    ensures DownloadCv(Some(rawId), lookup, downloadUrl) == Reply(404, Message(NoCvMessage))
  {
  }

  /** A stored key that is not a URL goes to storage trimmed, and the
      reply redirects to the URL storage gives for it. */
  lemma PlainKeyGoesToStorage(rawId: string, cvUrl: string,
                              lookup: int -> Result<Option<StoredCv>, Failure>,
                              downloadUrl: string -> Result<string, Failure>)
    requires ParseInt(rawId).Some? && lookup(ParseInt(rawId).value) == Ok(Some(StoredCv(Some(cvUrl))))
    requires Trim(cvUrl) != [] && !IsHttpUrl(Trim(cvUrl))
    ensures DownloadCv(Some(rawId), lookup, downloadUrl) ==
      match downloadUrl(Trim(cvUrl))
      case Err(_) => Reply(500, Message(DownloadFailedMessage))
      case Ok(url) => Reply(RedirectStatus, Redirect(url))
  {
  }

  /** The pathname of the URL made of scheme, host and an absolute path. */
  lemma PathnameOf(scheme: string, host: string, path: string)
    requires scheme == "http://" || scheme == "https://"
    requires host != [] && forall i :: 0 <= i < |host| ==> !EndsHost(host[i])
    requires path != [] && path[0] == '/' && forall i :: 0 <= i < |path| ==> !EndsPath(path[i])
    ensures IsHttpUrl(scheme + host + path)
    ensures Pathname(scheme + host + path) == Some(path)
  {
    var u := scheme + host + path;
    assert u[..|scheme|] == scheme;
    var rest := if StartsWith(u, "http://") then u[7..] else u[8..];
    assert rest == host + path by {
      if scheme == "http://" { assert u[7..] == host + path; }
      else {
        assert !StartsWith(u, "http://") by { assert u[4] == 's'; }
        assert u[8..] == host + path;
      }
    }
    HostLengthOf(host, path);
    assert rest[|host|..] == path;
    PathLengthAll(path);
    assert path[..|path|] == path;
  }

  lemma {:induction false} HostLengthOf(host: string, rest: string)
    requires forall i :: 0 <= i < |host| ==> !EndsHost(host[i])
    requires rest != [] && EndsHost(rest[0])
    ensures HostLength(host + rest) == |host|
    decreases |host|
  {
    if host != [] {
      assert (host + rest)[1..] == host[1..] + rest;
      HostLengthOf(host[1..], rest);
    } else {
      assert host + rest == rest;
    }
  }

  lemma PathLengthAll(path: string)
    requires forall i :: 0 <= i < |path| ==> !EndsPath(path[i])
    ensures PathLength(path) == |path|
  {
  }

  /** An http(s) URL with a path to a file gives that path without its
      leading "/" as the key: "https://example.com/path/file.pdf" gives
      "path/file.pdf". */
  lemma UrlNormalisesToPath(scheme: string, host: string, path: string)
    requires scheme == "http://" || scheme == "https://"
    requires host != [] && forall i :: 0 <= i < |host| ==> !EndsHost(host[i])
    requires |path| > 1 && path[0] == '/' && forall i :: 0 <= i < |path| ==> !EndsPath(path[i])
    ensures KeyOf(scheme + host + path) == path[1..]
  {
    PathnameOf(scheme, host, path);
  }

  /** A URL with nothing after its host is its own key. */
  lemma HostOnlyUrlIsItsOwnKey(scheme: string, host: string)
    requires scheme == "http://" || scheme == "https://"
    requires host != [] && forall i :: 0 <= i < |host| ==> !EndsHost(host[i])
    ensures IsHttpUrl(scheme + host)
    ensures KeyOf(scheme + host) == scheme + host
  {
    var u := scheme + host;
    assert u[..|scheme|] == scheme;
    var rest := if StartsWith(u, "http://") then u[7..] else u[8..];
    assert rest == host by {
      if scheme == "https://" { assert u[4] == 's'; }
    }
    HostLengthAll(host);
    assert rest[|host|..] == [];
    assert Pathname(u) == Some("/");
  }

  /** A value with no whitespace at its ends is normalised without
      trimming. */
  lemma NormalizeTrimmed(value: string)
    requires value != [] && !IsWhitespace(value[0]) && !IsWhitespace(value[|value| - 1])
    ensures NormalizeCvKey(value) == KeyOf(value)
  {
    TrimOfTrimmed(value);
  }

  /** A stored value whose key is an http(s) URL is redirected to that
      URL, and storage is not asked. */
  lemma UrlKeyRedirectsDirectly(rawId: string, cvUrl: string,
                                lookup: int -> Result<Option<StoredCv>, Failure>,
                                download1: string -> Result<string, Failure>,
                                download2: string -> Result<string, Failure>)
    requires ParseInt(rawId).Some? && lookup(ParseInt(rawId).value) == Ok(Some(StoredCv(Some(cvUrl))))
    requires !AllWhitespace(cvUrl) && IsHttpUrl(NormalizeCvKey(cvUrl))
    ensures DownloadCv(Some(rawId), lookup, download1) == Reply(RedirectStatus, Redirect(NormalizeCvKey(cvUrl)))
    ensures DownloadCv(Some(rawId), lookup, download2) == Reply(RedirectStatus, Redirect(NormalizeCvKey(cvUrl)))
  {
  }

  lemma HostLengthAll(host: string)
    requires forall i :: 0 <= i < |host| ==> !EndsHost(host[i])
    ensures HostLength(host) == |host|
  {
  }

}
