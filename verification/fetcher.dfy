/**
 * `get_album`: fetch the group's current album from the generator service,
 * retrying error statuses, and read the four album fields out of the answer.
 */
module Fetcher {
  import opened Text
  import opened Retry

  const SPOTIFY_URL := "https://open.spotify.com/album"

  datatype Album = Album(album: string, artist: string, releaseYear: string, spotifyLink: string)

  /**
   * The `currentAlbum` object of the generator's JSON answer. A field is
   * `Some(s)` exactly when `as_str()` finds a string there; it is `None` when
   * the key is absent, holds something other than a string, or when
   * `currentAlbum` itself is missing.
   */
  datatype CurrentAlbum = CurrentAlbum(
    name: Option<string>,
    artist: Option<string>,
    releaseDate: Option<string>,
    spotifyId: Option<string>)

  /** The body of a 2xx answer: either `json()` fails to read it, or it is a JSON document. */
  datatype Body = Undecodable(reason: string) | Json(currentAlbum: CurrentAlbum)

  /** The four fields read from `currentAlbum`, in the order the struct literal evaluates them. */
  datatype Field = Name | Artist | ReleaseDate | SpotifyId {
    function Rank(): nat {
      match this
      case Name => 0
      case Artist => 1
      case ReleaseDate => 2
      case SpotifyId => 3
    }
  }

  function Get(c: CurrentAlbum, f: Field): Option<string>
  {
    match f
    case Name => c.name
    case Artist => c.artist
    case ReleaseDate => c.releaseDate
    case SpotifyId => c.spotifyId
  }

  /** Reading the fields either builds the album or panics at the first `unwrap()` that meets `None`. */
  datatype Extracted = Built(album: Album) | Missing(field: Field)

  /** How a `get_album` call ends. `Panicked` is the `unwrap()` panic, which ends the process. */
  datatype Fetch = Fetched(album: Album) | FetchFailed(error: HttpError) | Panicked(field: Field)

  /** The Spotify album link for an identifier; the identifier can be read back from it. */
  function SpotifyLink(id: string): (r: string)
    ensures SpotifyIdOf(r) == Some(id)
  {
    StripPrefixConcat(SPOTIFY_URL + "/", id);
    SPOTIFY_URL + "/" + id
  }

  /** The album identifier a link points to, if it is a Spotify album link. */
  function SpotifyIdOf(link: string): Option<string>
  {
    StripPrefix(SPOTIFY_URL + "/", link)
  }

  /**
   * The field reading of `get_album` after a 2xx answer: an album exactly
   * when all four fields are strings, copied verbatim, with the Spotify
   * identifier turned into a link; otherwise the first absent field.
   */
  function ExtractAlbum(c: CurrentAlbum): (r: Extracted)
    ensures r.Built? <==> c.name.Some? && c.artist.Some? && c.releaseDate.Some? && c.spotifyId.Some?
    ensures r.Built? ==>
      r.album.album == c.name.value && r.album.artist == c.artist.value &&
      r.album.releaseYear == c.releaseDate.value &&
      SpotifyIdOf(r.album.spotifyLink) == Some(c.spotifyId.value)
    ensures r.Missing? ==>
      Get(c, r.field).None? && forall f: Field :: f.Rank() < r.field.Rank() ==> Get(c, f).Some?
  {
    if c.name.None? then Missing(Name)
    else if c.artist.None? then Missing(Artist)
    else if c.releaseDate.None? then Missing(ReleaseDate)
    else if c.spotifyId.None? then Missing(SpotifyId)
    else Built(Album(c.name.value, c.artist.value, c.releaseDate.value, SpotifyLink(c.spotifyId.value)))
  }

  /**
   * What `get_album` returns when its loop stops at attempt `a`: each kind of
   * failure comes from exactly one kind of answer, and an album only from a
   * readable 2xx answer holding all four fields.
   */
  function Outcome(a: Attempt<Body>): (r: Fetch)
    ensures (r.FetchFailed? && r.error.Transport?) <==> a.TransportErr?
    ensures (r.FetchFailed? && r.error.Status?) <==> a.StatusErr?
    ensures (r.FetchFailed? && r.error.Decode?) <==> a.Ok? && a.payload.Undecodable?
    ensures r.Fetched? <==> (a.Ok? && a.payload.Json? &&
      var c := a.payload.currentAlbum;
      c.name.Some? && c.artist.Some? && c.releaseDate.Some? && c.spotifyId.Some?)
    ensures r.Panicked? ==> a.Ok? && a.payload.Json? && Get(a.payload.currentAlbum, r.field).None?
  {
    match a
    case TransportErr(reason) => FetchFailed(Transport(reason))
    case StatusErr(code) => FetchFailed(Status(code))
    case Ok(Undecodable(reason)) => FetchFailed(Decode(reason))
    case Ok(Json(c)) =>
      match ExtractAlbum(c)
      case Built(album) => Fetched(album)
      case Missing(f) => Panicked(f)
  }

  /**
   * The retry loop of `get_album`. `net(i)` is what the i-th GET yields;
   * `requests` lists the URLs requested, `log` the retry diagnostics, and
   * `slept` the seconds spent in `thread::sleep`.
   */
  method GetAlbum(net: nat -> Attempt<Body>, generatorApiUrl: string, retryLimit: u8, sleepSecs: u64)
    returns (r: Fetch, requests: seq<string>, log: seq<Diagnostic>, slept: nat)
    ensures |requests| == Retries(net, retryLimit as nat) + 1
    ensures forall i :: 0 <= i < |requests| ==> requests[i] == generatorApiUrl
    ensures |log| == |requests| - 1
    ensures forall j :: 0 <= j < |log| ==>
      net(j).StatusErr? && log[j] == Note(net(j).code, sleepSecs, j + 1, retryLimit)
    ensures slept == |log| * sleepSecs as nat
    ensures r == Outcome(net(|log|))
  {
    var retry: u8 := 0;
    requests, log, slept := [], [], 0;
    while true
      invariant retry <= retryLimit
      invariant |requests| == |log| == retry as nat
      invariant forall i :: 0 <= i < |requests| ==> requests[i] == generatorApiUrl
      invariant forall j :: 0 <= j < |log| ==>
        net(j).StatusErr? && log[j] == Note(net(j).code, sleepSecs, j + 1, retryLimit)
      invariant slept == |log| * sleepSecs as nat
      decreases retryLimit as int - retry as int
    {
      requests := requests + [generatorApiUrl];
      var resp := net(retry as nat);
      match resp {
        case TransportErr(reason) =>
          // `send()?` returns the transport error at once
          RetriesUnique(net, retryLimit as nat, retry as nat);
          r := FetchFailed(Transport(reason));
          return;
        case Ok(body) =>
          RetriesUnique(net, retryLimit as nat, retry as nat);
          match body {
            case Undecodable(reason) =>
              // `json()?` returns the decode error at once
              r := FetchFailed(Decode(reason));
            case Json(c) =>
              var extracted := ExtractAlbum(c);
              r := if extracted.Built? then Fetched(extracted.album) else Panicked(extracted.field);
          }
          return;
        case StatusErr(code) =>
          if retry < retryLimit {
            retry := retry + 1;
            log := log + [Note(code, sleepSecs, retry as nat, retryLimit)];
            slept := slept + sleepSecs as nat;
          } else {
            RetriesUnique(net, retryLimit as nat, retry as nat);
            r := FetchFailed(Status(code));
            return;
          }
      }
    }
  }

  /**
   * A 2xx answer whose body lacks one of the four fields ends `get_album`
   * with the panic at that attempt: it is never retried, whatever retries remain.
   */
  lemma MalformedAnswerNotRetried(net: nat -> Attempt<Body>, limit: nat, k: nat, c: CurrentAlbum)
    requires k <= limit
    requires forall i :: 0 <= i < k ==> net(i).StatusErr?
    requires net(k) == Ok(Json(c))
    requires c.name.None? || c.artist.None? || c.releaseDate.None? || c.spotifyId.None?
    ensures Retries(net, limit) == k
    ensures Outcome(net(k)).Panicked? && Get(c, Outcome(net(k)).field).None?
  {
    RetriesUnique(net, limit, k);
  }

  /** A body that `json()` cannot read ends `get_album` with the decode error, without a retry. */
  lemma UndecodableAnswerNotRetried(net: nat -> Attempt<Body>, limit: nat, k: nat, reason: string)
    requires k <= limit
    requires forall i :: 0 <= i < k ==> net(i).StatusErr?
    requires net(k) == Ok(Undecodable(reason))
    ensures Retries(net, limit) == k
    ensures Outcome(net(k)) == FetchFailed(Decode(reason))
  {
    RetriesUnique(net, limit, k);
  }

  /**
   * A complete answer after `k <= limit` error statuses yields the album
   * whose fields are the answer's, after exactly `k` retries.
   */
  lemma CompleteAnswerFetched(net: nat -> Attempt<Body>, limit: nat, k: nat, c: CurrentAlbum)
    requires k <= limit
    requires forall i :: 0 <= i < k ==> net(i).StatusErr?
    requires net(k) == Ok(Json(c))
    requires c.name.Some? && c.artist.Some? && c.releaseDate.Some? && c.spotifyId.Some?
    ensures Retries(net, limit) == k
    ensures Outcome(net(k)) ==
      Fetched(Album(c.name.value, c.artist.value, c.releaseDate.value, SpotifyLink(c.spotifyId.value)))
  {
    RetriesUnique(net, limit, k);
  }
}
