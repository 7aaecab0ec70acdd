/**
 * `main`: build the generator URLs for the group, fetch the album, format
 * the announcement and post it, with the fixed policy of 10 retries and 60
 * seconds between attempts. The bot id and group name, read from the
 * environment by the program, are parameters here.
 */
module Orchestrator {
  import opened Text
  import opened Retry
  import opened Fetcher
  import opened Formatter
  import opened Notifier

  const GENERATOR_URL := "https://1001albumsgenerator.com"
  const RETRY_LIMIT: u8 := 10
  const SLEEP_SECS: u64 := 60

  const API_PREFIX := GENERATOR_URL + "/api/v1/groups/"
  const GROUP_PREFIX := GENERATOR_URL + "/groups/"

  /** The generator's API endpoint for a group, which names the group it was built for. */
  function ApiUrl(group: string): (r: string)
    ensures GroupOfApiUrl(r) == Some(group)
  {
    StripPrefixConcat(API_PREFIX, group);
    API_PREFIX + group
  }

  /** The generator's web page of a group, quoted in the announcement; it names the group it was built for. */
  function GroupUrl(group: string): (r: string)
    ensures GroupOfGroupUrl(r) == Some(group)
  {
    StripPrefixConcat(GROUP_PREFIX, group);
    GROUP_PREFIX + group
  }

  /** The group an API URL names, if it is one. */
  function GroupOfApiUrl(url: string): Option<string>
  {
    StripPrefix(API_PREFIX, url)
  }

  /** The group a group page URL names, if it is one. */
  function GroupOfGroupUrl(url: string): Option<string>
  {
    StripPrefix(GROUP_PREFIX, url)
  }

  /** No API URL is a group page URL, whatever the two groups. */
  lemma ApiUrlIsNotGroupUrl(g1: string, g2: string)
    ensures ApiUrl(g1) != GroupUrl(g2)
  {
    var n := |GENERATOR_URL| + 1;
    assert ApiUrl(g1)[n] == 'a';
    assert GroupUrl(g2)[n] == 'g';
  }

  /** How a run of the program ends: delivery, or the panic that aborts it. */
  datatype Exit =
    | Delivered
    | AlbumFailed(error: HttpError)     // `get_album(...).expect("Could not get album")`
    | AlbumPanicked(field: Field)       // an `unwrap()` inside `get_album`
    | SendFailed(error: HttpError)      // `send_message(...).expect("Could not send message")`

  /**
   * One run of `main`. `generator(i)` and `groupme(i)` are what the i-th GET
   * and the i-th POST yield. Nothing is posted unless the album was fetched,
   * and the post carries the announcement of exactly that album.
   */
  method Run(botId: string, group: string, today: Date,
             generator: nat -> Attempt<Body>, groupme: nat -> Attempt<()>)
    returns (exit: Exit, requests: seq<string>, posted: seq<Post>, slept: nat)
    ensures |requests| == Retries(generator, RETRY_LIMIT as nat) + 1
    ensures forall i :: 0 <= i < |requests| ==> requests[i] == ApiUrl(group)
    ensures match Outcome(generator(Retries(generator, RETRY_LIMIT as nat)))
      case FetchFailed(e) =>
        exit == AlbumFailed(e) && posted == [] && slept == (|requests| - 1) * 60
      case Panicked(f) =>
        exit == AlbumPanicked(f) && posted == [] && slept == (|requests| - 1) * 60
      case Fetched(album) =>
        |posted| == Retries(groupme, RETRY_LIMIT as nat) + 1 &&
        (forall i :: 0 <= i < |posted| ==>
          posted[i] == Post(GROUPME_API_URL, Message(botId, GetMessage(album, GroupUrl(group), today)))) &&
        exit == (if Settle(groupme(|posted| - 1)).Success? then Delivered
                 else SendFailed(Settle(groupme(|posted| - 1)).error)) &&
        slept == (|requests| - 1 + |posted| - 1) * 60
    ensures slept <= 2 * 10 * 60
  {
    var generatorApiUrl := ApiUrl(group);
    var fetched, log, sleptFetching;
    fetched, requests, log, sleptFetching := GetAlbum(generator, generatorApiUrl, RETRY_LIMIT, SLEEP_SECS);
    posted := [];
    slept := sleptFetching;
    match fetched {
      case FetchFailed(e) =>
        exit := AlbumFailed(e);
      case Panicked(f) =>
        exit := AlbumPanicked(f);
      case Fetched(album) =>
        var generatorGroupUrl := GroupUrl(group);
        var message := GetMessage(album, generatorGroupUrl, today);
        var sent, sendLog, sleptSending;
        sent, posted, sendLog, sleptSending := SendMessage(groupme, botId, message, RETRY_LIMIT, SLEEP_SECS);
        slept := slept + sleptSending;
        exit := if sent.Success? then Delivered else SendFailed(sent.error);
    }
  }
}
