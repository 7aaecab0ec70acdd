/** `send_message`: post the announcement to the GroupMe bot endpoint, retrying error statuses. */
module Notifier {
  import opened Retry

  const GROUPME_API_URL := "https://api.groupme.com/v3/bots/post"

  /** The JSON body `{bot_id, text}` of the POST. */
  datatype Message = Message(botId: string, text: string)

  /** One POST request as issued: the endpoint and its JSON body. */
  datatype Post = Post(url: string, json: Message)

  /**
   * The retry loop of `send_message`. `net(i)` is what the i-th POST yields;
   * `posted` lists the requests issued, `log` the retry diagnostics, and
   * `slept` the seconds spent in `thread::sleep`. The body is built once,
   * before the loop, so every attempt posts the same request.
   */
  method SendMessage(net: nat -> Attempt<()>, botId: string, message: string, retryLimit: u8, sleepSecs: u64)
    returns (r: Result<()>, posted: seq<Post>, log: seq<Diagnostic>, slept: nat)
    ensures |posted| == Retries(net, retryLimit as nat) + 1
    ensures forall i :: 0 <= i < |posted| ==> posted[i] == Post(GROUPME_API_URL, Message(botId, message))
    ensures |log| == |posted| - 1
    ensures forall j :: 0 <= j < |log| ==>
      net(j).StatusErr? && log[j] == Note(net(j).code, sleepSecs, j + 1, retryLimit)
    ensures slept == |log| * sleepSecs as nat
    ensures r == Settle(net(|log|))
  {
    var json := Message(botId, message);
    var retry: u8 := 0;
    posted, log, slept := [], [], 0;
    while true
      invariant retry <= retryLimit
      invariant |posted| == |log| == retry as nat
      invariant forall i :: 0 <= i < |posted| ==> posted[i] == Post(GROUPME_API_URL, json)
      invariant forall j :: 0 <= j < |log| ==>
        net(j).StatusErr? && log[j] == Note(net(j).code, sleepSecs, j + 1, retryLimit)
      invariant slept == |log| * sleepSecs as nat
      decreases retryLimit as int - retry as int
    {
      posted := posted + [Post(GROUPME_API_URL, json)];
      var resp := net(retry as nat);
      match resp {
        case TransportErr(reason) =>
          // `send()?` returns the transport error at once
          RetriesUnique(net, retryLimit as nat, retry as nat);
          r := Failure(Transport(reason));
          return;
        case Ok(v) =>
          RetriesUnique(net, retryLimit as nat, retry as nat);
          r := Success(v);
          return;
        case StatusErr(code) =>
          if retry < retryLimit {
            retry := retry + 1;
            log := log + [Note(code, sleepSecs, retry as nat, retryLimit)];
            slept := slept + sleepSecs as nat;
          } else {
            RetriesUnique(net, retryLimit as nat, retry as nat);
            r := Failure(Status(code));
            return;
          }
      }
    }
  }
}
