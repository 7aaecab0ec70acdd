# 1001 Albums Generator → GroupMe notifier, modelled in Dafny

The program runs once per invocation. It asks the 1001 Albums Generator for a
group's current album, writes an announcement, and posts it to a GroupMe bot.
Both remote calls sit in the same bounded retry loop with a fixed delay. An
error status is retried up to `retry_limit` times, with one sleep of
`sleep_secs` before each retry. The first error of any other kind ends the
call at once.

The model has seven modules in six files:

- `Retry` (retry.dfy) states the loop's stopping rule once. `Retries(net, limit)`
  is the number of retries a loop performs when `net(i)` is what attempt `i`
  yields. It also holds the lemmas for exhaustion, recovery and the
  transport-error escape.
- `Fetcher` (fetcher.dfy) models `get_album`. `GetAlbum` is the imperative
  loop, proved against `Retries` and `Outcome`. `ExtractAlbum` reads the four
  `currentAlbum` fields.
- `Notifier` (notifier.dfy) models `send_message`. `SendMessage` is its loop,
  and the POST body is built once before the loop.
- `Formatter` (formatter.dfy) models `get_message`. The date is passed in as a
  parameter.
- `Decimal` and `Text` (text.dfy) render numbers without padding and supply
  the small string helpers.
- `Orchestrator` (orchestrator.dfy) models `main`. It builds the two generator
  URLs and runs fetch, format and send in order, with the fixed policy of 10
  retries and 60 seconds.

How the source's state is represented:

- The `retry: u8` counter is a `u8` newtype. Incrementing it under
  `retry < retry_limit` must stay in range, so the verifier proves the
  increment never overflows.
- `thread::sleep` becomes an accumulated `slept` count of seconds.
- The two `println!` lines before each sleep become one `Waiting` record in
  `log`, carrying the error, the seconds, `k` and `N` of "Retry k/N".
- Each loop returns the requests it issued, so the model shows that the same
  URL or the same `{bot_id, text}` body goes out on every attempt.

Three points about the code that a reader might expect otherwise:

- Only an error status rejected by `error_for_status()` is retried. A
  transport failure of `send()?` (src/main.rs:34, src/main.rs:108) and a body
  that `json()?` cannot read (src/main.rs:37) end the call at the first
  occurrence.
- The limit of 10 counts retries, not attempts, so a call makes at most 11
  attempts.
- Each album field only has to be a string, so an empty title, artist, date
  or identifier is accepted.

## Model

| member | source | states |
|---|---|---|
| Retry.FirstStop | src/main.rs:53-64 | a loop that has retried `from` times stops at an attempt between `from` and `retry_limit` |
| Retry.Retries | src/main.rs:54-55 | a loop never retries more than `retry_limit` times, so the `u8` counter stays within its limit |
| Retry.FirstStopSkipsStatusErrors | src/main.rs:53-61 | every attempt before the stopping one failed with an error status |
| Retry.FirstStopHalts | src/main.rs:34-52 | before the limit, a loop stops only at an attempt that is not an error status |
| Retry.FirstStopIsLeast | src/main.rs:32-67 | any attempt index that meets the stopping rule is the one the loop stops at |
| Retry.RetriesStopRule | src/main.rs:33-66 | the retry count meets the stopping rule: only status errors come before it, and it is not one unless the limit was reached |
| Retry.RetriesUnique | src/main.rs:33-66 | the converse: a count that meets the stopping rule is the retry count |
| Retry.ExhaustsOnStatusErrors | src/main.rs:53-64 | if every attempt is an error status, the loop retries exactly N times (N+1 attempts) and returns the last status error |
| Retry.RecoversAfterStatusErrors | src/main.rs:35-55 | if k ≤ N error statuses are followed by a success, the loop retries exactly k times and returns that success |
| Retry.TransportErrorEscapes | src/main.rs:34 | a transport failure ends the loop at that attempt with the transport error, whatever retries remain |
| Retry.Settle | src/main.rs:104-127 | `send_message` returns success exactly when the attempt it stops at succeeded, with that payload; otherwise the error status with its code, or the transport error; never a decode error |
| Fetcher.SpotifyLink | src/main.rs:45-49 | the link is built so that the album identifier can be read back from it |
| Fetcher.ExtractAlbum | src/main.rs:38-50 | an album is built exactly when all four fields are strings; the first three are copied verbatim and the link is `SPOTIFY_URL/` followed by the id; otherwise it fails at the first absent field in evaluation order |
| Fetcher.Outcome | src/main.rs:34-51 | a transport error, an error status and an unreadable body each end the call with their own kind of error; an album comes exactly from a readable 2xx answer holding all four fields; a panic names a field the answer lacks |
| Fetcher.GetAlbum | src/main.rs:26-68 | issues Retries+1 GETs of the same URL; logs "Retry k/N" for k = 1..Retries, each after a status error; sleeps `sleep_secs` once per retry; returns the outcome of the attempt it stops at |
| Fetcher.MalformedAnswerNotRetried | src/main.rs:36-51 | a 2xx answer missing a field ends the call with the panic at that attempt and is never retried |
| Fetcher.UndecodableAnswerNotRetried | src/main.rs:37 | a body that `json()` cannot read ends the call with the decode error and is never retried |
| Fetcher.CompleteAnswerFetched | src/main.rs:36-51 | a complete answer after k ≤ N error statuses yields, after k retries, the album holding the answer's fields |
| Notifier.SendMessage | src/main.rs:91-130 | posts the same `{bot_id, text}` body to the GroupMe endpoint Retries+1 times; logs "Retry k/N" and sleeps once per retry; returns success or the error it stops at |
| Decimal.NatToString | src/main.rs:78-79 | month and day are written as digits only, with a leading '0' exactly for 0 |
| Decimal.NatToStringCanonical | src/main.rs:78-79 | a rendered number has no zero padding |
| Decimal.ParseNatToString | src/main.rs:78-79 | reading a rendered number back gives the number |
| Decimal.NatToStringOfParse | src/main.rs:78-79 | every unpadded numeral is the rendering of its own value, so rendering is a bijection onto unpadded numerals |
| Decimal.NatToStringInjective | src/main.rs:78-79 | distinct numbers are rendered differently |
| Decimal.IntToString | src/main.rs:80 | the year is written as digits, with a leading '-' only when it is negative |
| Decimal.ParseIntToString | src/main.rs:80 | reading a rendered year back gives the year |
| Formatter.DateText | src/main.rs:74-80 | the header date is written with digits, '/' and a '-' sign only, so it holds no line break |
| Formatter.ParseDateText | src/main.rs:74-80 | the `month/day/year` header date reads back as the same date, so the three numbers cannot run into each other |
| Formatter.GetMessage | src/main.rs:70-89 | the announcement's first line is exactly the header followed by the date |
| Formatter.MessageDateRoundTrip | src/main.rs:71-80 | the date in the announcement's header line reads back as the date the announcement was formatted with |
| Formatter.MessageCarriesInputs | src/main.rs:73-86 | the announcement carries the album, artist, release date, link and group URL verbatim, in that order, and ends with a line break |
| Formatter.ExampleDate | src/main.rs:74-80 | 15 March 2024 is written `3/15/2024` |
| Formatter.ExampleMessage | src/main.rs:73-86 | the complete announcement for "OK Computer" by Radiohead on 15 March 2024, as literal pieces split where the template inserts a value |
| Orchestrator.ApiUrl | src/main.rs:143 | the API URL is `GENERATOR_URL/api/v1/groups/` followed by the group, which can be read back from it |
| Orchestrator.GroupUrl | src/main.rs:151 | the group page URL is `GENERATOR_URL/groups/` followed by the group, which can be read back from it |
| Orchestrator.ApiUrlIsNotGroupUrl | src/main.rs:143 | no API URL equals any group page URL |
| Orchestrator.Run | src/main.rs:132-156 | GETs the group's API URL Retries+1 times; posts nothing unless the album was fetched, and then posts that album's announcement with the group page URL; ends delivered or with the first failing stage; sleeps at most 2 × 10 × 60 seconds |

## Left out

- The HTTP client (`reqwest`) is left out. The response to each attempt is an input: a transport failure, a status rejected by `error_for_status()`, or a response with a body. Which status codes `error_for_status()` rejects is reqwest's rule and is not part of this model.
- JSON decoding (`serde_json`) is left out. A 2xx body is either undecodable or a record of four optional strings. Each field is `None` when the key is absent, when its value is not a string, or when `currentAlbum` itself is missing.
- Wall-clock time is left out: `thread::sleep` only adds to a count of seconds.
- The clock (`chrono::Local::now()`) is left out: the month, day and year are a parameter.
- Configuration loading (`dotenv`, `env::var("BOT_ID")`, `env::var("GROUP")` and their `expect` panics) is left out: the bot id and the group are parameters of `Run`.
- Console output is left out apart from the retry diagnostics. This covers the "Message sent" line and the exact wording of each line.
- A panic ending the process is modelled as a returned value (`Panicked`, or an `Exit` other than `Delivered`). Process exit codes and the stderr text are left out.
- Orchestrator.Run: returns the requests, posts and seconds slept, but not the retry diagnostics of its two calls. GetAlbum and SendMessage state those.
