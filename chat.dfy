/** The chat platform as the command handlers see it: API calls with their payloads, the
    replies the platform gives, and a client object that records every call it is asked to make. */
module Chat {
  import opened Wrappers
  import opened Text

  /** The Web API method a call goes to; `Named` stands for any other method, chosen by code
      outside this model. */
  datatype Method = ChatPostMessage | ChatPostEphemeral | Named(name: string)

  /** Rich content attached to a message; its fields are built outside this model. */
  datatype Attachment = NotClaimed

  /** The arguments of an API call. `user` is set for ephemeral posts (who may see it),
      `threadTs` for replies in a thread. */
  datatype Payload = Payload(
    channel: string,
    user: Option<string>,
    text: string,
    threadTs: Option<string>,
    asUser: bool,
    attachments: seq<Attachment>)

  datatype ApiCall = ApiCall(apiMethod: Method, payload: Payload)

  /** What the platform answers: the server time stamp of an accepted post, or an error
      (the client raises `SlackAPIError`). */
  datatype Reply = Ok(ts: string) | ApiError

  /** The exceptions a handler can end with: the chat client's own error, or a failure of
      another service (an HTTP error raised by the HTTP session). */
  datatype Failure = SlackApiError | ServiceError

  /** How a handler ends: it returns normally or raises. */
  datatype Outcome = Returned | Raised(failure: Failure)

  /** Everything one handler invocation does: the calls it issues, in order, and how it ends. */
  datatype Run = Run(calls: seq<ApiCall>, outcome: Outcome)

  /** How a handler ends after a post whose reply is `r`, when that post is its last step. */
  function Posted(r: Reply): (o: Outcome)
    ensures o == Returned <==> r.Ok?
    ensures o != Returned ==> o == Raised(SlackApiError)
  {
    if r.ApiError? then Raised(SlackApiError) else Returned
  }

  /** A plain channel message, optionally a reply in the thread of `threadTs`. */
  function ChannelMessage(channel: string, text: string, threadTs: Option<string>): Payload {
    Payload(channel, None, text, threadTs, false, [])
  }

  /** The chat client. The platform is scripted: the call with index k receives `respond(k)`. */
  class SlackApi {
    const respond: nat -> Reply
    var calls: seq<ApiCall>

    constructor (respond: nat -> Reply)
      ensures this.respond == respond && calls == []
    {
      this.respond := respond;
      calls := [];
    }

    /** `slack.query(method, payload)`: the call is recorded whatever the platform replies. */
    method Query(call: ApiCall) returns (r: Reply)
      modifies this
      ensures calls == old(calls) + [call]
      ensures r == respond(|old(calls)|)
    {
      r := respond(|calls|);
      calls := calls + [call];
    }
  }

  /** The mark-up that mentions a user: "<@U123>". */
  function Mention(user: string): string {
    "<@" + user + ">"
  }

  /** Reads a mention at the start of `s`: the user id and the text after the mention. */
  function ParseMention(s: string): (r: Option<(string, string)>)
    ensures r.Some? ==> s == Mention(r.value.0) + r.value.1 && '>' !in r.value.0
  {
    var rest :- StripPrefix("<@", s);
    var p :- Cut(rest, '>');
    Some(p)
  }

  /** A mention of a user id without '>' is read back exactly, whatever follows it. */
  lemma MentionRoundTrip(user: string, rest: string)
    requires '>' !in user
    ensures ParseMention(Mention(user) + rest) == Some((user, rest))
  {
    assert Mention(user) + rest == "<@" + (user + ['>'] + rest);
    CutAt(user, '>', rest);
  }
}
