/** The slash-command handlers of `pybot/endpoints/slack/commands.py` and the decorator that
    turns a chat-client error into a private notice to the user. Each handler is a method
    that issues its calls through a `SlackApi` and is proved equal to a function that
    states, for every reply of the platform, which calls it makes and how it ends. */
module Commands {
  import opened Wrappers
  import opened Text
  import opened PyInt
  import opened Chat
  import opened Rand
  import opened DiceRoll

  /** The fields of an incoming slash command that the handlers read. */
  datatype Command = Command(
    channelId: string,
    userId: string,
    userName: string,
    text: string,
    triggerId: string,
    command: string)

  /** The answer of an HTTP request to another service: it failed to complete (the session
      raises), or it came back with a status and a decoded body. */
  datatype HttpReply<T> = Unreachable | Response(status: int, body: T)

  /** Configuration and the collaborators whose code is not part of this model.
      `moderation(user, channel)` is the moderator lookup of `/here` and gives the length of
      the decoded body; `hereMessages` is `get_slash_here_messages` (the announcement and the
      member list); `lunchSearch` is the restaurant search of `LunchCommand` together with
      the ephemeral message `select_random_lunch` builds from its result;
      `repeatMessages` is `get_slash_repeat_messages`. */
  datatype Services = Services(
    moderatorChannel: string,
    moderation: (string, string) -> HttpReply<nat>,
    hereMessages: (string, string, string) -> (string, string),
    lunchSearch: Command -> HttpReply<Payload>,
    repeatMessages: (string, string, string) -> ApiCall)

  datatype Handler = Here | Lunch | Repeat | Report | Roll

  // ----- /report -----

  /** "<@U> sent report: <text>". */
  function ReportText(user: string, text: string): (m: string)
    ensures Mention(user) <= m
    ensures |text| <= |m| && m[|m| - |text|..] == text
  {
    var m := Mention(user) + " sent report: " + text;
    assert m[..|Mention(user)|] == Mention(user);
    m
  }

  function ParseReportText(m: string): Option<(string, string)> {
    var mention :- ParseMention(m);
    var text :- StripPrefix(" sent report: ", mention.1);
    Some((mention.0, text))
  }

  /** The report names its sender and carries the reported text unchanged. */
  lemma ReportTextRoundTrip(user: string, text: string)
    requires '>' !in user
    ensures ParseReportText(ReportText(user, text)) == Some((user, text))
  {
    assert ReportText(user, text) == Mention(user) + (" sent report: " + text);
    MentionRoundTrip(user, " sent report: " + text);
  }

  /** `/report`: one message to the moderators' channel, with the claim attachment. */
  function ReportRun(cmd: Command, svc: Services, respond: nat -> Reply, k: nat): (r: Run)
    ensures |r.calls| == 1 && r.outcome == Posted(respond(k))
    ensures r.calls[0].apiMethod == ChatPostMessage
    ensures r.calls[0].payload.channel == svc.moderatorChannel
    ensures r.calls[0].payload.user == None && r.calls[0].payload.threadTs == None && !r.calls[0].payload.asUser
    ensures r.calls[0].payload.attachments == [NotClaimed]
    ensures '>' !in cmd.userId ==> ParseReportText(r.calls[0].payload.text) == Some((cmd.userId, cmd.text))
  {
    var message := ReportText(cmd.userId, cmd.text);
    assert '>' !in cmd.userId ==> ParseReportText(message) == Some((cmd.userId, cmd.text)) by {
      if '>' !in cmd.userId {
        ReportTextRoundTrip(cmd.userId, cmd.text);
      }
    }
    var payload := Payload(svc.moderatorChannel, None, message, None, false, [NotClaimed]);
    Run([ApiCall(ChatPostMessage, payload)], Posted(respond(k)))
  }

  method SlashReport(cmd: Command, svc: Services, api: SlackApi) returns (o: Outcome)
    modifies api
    ensures api.calls == old(api.calls) + ReportRun(cmd, svc, api.respond, |old(api.calls)|).calls
    ensures o == ReportRun(cmd, svc, api.respond, |old(api.calls)|).outcome
  {
    var message := ReportText(cmd.userId, cmd.text);
    var payload := Payload(svc.moderatorChannel, None, message, None, false, [NotClaimed]);
    var reply := api.Query(ApiCall(ChatPostMessage, payload));
    o := Posted(reply);
  }

  // ----- /here -----

  /** The moderator lookup allows the broadcast: a status below 400 and a non-empty body. */
  predicate Authorised(reply: HttpReply<nat>) {
    reply.Response? && reply.status < 400 && reply.body > 0
  }

  /** `/here`: a denied or empty lookup posts nothing; otherwise the announcement goes to the
      channel and the member list follows in its thread. */
  function HereRun(cmd: Command, svc: Services, respond: nat -> Reply, k: nat): (r: Run)
    ensures svc.moderation(cmd.userId, cmd.channelId).Unreachable? ==> r == Run([], Raised(ServiceError))
    ensures svc.moderation(cmd.userId, cmd.channelId).Response? && !Authorised(svc.moderation(cmd.userId, cmd.channelId))
      ==> r == Run([], Returned)
    ensures Authorised(svc.moderation(cmd.userId, cmd.channelId)) ==>
      && 1 <= |r.calls| <= 2
      && (|r.calls| == 2 <==> respond(k).Ok?)
      && (forall j :: 0 <= j < |r.calls| ==>
            r.calls[j].apiMethod == ChatPostMessage && r.calls[j].payload.channel == cmd.channelId)
      && r.calls[0].payload.text == svc.hereMessages(cmd.userId, cmd.channelId, cmd.text).0
      && r.calls[0].payload.threadTs == None
    ensures Authorised(svc.moderation(cmd.userId, cmd.channelId)) && respond(k).Ok? ==>
      && r.calls[1].payload.text == svc.hereMessages(cmd.userId, cmd.channelId, cmd.text).1
      && r.calls[1].payload.threadTs == Some(respond(k).ts)
      && r.outcome == Posted(respond(k + 1))
    ensures Authorised(svc.moderation(cmd.userId, cmd.channelId)) && respond(k).ApiError? ==>
      r.outcome == Raised(SlackApiError)
  {
    match svc.moderation(cmd.userId, cmd.channelId)
    case Unreachable => Run([], Raised(ServiceError))
    case Response(status, size) =>
      if status >= 400 || size == 0 then Run([], Returned)
      else
        var (message, memberList) := svc.hereMessages(cmd.userId, cmd.channelId, cmd.text);
        var first := ApiCall(ChatPostMessage, ChannelMessage(cmd.channelId, message, None));
        match respond(k)
        case ApiError => Run([first], Raised(SlackApiError))
        case Ok(ts) =>
          var second := ApiCall(ChatPostMessage, ChannelMessage(cmd.channelId, memberList, Some(ts)));
          Run([first, second], Posted(respond(k + 1)))
  }

  /** The gate of `/here`: it posts anything at all exactly when the moderator lookup
      succeeds with a status below 400 and a non-empty body. */
  lemma HereGate(cmd: Command, svc: Services, respond: nat -> Reply, k: nat)
    ensures HereRun(cmd, svc, respond, k).calls != [] <==> Authorised(svc.moderation(cmd.userId, cmd.channelId))
  {
  }

  method SlashHere(cmd: Command, svc: Services, api: SlackApi) returns (o: Outcome)
    modifies api
    ensures api.calls == old(api.calls) + HereRun(cmd, svc, api.respond, |old(api.calls)|).calls
    ensures o == HereRun(cmd, svc, api.respond, |old(api.calls)|).outcome
  {
    var lookup := svc.moderation(cmd.userId, cmd.channelId);
    if lookup.Unreachable? {
      return Raised(ServiceError);
    }
    if lookup.status >= 400 {
      return Returned;
    }
    if lookup.body == 0 {
      return Returned;
    }
    var (message, memberList) := svc.hereMessages(cmd.userId, cmd.channelId, cmd.text);
    var reply := api.Query(ApiCall(ChatPostMessage, ChannelMessage(cmd.channelId, message, None)));
    if reply.ApiError? {
      return Raised(SlackApiError);
    }
    var timestamp := reply.ts;
    reply := api.Query(ApiCall(ChatPostMessage, ChannelMessage(cmd.channelId, memberList, Some(timestamp))));
    o := Posted(reply);
  }

  // ----- /lunch -----

  /** `/lunch`: a failed search raises (`raise_for_status`); otherwise the selection is
      posted privately to the user. */
  function LunchRun(cmd: Command, svc: Services, respond: nat -> Reply, k: nat): (r: Run)
    ensures r.outcome == Raised(ServiceError) <==>
      svc.lunchSearch(cmd).Unreachable? || svc.lunchSearch(cmd).status >= 400
    ensures r.outcome == Raised(ServiceError) ==> r.calls == []
    ensures r.outcome != Raised(ServiceError) ==>
      r.calls == [ApiCall(ChatPostEphemeral, svc.lunchSearch(cmd).body)] && r.outcome == Posted(respond(k))
  {
    match svc.lunchSearch(cmd)
    case Unreachable => Run([], Raised(ServiceError))
    case Response(status, selection) =>
      if status >= 400 then Run([], Raised(ServiceError))
      else Run([ApiCall(ChatPostEphemeral, selection)], Posted(respond(k)))
  }

  method SlashLunch(cmd: Command, svc: Services, api: SlackApi) returns (o: Outcome)
    modifies api
    ensures api.calls == old(api.calls) + LunchRun(cmd, svc, api.respond, |old(api.calls)|).calls
    ensures o == LunchRun(cmd, svc, api.respond, |old(api.calls)|).outcome
  {
    var search := svc.lunchSearch(cmd);
    if search.Unreachable? || search.status >= 400 {
      return Raised(ServiceError);
    }
    var reply := api.Query(ApiCall(ChatPostEphemeral, search.body));
    o := Posted(reply);
  }

  // ----- /repeat -----

  /** `/repeat`: forwards the call chosen by `get_slash_repeat_messages`, nothing else, and
      ends as that one query does. */
  function RepeatRun(cmd: Command, svc: Services, respond: nat -> Reply, k: nat): (r: Run)
    ensures |r.calls| == 1 && r.calls[0] == svc.repeatMessages(cmd.userId, cmd.channelId, cmd.text)
    ensures r.outcome == Returned <==> respond(k).Ok?
  {
    Run([svc.repeatMessages(cmd.userId, cmd.channelId, cmd.text)], Posted(respond(k)))
  }

  method SlashRepeat(cmd: Command, svc: Services, api: SlackApi) returns (o: Outcome)
    modifies api
    ensures api.calls == old(api.calls) + RepeatRun(cmd, svc, api.respond, |old(api.calls)|).calls
    ensures o == RepeatRun(cmd, svc, api.respond, |old(api.calls)|).outcome
  {
    var call := svc.repeatMessages(cmd.userId, cmd.channelId, cmd.text);
    var reply := api.Query(call);
    o := Posted(reply);
  }

  // ----- /roll -----

  /** The private usage notice for a text `/roll` cannot read. */
  function UsageCall(cmd: Command): (c: ApiCall)
    ensures c.apiMethod == ChatPostEphemeral
    ensures c.payload.user == Some(cmd.userId) && c.payload.channel == cmd.channelId
    ensures c.payload.text == UsageText
    ensures !c.payload.asUser && c.payload.threadTs == None && c.payload.attachments == []
  {
    ApiCall(ChatPostEphemeral, Payload(cmd.channelId, Some(cmd.userId), UsageText, None, false, []))
  }

  /** The number of draws `/roll` takes from the generator. */
  function RollDraws(cmd: Command): nat {
    match ParseRoll(cmd.text)
    case None => 0
    case Some(spec) => spec.count as nat
  }

  /** `/roll`: exactly one post. A text it cannot read gets the private usage notice to the
      user in that channel; otherwise the roll is announced in the channel. */
  function RollRun(cmd: Command, respond: nat -> Reply, entropy: nat -> nat, draws: nat, k: nat): (r: Run)
    ensures |r.calls| == 1 && r.outcome == Posted(respond(k))
    ensures r.calls[0].apiMethod == ChatPostEphemeral <==> ParseRoll(cmd.text).None?
    ensures ParseRoll(cmd.text).None? ==>
      && r.calls[0].payload.user == Some(cmd.userId)
      && r.calls[0].payload.channel == cmd.channelId
      && r.calls[0].payload.text == UsageText
      && !r.calls[0].payload.asUser && r.calls[0].payload.attachments == []
    ensures ParseRoll(cmd.text).Some? ==>
      && r.calls[0].apiMethod == ChatPostMessage
      && r.calls[0].payload.channel == cmd.channelId
      && r.calls[0].payload.user == None
      && !r.calls[0].payload.asUser && r.calls[0].payload.threadTs == None
      && r.calls[0].payload.attachments == []
  {
    match ParseRoll(cmd.text)
    case None => Run([UsageCall(cmd)], Posted(respond(k)))
    case Some(spec) =>
      var dice := Dice(entropy, draws, spec.count, spec.sides);
      var message := RollMessage(cmd.userId, spec, dice);
      Run([ApiCall(ChatPostMessage, ChannelMessage(cmd.channelId, message, None))], Posted(respond(k)))
  }

  /** An accepted roll is announced with the user, N and S it was asked for, and N dice
      each in [1, S + 1]. */
  lemma RollAnnounced(cmd: Command, respond: nat -> Reply, entropy: nat -> nat, draws: nat, k: nat)
    requires ParseRoll(cmd.text).Some? && '>' !in cmd.userId
    ensures AnnouncesRoll(RollRun(cmd, respond, entropy, draws, k).calls[0].payload.text,
                          cmd.userId, ParseRoll(cmd.text).value)
  {
    var spec := ParseRoll(cmd.text).value;
    var dice := Dice(entropy, draws, spec.count, spec.sides);
    assert RollRun(cmd, respond, entropy, draws, k).calls[0].payload.text == RollMessage(cmd.userId, spec, dice);
    RollMessageAnnounces(cmd.userId, spec, dice);
  }

  method SlashRoll(cmd: Command, api: SlackApi, rng: Random) returns (o: Outcome)
    modifies api, rng
    ensures api.calls == old(api.calls) + RollRun(cmd, api.respond, rng.entropy, old(rng.draws), |old(api.calls)|).calls
    ensures o == RollRun(cmd, api.respond, rng.entropy, old(rng.draws), |old(api.calls)|).outcome
    ensures rng.draws == old(rng.draws) + RollDraws(cmd)
  {
    var spec := ParseRoll(cmd.text);
    if spec.None? {
      var reply := api.Query(UsageCall(cmd));
      return Posted(reply);
    }
    var dice := RollDice(rng, spec.value);
    var message := RollMessage(cmd.userId, spec.value, dice);
    var reply := api.Query(ApiCall(ChatPostMessage, ChannelMessage(cmd.channelId, message, None)));
    o := Posted(reply);
  }

  // ----- dispatch and the error wrapper -----

  function HandlerRun(h: Handler, cmd: Command, svc: Services, respond: nat -> Reply,
                      entropy: nat -> nat, draws: nat, k: nat): Run
  {
    match h
    case Here => HereRun(cmd, svc, respond, k)
    case Lunch => LunchRun(cmd, svc, respond, k)
    case Repeat => RepeatRun(cmd, svc, respond, k)
    case Report => ReportRun(cmd, svc, respond, k)
    case Roll => RollRun(cmd, respond, entropy, draws, k)
  }

  function HandlerDraws(h: Handler, cmd: Command): nat {
    if h == Roll then RollDraws(cmd) else 0
  }

  /** Runs the handler for `h`. */
  method Dispatch(h: Handler, cmd: Command, svc: Services, api: SlackApi, rng: Random) returns (o: Outcome)
    modifies api, rng
    ensures api.calls == old(api.calls) + HandlerRun(h, cmd, svc, api.respond, rng.entropy, old(rng.draws), |old(api.calls)|).calls
    ensures o == HandlerRun(h, cmd, svc, api.respond, rng.entropy, old(rng.draws), |old(api.calls)|).outcome
    ensures rng.draws == old(rng.draws) + HandlerDraws(h, cmd)
  {
    match h
    case Here => o := SlashHere(cmd, svc, api);
    case Lunch => o := SlashLunch(cmd, svc, api);
    case Repeat => o := SlashRepeat(cmd, svc, api);
    case Report => o := SlashReport(cmd, svc, api);
    case Roll => o := SlashRoll(cmd, api, rng);
  }

  /** "Could not post result of `<command>` to channel <#<channel>>". */
  function FallbackText(command: string, channel: string): (m: string)
    ensures "Could not post result of `" <= m
    ensures |m| > 26 + |command| && m[26..26 + |command|] == command && m[26 + |command|] == '`'
    ensures |m| > |channel| && m[|m| - 1 - |channel|..|m| - 1] == channel && m[|m| - 1] == '>'
  {
    var prefix := "Could not post result of `";
    var m := prefix + command + "` to channel <#" + channel + ">";
    assert m[..|prefix|] == prefix;
    assert m[26..26 + |command|] == command;
    assert m[|m| - 1 - |channel|..|m| - 1] == channel;
    m
  }

  /** Reads the notice back into the command and the channel. */
  function ParseFallbackText(m: string): Option<(string, string)> {
    var rest :- StripPrefix("Could not post result of `", m);
    var commandPart :- Cut(rest, '`');
    var channel :- ParseChannelRef(commandPart.1);
    Some((commandPart.0, channel))
  }

  /** Reads " to channel <#<channel>>". */
  function ParseChannelRef(tail: string): Option<string> {
    var t :- StripPrefix(" to channel <#", tail);
    if t != [] && t[|t| - 1] == '>' then Some(t[..|t| - 1]) else None
  }

  /** The notice names the command and the channel it could not post to. */
  lemma FallbackTextRoundTrip(command: string, channel: string)
    requires '`' !in command
    ensures ParseFallbackText(FallbackText(command, channel)) == Some((command, channel))
  {
    var tail := " to channel <#" + channel + ">";
    var rest := command + ['`'] + tail;
    assert FallbackText(command, channel) == "Could not post result of `" + rest;
    CutAt(command, '`', tail);
    ChannelRefRoundTrip(channel);
  }

  lemma ChannelRefRoundTrip(channel: string)
    ensures ParseChannelRef(" to channel <#" + channel + ">") == Some(channel)
  {
    var t := channel + ">";
    assert " to channel <#" + channel + ">" == " to channel <#" + t;
    assert t[..|t| - 1] == channel;
  }

  /** The private notice the wrapper sends: to the invoking user, in the user's own channel. */
  function FallbackCall(cmd: Command): (c: ApiCall)
    ensures c.apiMethod == ChatPostEphemeral
    ensures c.payload.user == Some(cmd.userId) && c.payload.channel == cmd.userId
    ensures c.payload.asUser && c.payload.threadTs == None && c.payload.attachments == []
    ensures c.payload.text == FallbackText(cmd.command, cmd.channelId)
  {
    ApiCall(ChatPostEphemeral,
            Payload(cmd.userId, Some(cmd.userId), FallbackText(cmd.command, cmd.channelId), None, true, []))
  }

  /** `catch_slack_error` around a handler whose own run is `inner`, when its first call was
      the k-th call of the client. Only the chat client's error is caught: it adds exactly one
      private notice and the wrapped handler then returns, unless that notice fails in turn.
      Any other ending is passed through untouched. */
  function Caught(inner: Run, cmd: Command, respond: nat -> Reply, k: nat): (r: Run)
    ensures inner.outcome != Raised(SlackApiError) ==> r == inner
    ensures inner.outcome == Raised(SlackApiError) ==>
      && |r.calls| == |inner.calls| + 1
      && r.calls[..|inner.calls|] == inner.calls
      && r.calls[|inner.calls|].apiMethod == ChatPostEphemeral
      && r.calls[|inner.calls|].payload.user == Some(cmd.userId)
      && r.calls[|inner.calls|].payload.channel == cmd.userId
      && r.calls[|inner.calls|].payload.asUser
      && r.calls[|inner.calls|].payload.threadTs == None
      && r.calls[|inner.calls|].payload.attachments == []
      && ('`' !in cmd.command ==>
            ParseFallbackText(r.calls[|inner.calls|].payload.text) == Some((cmd.command, cmd.channelId)))
      && (r.outcome == Returned <==> respond(k + |inner.calls|).Ok?)
      && (r.outcome != Returned ==> r.outcome == Raised(SlackApiError))
  {
    if inner.outcome == Raised(SlackApiError) then
      assert '`' !in cmd.command ==>
        ParseFallbackText(FallbackText(cmd.command, cmd.channelId)) == Some((cmd.command, cmd.channelId)) by {
        if '`' !in cmd.command {
          FallbackTextRoundTrip(cmd.command, cmd.channelId);
        }
      }
      var calls := inner.calls + [FallbackCall(cmd)];
      assert calls[..|inner.calls|] == inner.calls;
      Run(calls, Posted(respond(k + |inner.calls|)))
    else inner
  }

  /** A registered command: the handler wrapped in `catch_slack_error`. */
  method CatchSlackError(h: Handler, cmd: Command, svc: Services, api: SlackApi, rng: Random) returns (o: Outcome)
    modifies api, rng
    ensures
      var run := Caught(HandlerRun(h, cmd, svc, api.respond, rng.entropy, old(rng.draws), |old(api.calls)|),
                        cmd, api.respond, |old(api.calls)|);
      api.calls == old(api.calls) + run.calls && o == run.outcome
    ensures rng.draws == old(rng.draws) + HandlerDraws(h, cmd)
  {
    ghost var inner := HandlerRun(h, cmd, svc, api.respond, rng.entropy, rng.draws, |api.calls|);
    o := Dispatch(h, cmd, svc, api, rng);
    assert api.calls == old(api.calls) + inner.calls && o == inner.outcome;
    if o == Raised(SlackApiError) {
      var reply := api.Query(FallbackCall(cmd));
      o := Posted(reply);
    }
  }
}
