/** The endpoint wrappers of `DiscordAPIClient` (app.js): each names the
    path and options it hands to `request`. Ids are Discord snowflakes,
    strings of decimal digits. */
module Endpoints {
  import opened Text
  import opened RequestQueue

  /** The default page size of `getChannelMessages`. */
  const DefaultLimit: nat := 30

  /** A call to `request`: the endpoint and its options. */
  datatype Call = Call(endpoint: string, options: Options)

  /** A snowflake id: a non-empty string of decimal digits. */
  predicate Snowflake(id: string)
  {
    |id| > 0 && forall i :: 0 <= i < |id| ==> IsDigit(id[i])
  }

  /** `getCurrentUser()`. */
  function CurrentUser(): (c: Call)
    ensures c.endpoint == "/users/@me" && c.options == NoOptions
  {
    Call("/users/@me", NoOptions)
  }

  /** `getGuilds()`. */
  function Guilds(): (c: Call)
    ensures c.endpoint == "/users/@me/guilds" && c.options == NoOptions
  {
    Call("/users/@me/guilds", NoOptions)
  }

  /** `getGuildChannels(guildId)`. */
  function GuildChannels(guildId: string): (c: Call)
    ensures c.options == NoOptions && IsRead(c.options)
    ensures |c.endpoint| >= 17 && c.endpoint[..8] == "/guilds/" && c.endpoint[|c.endpoint| - 9..] == "/channels"
  {
    Call("/guilds/" + guildId + "/channels", NoOptions)
  }

  /** `getChannelMessages(channelId, limit)`; the default limit is 30. */
  function ChannelMessages(channelId: string, limit: nat): (c: Call)
    ensures c.options == NoOptions && IsRead(c.options)
    ensures |c.endpoint| >= 10 && c.endpoint[..10] == "/channels/"
  {
    Call("/channels/" + channelId + "/messages?limit=" + Decimal(limit), NoOptions)
  }

  /** `sendMessage(channelId, content)`: a POST whose body is
      `{"content": content}`. */
  function SendMessage(channelId: string, content: string): (c: Call)
    ensures c.options.httpMethod == Some("POST") && !IsRead(c.options) && !c.options.force
    ensures c.options.body == Some(JObject([("content", JString(content))]))
  {
    Call("/channels/" + channelId + "/messages",
         Options(Some("POST"), Some(JObject([("content", JString(content))])), false))
  }

  /** The page size read back from a `getChannelMessages` endpoint: the
      digits after the last `=`. */
  function LimitOf(endpoint: string): (r: Option<nat>)
    ensures r.Some? ==> |endpoint| > 0 && IsDigit(endpoint[|endpoint| - 1])
    decreases |endpoint|
  {
    var digits := TrailingDigits(endpoint);
    if digits == [] || |digits| == |endpoint| || endpoint[|endpoint| - |digits| - 1] != '=' then None
    else Some(ParseDecimal(digits))
  }

  /** The longest suffix of `s` made of decimal digits. */
  function TrailingDigits(s: string): (d: string)
    ensures |d| <= |s| && d == s[|s| - |d|..]
    ensures forall i :: 0 <= i < |d| ==> IsDigit(d[i])
    ensures |d| < |s| ==> !IsDigit(s[|s| - |d| - 1])
    decreases |s|
  {
    if s == [] || !IsDigit(s[|s| - 1]) then []
    else TrailingDigits(s[..|s| - 1]) + [s[|s| - 1]]
  }

  /** The trailing digits of a string that ends in a non-digit followed by
      digits are exactly those digits. */
  lemma {:induction false} TrailingDigitsOf(prefix: string, digits: string)
    requires |prefix| > 0 && !IsDigit(prefix[|prefix| - 1])
    requires forall i :: 0 <= i < |digits| ==> IsDigit(digits[i])
    ensures TrailingDigits(prefix + digits) == digits
    decreases |digits|
  {
    if digits == [] {
      assert prefix + digits == prefix;
    } else {
      var init := digits[..|digits| - 1];
      assert (prefix + digits)[..|prefix + digits| - 1] == prefix + init;
      TrailingDigitsOf(prefix, init);
      assert digits == init + [digits[|digits| - 1]];
    }
  }

  /** The page size survives the trip through the endpoint string: the
      server reads back the `limit` the caller passed. */
  lemma LimitRoundTrip(channelId: string, limit: nat)
    ensures LimitOf(ChannelMessages(channelId, limit).endpoint) == Some(limit)
  {
    var prefix := "/channels/" + channelId + "/messages?limit=";
    var d := Decimal(limit);
    assert ChannelMessages(channelId, limit).endpoint == prefix + d;
    assert prefix[|prefix| - 1] == '=';
    TrailingDigitsOf(prefix, d);
    assert (prefix + d)[|prefix + d| - |d| - 1] == prefix[|prefix| - 1];
    DecimalRoundTrip(limit);
  }

  /** The callers' page, with the default limit: `?limit=30`, which reads
      back as 30. */
  lemma DefaultPage(channelId: string)
    ensures ChannelMessages(channelId, DefaultLimit).endpoint == "/channels/" + channelId + "/messages?limit=30"
    ensures LimitOf(ChannelMessages(channelId, DefaultLimit).endpoint) == Some(30)
  {
    assert Decimal(3) == "3";
    LimitRoundTrip(channelId, DefaultLimit);
  }

  /** Splitting `p + c + s + d` where `c` is made of digits and `s` starts
      with a non-digit: the first non-digit after `p` ends `c`, so `c` and
      then `d` are determined. */
  lemma SplitAfterDigits(p: string, s: string, c1: string, d1: string, c2: string, d2: string)
    requires Snowflake(c1) && Snowflake(c2) && |s| > 0 && !IsDigit(s[0])
    requires p + c1 + s + d1 == p + c2 + s + d2
    ensures c1 == c2 && d1 == d2
  {
    var e := p + c1 + s + d1;
    assert forall i :: 0 <= i < |c1| ==> e[|p| + i] == c1[i];
    assert forall i :: 0 <= i < |c2| ==> e[|p| + i] == c2[i];
    assert e[|p| + |c1|] == s[0] && e[|p| + |c2|] == s[0];
    assert |c1| == |c2|;
    assert c1 == e[|p|..|p| + |c1|] == c2;
    assert d1 == e[|p| + |c1| + |s|..] == d2;
  }

  /** Distinct channels' message pages have distinct cache keys, so the
      cache never answers one channel's page with another's. */
  lemma ChannelMessagesInjective(c1: string, l1: nat, c2: string, l2: nat)
    requires Snowflake(c1) && Snowflake(c2)
    requires ChannelMessages(c1, l1) == ChannelMessages(c2, l2)
    ensures c1 == c2 && l1 == l2
  {
    SplitAfterDigits("/channels/", "/messages?limit=", c1, Decimal(l1), c2, Decimal(l2));
    DecimalInjective(l1, l2);
  }

  lemma GuildChannelsInjective(g1: string, g2: string)
    requires GuildChannels(g1) == GuildChannels(g2)
    ensures g1 == g2
  {
    var e := GuildChannels(g1).endpoint;
    assert g1 == e[8..|e| - 9];
    assert g2 == e[8..|e| - 9];
  }

  /** A message is never answered from the cache: with the corrected
      `request`, every `sendMessage` queues a job, whatever the cache holds. */
  lemma SendIsNeverCached(p: Pipeline, channelId: string, content: string, now: int)
    requires Inv(p)
    ensures var c := SendMessage(channelId, content);
      var res := RequestStep(p, c.endpoint, c.options, now);
      res.0 == Enqueued(p.client.nextJob)
      && res.1.client.queue == p.client.queue + [Job(p.client.nextJob, c.endpoint, c.options, 0)]
  {
  }

  /** A page of messages fetched successfully is served from the cache on
      the next identical call within the minute. */
  lemma MessagesCachedWithinTtl(p: Pipeline, reply: Reply, channelId: string, limit: nat, t: int, now: int)
    requires Inv(p) && p.client.events != [] && p.client.events[0].Awaiting?
    requires KeyOf(p.client.events[0].job) == Key(ChannelMessages(channelId, limit).endpoint, NoOptions)
    requires Success(reply) && Truthy(reply.json.value)
    requires t <= now <= t + TtlCache.DefaultTtl
    ensures var p1 := ReceiveReply(p, reply, t);
      var c := ChannelMessages(channelId, limit);
      RequestStep(p1, c.endpoint, c.options, now) == (Cached(reply.json.value), p1)
  {
    var c := ChannelMessages(channelId, limit);
    CachedAfterSuccess(p, reply, t, now);
  }
}
