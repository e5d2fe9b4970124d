/** The HTTP side of the fetcher, reduced to what the resolution logic looks
    at: a request either raises or answers with a status code and a body
    that `response.json()` may or may not parse. The scraper session, its
    headers and timeouts are not part of this model. */
module Http {
  import opened Common
  import opened JsonValues

  /** The outcome of one `scraper.get` or `scraper.head` call. `body` is
      `None` when `response.json()` would raise. */
  datatype Reply = Raised | Answer(status: int, body: Option<Json>)

  /** A reply the fetcher accepts: status 200. */
  predicate IsOk(reply: Reply)
  {
    reply.Answer? && reply.status == 200
  }

  /** The parsed body of a reply; `None` stands for a body that is not
      JSON, which the resolvers treat like a raise. */
  function JsonBody(reply: Reply): (body: Option<Json>)
    ensures body.Some? ==> reply.Answer? && reply.body == body
  {
    if reply.Answer? then reply.body else None
  }

  const ChannelsApi: string := "https://kick.com/api/v2/channels/"

  /** `GET /api/v2/channels/{channel}/livestream` */
  function LivestreamEndpoint(channel: string): string
  {
    ChannelsApi + channel + "/livestream"
  }

  /** `GET /api/v2/channels/{channel}` */
  function ChannelEndpoint(channel: string): string
  {
    ChannelsApi + channel
  }

  /** `GET /api/v2/channels/{channel}/videos` */
  function VideosEndpoint(channel: string): string
  {
    ChannelsApi + channel + "/videos"
  }
}
