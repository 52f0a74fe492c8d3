/** The data shapes the webhook handler works on: one configured repository,
    the whole configuration, the part of an inbound registry webhook that the
    handler reads, and the status payload posted back to the callback URL. */
module Types {

  /** One configured repository: its name, the secret token that selects it in
      the URL path, the deploy script to run and the tags it accepts. */
  datatype SingleConf = SingleConf(name: string, token: string, script: string, tags: seq<string>)

  /** The configuration loaded once at start-up and only read afterwards. */
  datatype AppConfiguration = AppConfiguration(port: int, logPath: string, repos: seq<SingleConf>)

  /** The `push_data` object of a webhook; only the pushed tag is read. */
  datatype PushData = PushData(tag: string)

  /** A decoded webhook body; registry metadata other than the callback URL and
      the pushed tag is never read by the handler and is not modelled. */
  datatype WebhookRequest = WebhookRequest(callbackUrl: string, pushData: PushData)

  /** The JSON body sent to the callback URL. */
  datatype WebhookResponse = WebhookResponse(state: string, description: string, context: string, targetUrl: string)
}
