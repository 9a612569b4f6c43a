/** `PaystackClient.Impl` construction and
    `PaystackClientConfiguration.buildClient`: both end in `setKey` on the
    executor's process-wide key. */
module Client {
  import opened Wrappers
  import opened Config
  import opened RequestBuilder
  import opened RequestExecutor
  import opened Strings

  /** `new PaystackClient.Impl(secretKey)`: store the key for every later
      request, whichever client issues it. */
  function NewClient(e: Executor, secretKey: Option<string>): (r: Executor)
    ensures r.secretKey == secretKey
  {
    SetKey(e, secretKey)
  }

  /** The key is global: constructing a second client replaces the key the
      first one stored. */
  lemma LaterClientReplacesKey(e: Executor, first: string, second: string)
    ensures NewClient(NewClient(e, Some(first)), Some(second)) == NewClient(e, Some(second))
  {
    SetKeyLastWins(e, Some(first), Some(second));
  }

  /** `buildClient(keyType)`: resolve the key, then construct a client with
      it; a failed resolution constructs nothing. */
  function BuildClient(e: Executor, keyType: KeyType, sources: Sources, parsers: Parsers): (r: Result<Executor, ConfigError>)
    ensures r.Success? <==> NewPaystackConfig(keyType, sources, parsers).Success?
    ensures r.Success? ==> r.value.secretKey.Some? && r.value.secretKey.value != ""
    ensures r.Success? ==> r.value.secretKey == FindApiKey(keyType, sources, parsers)
    ensures r.Failure? ==> r.error == IllegalState(NoKeyMessage)
  {
    var config :- NewPaystackConfig(keyType, sources, parsers);
    Success(NewClient(e, Some(GetApiKey(config))))
  }

  /** The resolver only refuses an empty key, while the executor refuses a
      blank one: a key of spaces builds a client whose every request fails
      with the missing-key error and sends nothing. */
  lemma BlankKeyBuildsButCannotSend(e: Executor, sources: Sources, parsers: Parsers,
                                    req: BuiltRequest, send: BuiltRequest -> Exchange,
                                    parse: string -> Result<Json.Json, string>)
    requires sources.env == map["PAYSTACK_LIVE_SECRET_KEY" := " "]
    ensures BuildClient(e, LIVE, sources, parsers).Success?
    ensures var client := BuildClient(e, LIVE, sources, parsers).value;
      Execute(client, req, send, parse) == Outcome(None, Failure(ApiError(MissingKeyMessage)))
  {
    assert NonEmptyIn(sources.env, EnvKeys(LIVE)[0]);
    var client := BuildClient(e, LIVE, sources, parsers).value;
    assert client.secretKey == Some(" ");
    assert Trim(" ") == "" by {
      assert TrimStart(" ") == "";
    }
  }
}
