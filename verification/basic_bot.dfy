/** The bot session: its construction with the startup balance check
    (`BasicBot.__init__`) and the single create-order call of `place_order`.
    The venue is not modelled; its replies are parameters. */
module BasicBot {
  import opened Wrappers
  import opened Numbers
  import opened Orders

  /** The futures endpoint the bot points the client at in test mode. */
  const TestnetFuturesUrl := "https://testnet.binancefuture.com/fapi"

  /** The asset whose balance the startup check reads. */
  const CheckedAsset := "USDT"

  /** The text every connection error starts with. */
  const ConnectPrefix := "Failed to connect to API: "

  /** The `availableBalance` entry of one asset: a string `float()` accepts,
      one it refuses (with the refusal's text), or no such key. */
  datatype BalanceField = Parsed(amount: Number) | Unparsable(reason: string) | Absent

  /** One element of the account's `assets` list. */
  datatype AssetEntry = AssetEntry(asset: string, availableBalance: BalanceField)

  /** The reply to the futures account query: an error raised by the client,
      or the account object, which may lack the `assets` key. */
  datatype AccountReply = QueryRaised(cause: string) | Account(assets: Option<seq<AssetEntry>>)

  /** Why the startup check failed. */
  datatype ConnectFailure =
    | Unreachable(cause: string)
    | MissingKey(key: string)
    | NoCheckedAsset
    | BadBalance(reason: string)

  /** The `ConnectionError` raised by the constructor. */
  datatype ConnectionError = ConnectionError(failure: ConnectFailure)

  /** A constructed bot: the credentials it was given, whether it targets the
      test venue, and the futures URL it overrides (`None` keeps the client's
      default). */
  datatype Bot = Bot(apiKey: string, apiSecret: string, testnet: bool, futuresUrl: Option<string>)

  /** Python's `str()` of the exception the startup check caught: a
      `KeyError` prints its key in quotes, the `StopIteration` of an exhausted
      `next()` prints nothing, and the client's and `float()`'s errors print
      their own text. */
  function Describe(f: ConnectFailure): string {
    match f
    case Unreachable(cause) => cause
    case MissingKey(key) => "'" + key + "'"
    case NoCheckedAsset => ""
    case BadBalance(reason) => reason
  }

  /** The message of a connection error: the fixed prefix, then the cause. */
  function ConnectionMessage(e: ConnectionError): string {
    ConnectPrefix + Describe(e.failure)
  }

  /** The position of the first entry for asset `name`, as the generator in
      `next(a for a in assets if a['asset'] == name)` finds it. */
  function FindAsset(assets: seq<AssetEntry>, name: string): (r: Option<nat>)
    ensures r.Some? ==> r.value < |assets| && assets[r.value].asset == name
    ensures r.Some? ==> forall j :: 0 <= j < r.value ==> assets[j].asset != name
    ensures r.None? <==> forall j :: 0 <= j < |assets| ==> assets[j].asset != name
  {
    if assets == [] then
      None
    else if assets[0].asset == name then
      Some(0)
    else
      match FindAsset(assets[1..], name)
      case None => None
      case Some(k) => Some(k + 1)
  }

  /** The first entry for the checked asset exists and has a balance that
      `float()` accepts. */
  ghost predicate BalanceReadable(assets: seq<AssetEntry>) {
    exists k :: 0 <= k < |assets| && assets[k].asset == CheckedAsset && assets[k].availableBalance.Parsed?
      && forall j :: 0 <= j < k ==> assets[j].asset != CheckedAsset
  }

  /** `BasicBot(api_key, api_secret, testnet)`: point the client at the test
      venue when asked, then run the account query and read the checked
      asset's balance; a failure of the query or of the balance read becomes
      a `ConnectionError` carrying its cause, and no bot is returned. The
      client's own construction comes before that check and is not part of
      this model. */
  function Connect(apiKey: string, apiSecret: string, testnet: bool, reply: AccountReply): (r: Result<Bot, ConnectionError>)
    ensures r.Success? <==> reply.Account? && reply.assets.Some? && BalanceReadable(reply.assets.value)
    ensures reply.QueryRaised? ==> r == Failure(ConnectionError(Unreachable(reply.cause)))
    ensures r.Success? ==> r.value.apiKey == apiKey && r.value.apiSecret == apiSecret && r.value.testnet == testnet
    ensures r.Success? ==> (r.value.futuresUrl.Some? <==> testnet)
    ensures r.Success? && testnet ==> r.value.futuresUrl == Some(TestnetFuturesUrl)
  {
    match reply
    case QueryRaised(cause) => Failure(ConnectionError(Unreachable(cause)))
    case Account(None) => Failure(ConnectionError(MissingKey("assets")))
    case Account(Some(assets)) =>
      match FindAsset(assets, CheckedAsset)
      case None => Failure(ConnectionError(NoCheckedAsset))
      case Some(k) =>
        match assets[k].availableBalance
        case Absent => Failure(ConnectionError(MissingKey("availableBalance")))
        case Unparsable(reason) => Failure(ConnectionError(BadBalance(reason)))
        case Parsed(_) =>
          Success(Bot(apiKey, apiSecret, testnet, if testnet then Some(TestnetFuturesUrl) else None))
  }

  /** The text of the `ConnectionError` each way the startup check can fail:
      the account object lacks `assets`, no asset is USDT, the first USDT
      entry lacks `availableBalance` or holds text `float()` refuses, or the
      query itself raises. */
  lemma ConnectErrorText(apiKey: string, apiSecret: string, testnet: bool, reply: AccountReply)
    ensures var r := Connect(apiKey, apiSecret, testnet, reply);
      && (reply == Account(None) ==>
            r.Failure? && ConnectionMessage(r.error) == "Failed to connect to API: 'assets'")
      && (reply.QueryRaised? ==>
            r.Failure? && ConnectionMessage(r.error) == "Failed to connect to API: " + reply.cause)
  {
  }

  /** With no `USDT` entry, `next()` raises `StopIteration`, whose text is
      empty: the message is the bare prefix. */
  lemma NoCheckedAssetText(apiKey: string, apiSecret: string, testnet: bool, assets: seq<AssetEntry>)
    requires forall j :: 0 <= j < |assets| ==> assets[j].asset != CheckedAsset
    ensures var r := Connect(apiKey, apiSecret, testnet, Account(Some(assets)));
      r.Failure? && ConnectionMessage(r.error) == "Failed to connect to API: "
  {
  }

  /** The lookup finds the first `USDT` entry wherever it is. */
  lemma FindsFirstCheckedAsset(assets: seq<AssetEntry>, k: nat)
    requires k < |assets| && assets[k].asset == CheckedAsset
    requires forall j :: 0 <= j < k ==> assets[j].asset != CheckedAsset
    ensures FindAsset(assets, CheckedAsset) == Some(k)
  {
    assert FindAsset(assets, CheckedAsset).Some?;
  }

  /** The prefix followed by the quoted balance key, spelled out. */
  lemma BalanceKeyErrorSpelled()
    ensures ConnectPrefix + "'availableBalance'" == "Failed to connect to API: 'availableBalance'"
  {
  }

  /** When the first `USDT` entry is at `k`, a missing balance is reported as
      the `KeyError` for `availableBalance` and an unreadable one by the text
      of `float()`'s error. */
  lemma BalanceErrorText(apiKey: string, apiSecret: string, testnet: bool, assets: seq<AssetEntry>, k: nat)
    requires k < |assets| && assets[k].asset == CheckedAsset
    requires forall j :: 0 <= j < k ==> assets[j].asset != CheckedAsset
    ensures var r := Connect(apiKey, apiSecret, testnet, Account(Some(assets)));
      && (assets[k].availableBalance.Absent? ==>
            r.Failure? && ConnectionMessage(r.error) == "Failed to connect to API: 'availableBalance'")
      && (assets[k].availableBalance.Unparsable? ==>
            r.Failure? && ConnectionMessage(r.error) == "Failed to connect to API: " + assets[k].availableBalance.reason)
  {
    FindsFirstCheckedAsset(assets, k);
    var r := Connect(apiKey, apiSecret, testnet, Account(Some(assets)));
    match assets[k].availableBalance
    case Absent =>
      assert r == Failure(ConnectionError(MissingKey("availableBalance")));
      assert ConnectionMessage(r.error) == ConnectPrefix + "'availableBalance'";
      BalanceKeyErrorSpelled();
    case Unparsable(reason) =>
      assert r == Failure(ConnectionError(BadBalance(reason)));
    case Parsed(_) =>
  }

  /** The exceptions the create-order call can raise: the venue's API error
      (HTTP status, error code and message) or anything else. */
  datatype SendError = ApiError(statusCode: int, code: int, message: string) | OtherError(description: string)

  /** The venue's order response, kept as the mapping it is. */
  datatype Response = Response(fields: map<string, string>)

  /** What one create-order call does: return a response or raise. */
  datatype VenueReply = Created(response: Response) | Raised(error: SendError)

  /** What `place_order` does: raise a validation error, return the venue's
      response, or re-raise the venue's error. */
  datatype PlaceOutcome = Invalid(reason: ValidationError) | Returned(response: Response) | Reraised(raised: SendError)

  /** The outcome together with the create-order calls made, in order. */
  datatype Placement = Placement(outcome: PlaceOutcome, sent: seq<Params>)

  /** The outcome passes the venue's reply through unchanged. */
  predicate PassesThrough(reply: VenueReply, outcome: PlaceOutcome) {
    match reply
    case Created(response) => outcome == Returned(response)
    case Raised(error) => outcome == Reraised(error)
  }

  /** `bot.place_order(...)`, with `createOrder` standing for the bot's
      client: `createOrder(n, p)` is the venue's reply to the create-order
      call made with `p` after `n` earlier create-order calls of the same
      `place_order` invocation (the count starts afresh at each one). Validation failures send
      nothing; a valid order makes exactly one create-order call with the
      built parameters, and the reply to that first call is what the caller
      gets: there is no retry. */
  function PlaceOrder(o: RawOrder, createOrder: (nat, Params) -> VenueReply): (r: Placement)
    ensures |r.sent| <= 1
    ensures r.sent == [] <==> r.outcome.Invalid?
    ensures |r.sent| == 1 <==> Acceptable(o)
    ensures r.outcome.Invalid? ==> Build(o) == Failure(r.outcome.reason)
    ensures r.sent != [] ==> Build(o) == Success(r.sent[0]) && PassesThrough(createOrder(0, r.sent[0]), r.outcome)
  {
    match Build(o)
    case Failure(e) => Placement(Invalid(e), [])
    case Success(params) =>
      match createOrder(0, params)
      case Created(response) => Placement(Returned(response), [params])
      case Raised(error) => Placement(Reraised(error), [params])
  }

  /** When validation fails the venue is never consulted: any two venues give
      the same placement. */
  lemma InvalidIgnoresVenue(o: RawOrder, f: (nat, Params) -> VenueReply, g: (nat, Params) -> VenueReply)
    requires !Acceptable(o)
    ensures PlaceOrder(o, f) == PlaceOrder(o, g)
  {
  }

  /** Only the venue's reply to the first call matters: two venues that agree
      on the first create-order call give the same placement, whatever they
      would answer to a second one, so a failed call is never retried. */
  lemma NoRetry(o: RawOrder, f: (nat, Params) -> VenueReply, g: (nat, Params) -> VenueReply)
    requires Acceptable(o) ==> f(0, Build(o).value) == g(0, Build(o).value)
    ensures PlaceOrder(o, f) == PlaceOrder(o, g)
  {
  }

  /** An API rejection and any other send failure stay distinguishable: the
      caller sees exactly the error the call raised. */
  lemma ErrorKindPreserved(o: RawOrder, createOrder: (nat, Params) -> VenueReply)
    requires Acceptable(o)
    ensures var r := PlaceOrder(o, createOrder);
      var reply := createOrder(0, Build(o).value);
      && (reply.Raised? && reply.error.ApiError? <==> r.outcome.Reraised? && r.outcome.raised.ApiError?)
      && (reply.Raised? && reply.error.OtherError? <==> r.outcome.Reraised? && r.outcome.raised.OtherError?)
  {
  }
}
