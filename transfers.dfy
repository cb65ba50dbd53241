/**
 * The four request handlers: quoting a currency pair, reading a quote back,
 * booking a transfer against a quote, a payer and a recipient, and reading a
 * transfer back. Request bodies are records of optional fields (a JSON field
 * that is absent or null is `None`); a string field counts as given when it is
 * present and non-empty, as the handlers' truthiness tests have it. The clock
 * (`now`, in ms), the id generator (`freshId`) and the rate provider's answer
 * (`response`) are parameters. Every present field is assumed to have the JSON
 * type the handler expects: a string, or a number for `amount`.
 */
module Transfers {
  import opened Wrappers
  import opened Decimal
  import opened Schema
  import opened Db
  import opened ExchangeRates

  /** The currency pairs that can be quoted, as "SELL-BUY" keys. */
  const SUPPORTED_PAIRS: seq<string> :=
    ["AUD-USD", "AUD-INR", "AUD-PHP", "USD-INR", "USD-PHP", "EUR-USD", "EUR-INR", "EUR-PHP"]

  /** The same eight pairs as (sell, buy) currency codes. */
  const SUPPORTED_CURRENCY_PAIRS: set<(string, string)> :=
    {("AUD", "USD"), ("AUD", "INR"), ("AUD", "PHP"), ("USD", "INR"),
     ("USD", "PHP"), ("EUR", "USD"), ("EUR", "INR"), ("EUR", "PHP")}

  /** The markup taken off the wholesale rate, in percent. */
  const OFX_MARKUP_PERCENTAGE: real := 0.5

  /** 24 hours in ms: how far after booking a transfer is expected to arrive. */
  const DELIVERY_DELAY: int := 24 * 60 * 60 * 1000

  /** A string field of a request body is truthy: present and non-empty. */
  predicate Given(field: Option<string>)
  {
    field.Some? && field.value != ""
  }

  // ===========================================================================
  // Quotes

  datatype QuoteRequest = QuoteRequest(sellCurrency: Option<string>, buyCurrency: Option<string>, amount: Option<real>)

  /** A quote request that passed validation. */
  datatype QuoteInput = QuoteInput(sellCurrency: string, buyCurrency: string, amount: real)

  /** The body returned for a quote: the currencies and amount are stored but not echoed. */
  datatype QuoteView = QuoteView(quoteId: string, ofxRate: real, inverseOfxRate: real, convertedAmount: real)

  /** k has the shape "XXX-YYY" with no other '-'. */
  predicate DashOnlyAtThree(k: string)
  {
    |k| == 7 && k[3] == '-' && k[0] != '-' && k[1] != '-' && k[2] != '-'
    && k[4] != '-' && k[5] != '-' && k[6] != '-'
  }

  /** A key with a single '-' at index 3 is built from exactly one pair of strings. */
  lemma SplitAtDash(sellCurrency: string, buyCurrency: string, k: string)
    requires RateKey(sellCurrency, buyCurrency) == k && DashOnlyAtThree(k)
    ensures sellCurrency == k[..3] && buyCurrency == k[4..]
  {
    assert k[|sellCurrency|] == '-';
  }

  /** The listed keys are the keys of the eight pairs of the set, in the same order. */
  lemma ListedKeysArePairKeys()
    ensures SUPPORTED_PAIRS == [RateKey("AUD", "USD"), RateKey("AUD", "INR"), RateKey("AUD", "PHP"),
                                RateKey("USD", "INR"), RateKey("USD", "PHP"), RateKey("EUR", "USD"),
                                RateKey("EUR", "INR"), RateKey("EUR", "PHP")]
  {
    KeyLiteral("AUD", "USD", "AUD-USD");
    KeyLiteral("AUD", "INR", "AUD-INR");
    KeyLiteral("AUD", "PHP", "AUD-PHP");
    KeyLiteral("USD", "INR", "USD-INR");
    KeyLiteral("USD", "PHP", "USD-PHP");
    KeyLiteral("EUR", "USD", "EUR-USD");
    KeyLiteral("EUR", "INR", "EUR-INR");
    KeyLiteral("EUR", "PHP", "EUR-PHP");
  }

  lemma KeyLiteral(sell: string, buy: string, key: string)
    requires |sell| == 3 && |buy| == 3 && |key| == 7
    requires key[..3] == sell && key[3] == '-' && key[4..] == buy
    ensures RateKey(sell, buy) == key
  {
    assert key == key[..3] + [key[3]] + key[4..];
  }

  /** A key built from two three-letter codes without '-' has its only '-' at index 3. */
  lemma CodeKeyShape(sell: string, buy: string)
    requires |sell| == 3 && |buy| == 3
    requires '-' !in sell && '-' !in buy
    ensures DashOnlyAtThree(RateKey(sell, buy))
  {
    var k := RateKey(sell, buy);
    assert k[0] == sell[0] && k[1] == sell[1] && k[2] == sell[2];
    assert k[4] == buy[0] && k[5] == buy[1] && k[6] == buy[2];
  }

  /**
   * The "SELL-BUY" keys of the list are exactly the keys of the eight currency
   * pairs: since each has its only '-' at index 3, no other split of a key
   * into sell and buy strings produces it.
   */
  lemma {:induction false} SupportedKeyIsPair(sellCurrency: string, buyCurrency: string)
    ensures RateKey(sellCurrency, buyCurrency) in SUPPORTED_PAIRS
        <==> (sellCurrency, buyCurrency) in SUPPORTED_CURRENCY_PAIRS
  {
    var key := RateKey(sellCurrency, buyCurrency);
    ListedKeysArePairKeys();
    if key in SUPPORTED_PAIRS {
      var i :| 0 <= i < |SUPPORTED_PAIRS| && SUPPORTED_PAIRS[i] == key;
      var pair := [("AUD", "USD"), ("AUD", "INR"), ("AUD", "PHP"), ("USD", "INR"),
                   ("USD", "PHP"), ("EUR", "USD"), ("EUR", "INR"), ("EUR", "PHP")][i];
      assert key == RateKey(pair.0, pair.1);
      CodeKeyShape(pair.0, pair.1);
      SplitAtDash(sellCurrency, buyCurrency, key);
      SplitAtDash(pair.0, pair.1, key);
    }
  }

  /**
   * The checks `createQuote` makes before it asks for a rate, in the order it
   * makes them: every field given and the amount positive, then two different
   * currencies, then a supported pair.
   */
  function ValidateQuoteRequest(req: QuoteRequest): (r: Response<QuoteInput>)
    ensures r.Ok? || r.BadRequest?
    ensures r.Ok? <==>
      && Given(req.sellCurrency) && Given(req.buyCurrency)
      && req.amount.Some? && req.amount.value > 0.0
      && (req.sellCurrency.value, req.buyCurrency.value) in SUPPORTED_CURRENCY_PAIRS
    ensures r.Ok? ==> r.value == QuoteInput(req.sellCurrency.value, req.buyCurrency.value, req.amount.value)
    ensures !(Given(req.sellCurrency) && Given(req.buyCurrency) && req.amount.Some? && req.amount.value > 0.0)
      ==> r == BadRequest("Invalid input")
    ensures Given(req.sellCurrency) && Given(req.buyCurrency) && req.amount.Some? && req.amount.value > 0.0
      && req.sellCurrency == req.buyCurrency
      ==> r == BadRequest("Sell and Buy currency must be different")
    ensures Given(req.sellCurrency) && Given(req.buyCurrency) && req.amount.Some? && req.amount.value > 0.0
      && req.sellCurrency != req.buyCurrency
      && (req.sellCurrency.value, req.buyCurrency.value) !in SUPPORTED_CURRENCY_PAIRS
      ==> r == BadRequest("Invalid currency pair")
  {
    if !Given(req.sellCurrency) || !Given(req.buyCurrency) || req.amount.None? || req.amount.value <= 0.0 then
      BadRequest("Invalid input")
    else if req.sellCurrency.value == req.buyCurrency.value then
      BadRequest("Sell and Buy currency must be different")
    else
      var sellCurrency, buyCurrency := req.sellCurrency.value, req.buyCurrency.value;
      SupportedKeyIsPair(sellCurrency, buyCurrency);
      if RateKey(sellCurrency, buyCurrency) !in SUPPORTED_PAIRS then
        BadRequest("Invalid currency pair")
      else
        Ok(QuoteInput(sellCurrency, buyCurrency, req.amount.value))
  }

  /** The customer rate: the wholesale rate less the markup. */
  function OfxRate(exchangeRate: real): (ofxRate: real)
    ensures ofxRate == 0.995 * exchangeRate
    ensures exchangeRate > 0.0 ==> 0.0 < ofxRate < exchangeRate
    ensures exchangeRate < 0.0 ==> exchangeRate < ofxRate < 0.0
    ensures ofxRate == 0.0 <==> exchangeRate == 0.0
  {
    var markupAdjustment := exchangeRate * (OFX_MARKUP_PERCENTAGE / 100.0);
    exchangeRate - markupAdjustment
  }

  /**
   * The quote row for a validated request priced at a non-zero wholesale rate.
   * The converted amount and the inverse rate are both taken from the unrounded
   * customer rate; the stored rates have five decimals, the amount two.
   */
  function PriceQuote(quoteId: string, input: QuoteInput, exchangeRate: real): (q: Quote)
    requires exchangeRate != 0.0
    ensures q.quoteId == quoteId && q.amount == input.amount
    ensures q.sellCurrency == input.sellCurrency && q.buyCurrency == input.buyCurrency
    ensures OfxRate(exchangeRate) - Ulp(5) / 2.0 <= q.ofxRate <= OfxRate(exchangeRate) + Ulp(5) / 2.0
    ensures 1.0 / OfxRate(exchangeRate) - Ulp(5) / 2.0 <= q.inverseOfxRate <= 1.0 / OfxRate(exchangeRate) + Ulp(5) / 2.0
    ensures input.amount * OfxRate(exchangeRate) - Ulp(2) / 2.0 <= q.convertedAmount
         <= input.amount * OfxRate(exchangeRate) + Ulp(2) / 2.0
    ensures HasPlaces(q.ofxRate, 5) && HasPlaces(q.inverseOfxRate, 5) && HasPlaces(q.convertedAmount, 2)
    ensures exchangeRate > 0.0 && input.amount > 0.0 ==>
      q.ofxRate >= 0.0 && q.inverseOfxRate >= 0.0 && q.convertedAmount >= 0.0
  {
    var ofxRate := OfxRate(exchangeRate);
    var inverseOfxRate := 1.0 / ofxRate;
    var convertedAmount := ConvertedAmount(input.amount, ofxRate);
    Quote(quoteId, input.sellCurrency, input.buyCurrency, input.amount,
          RoundTo(ofxRate, 5), RoundTo(inverseOfxRate, 5), convertedAmount)
  }

  /** `Number((amount * ofxRate).toFixed(2))`. */
  function ConvertedAmount(amount: real, ofxRate: real): (c: real)
    ensures amount * ofxRate - Ulp(2) / 2.0 <= c <= amount * ofxRate + Ulp(2) / 2.0
    ensures HasPlaces(c, 2)
    ensures amount > 0.0 && ofxRate > 0.0 ==> c >= 0.0
  {
    var product := amount * ofxRate;
    RoundTo(product, 2)
  }

  function ViewOf(q: Quote): (v: QuoteView)
    ensures v.quoteId == q.quoteId && v.ofxRate == q.ofxRate
    ensures v.inverseOfxRate == q.inverseOfxRate && v.convertedAmount == q.convertedAmount
  {
    QuoteView(q.quoteId, q.ofxRate, q.inverseOfxRate, q.convertedAmount)
  }

  /** A stored quote as `createQuote` leaves it: a supported pair and a positive amount. */
  ghost predicate QuoteWellFormed(q: Quote)
  {
    (q.sellCurrency, q.buyCurrency) in SUPPORTED_CURRENCY_PAIRS && q.amount > 0.0
  }

  /**
   * `createQuote`: validate, ask the rate service, price the quote and store it
   * under a fresh id. Nothing touches the rate service or the table before the
   * request is valid; a 0 rate stores nothing.
   */
  method CreateQuote(db: Store, service: ExchangeRateService, req: QuoteRequest,
                     response: Option<ExchangeRateResponse>, now: int, freshId: string)
    returns (res: Response<QuoteView>)
    requires db.Valid()
    modifies db, service
    ensures db.Valid()
    ensures db.payers == old(db.payers) && db.recipients == old(db.recipients) && db.transfers == old(db.transfers)
    ensures old(db.Consistent()) ==> db.Consistent()
    ensures ValidateQuoteRequest(req).BadRequest? ==>
      && res == BadRequest(ValidateQuoteRequest(req).message)
      && service.cache == old(service.cache)
      && db.quotes == old(db.quotes)
    ensures ValidateQuoteRequest(req).Ok? ==>
      var input := ValidateQuoteRequest(req).value;
      var key := RateKey(input.sellCurrency, input.buyCurrency);
      var rate := GetRatesResult(old(service.cache), key, response, now);
      && service.cache == AfterGetRates(old(service.cache), key, response, now)
      && (rate == 0.0 ==> res == BadRequest("Failed to get exchange rate") && db.quotes == old(db.quotes))
      && (rate != 0.0 && freshId in old(db.quotes) ==> res == InternalError && db.quotes == old(db.quotes))
      && (rate != 0.0 && freshId !in old(db.quotes) ==>
            && db.quotes == old(db.quotes)[freshId := PriceQuote(freshId, input, rate)]
            && res == Ok(ViewOf(PriceQuote(freshId, input, rate))))
    ensures res.Ok? ==>
      && res.value.quoteId == freshId && freshId !in old(db.quotes)
      && QuoteWellFormed(db.quotes[freshId])
      && (freshId != "" ==> RetrieveQuote(db.quotes, freshId) == res)
  {
    var input := ValidateQuoteRequest(req);
    if !input.Ok? {
      return BadRequest(input.message);
    }
    var sellCurrency, buyCurrency, amount := input.value.sellCurrency, input.value.buyCurrency, input.value.amount;
    var exchangeRate := service.GetRates(sellCurrency, buyCurrency, response, now);
    if exchangeRate == 0.0 {
      return BadRequest("Failed to get exchange rate");
    }
    var quote := db.InsertQuote(PriceQuote(freshId, input.value, exchangeRate));
    if quote.None? {
      return InternalError;
    }
    res := Ok(ViewOf(quote.value));
  }

  /** `retrieveQuote`: the stored quote's four-field view, or why there is none. */
  function RetrieveQuote(quotes: map<string, Quote>, quoteId: string): (res: Response<QuoteView>)
    ensures res.Ok? <==> quoteId != "" && quoteId in quotes
    ensures res.Ok? ==> res.value == ViewOf(quotes[quoteId])
    ensures quoteId == "" ==> res == BadRequest("QuoteId is required")
    ensures quoteId != "" && quoteId !in quotes ==> res == NotFound("Quote not found")
  {
    if quoteId == "" then BadRequest("QuoteId is required")
    else
      var rows := SelectByKey(quotes, quoteId);
      if rows == [] then NotFound("Quote not found") else Ok(ViewOf(rows[0]))
  }

  /** Storing one quote leaves what every other id retrieves unchanged. */
  lemma OtherQuotesUnchanged(quotes: map<string, Quote>, q: Quote, otherId: string)
    requires otherId != q.quoteId
    ensures RetrieveQuote(quotes[q.quoteId := q], otherId) == RetrieveQuote(quotes, otherId)
  {
  }

  /** The worked example: AUD to INR, 1000 AUD at a wholesale rate of 55.5. */
  lemma WorkedExampleAudInr(quoteId: string)
    ensures var q := PriceQuote(quoteId, QuoteInput("AUD", "INR", 1000.0), 55.5);
      q.ofxRate == 55.2225 && q.inverseOfxRate == 0.01811 && q.convertedAmount == 55222.5
  {
    assert OfxRate(55.5) == 55.2225;
    assert (55.2225 * 100000.0 + 0.5).Floor == 5522250;
    assert 1.0 / 55.2225 * 100000.0 + 0.5 > 1811.0;
    assert 1.0 / 55.2225 * 100000.0 + 0.5 < 1812.0;
    assert (1.0 / 55.2225 * 100000.0 + 0.5).Floor == 1811;
    assert (1000.0 * 55.2225 * 100.0 + 0.5).Floor == 5522250;
  }

  /**
   * The converted amount comes from the unrounded customer rate: at a wholesale
   * rate of 0.123457, 999,999 units convert to 122839.59, whereas the stored
   * five-decimal rate 0.12284 would have given 122839.88.
   */
  lemma ConvertedAmountUsesUnroundedRate(quoteId: string)
    ensures var q := PriceQuote(quoteId, QuoteInput("AUD", "USD", 999999.0), 0.123457);
      && q.ofxRate == 0.12284
      && q.convertedAmount == 122839.59
      && RoundTo(999999.0 * q.ofxRate, 2) == 122839.88
  {
    assert OfxRate(0.123457) == 0.122839715;
    assert (0.122839715 * 100000.0 + 0.5).Floor == 12284;
    assert (999999.0 * 0.122839715 * 100.0 + 0.5).Floor == 12283959;
    assert (999999.0 * 0.12284 * 100.0 + 0.5).Floor == 12283988;
  }

  /** A pair outside the list is refused for any positive amount, before any rate is asked for. */
  lemma UnsupportedPairRefused(amount: real)
    requires amount > 0.0
    ensures ValidateQuoteRequest(QuoteRequest(Some("AUD"), Some("JPY"), Some(amount)))
         == BadRequest("Invalid currency pair")
  {
  }

  // ===========================================================================
  // Transfers

  datatype PayerInput = PayerInput(id: Option<string>, name: Option<string>, transferReason: Option<string>)

  datatype RecipientInput = RecipientInput(
    name: Option<string>, accountNumber: Option<string>, bankCode: Option<string>, bankName: Option<string>)

  datatype TransferRequest = TransferRequest(
    quoteId: Option<string>, payer: Option<PayerInput>, recipient: Option<RecipientInput>)

  /** A transfer request that passed validation. */
  datatype TransferInput = TransferInput(
    quoteId: string,
    payerId: string, payerName: string, transferReason: string,
    recipientName: string, accountNumber: string, bankCode: string, bankName: string)

  datatype PayerView = PayerView(id: string, name: string, transferReason: string)

  datatype RecipientView = RecipientView(name: string, accountNumber: string, bankCode: string, bankName: string)

  datatype TransferDetails = TransferDetails(quoteId: string, payer: PayerView, recipient: RecipientView)

  /** The body returned for a transfer, on creation and on retrieval alike. */
  datatype TransferView = TransferView(
    transferId: string, status: Status, transferDetails: TransferDetails, estimatedDeliveryDate: int)

  predicate PayerComplete(p: PayerInput)
  {
    Given(p.id) && Given(p.name) && Given(p.transferReason)
  }

  predicate RecipientComplete(r: RecipientInput)
  {
    Given(r.name) && Given(r.accountNumber) && Given(r.bankCode) && Given(r.bankName)
  }

  /** The field checks `createTransfer` makes before any lookup, in its order. */
  function ValidateTransferRequest(req: TransferRequest): (r: Response<TransferInput>)
    ensures r.Ok? || r.BadRequest?
    ensures r.Ok? <==>
      Given(req.quoteId) && req.payer.Some? && req.recipient.Some?
      && PayerComplete(req.payer.value) && RecipientComplete(req.recipient.value)
    ensures r.Ok? ==>
      && r.value.quoteId == req.quoteId.value
      && r.value.payerId == req.payer.value.id.value
      && r.value.payerName == req.payer.value.name.value
      && r.value.transferReason == req.payer.value.transferReason.value
      && r.value.recipientName == req.recipient.value.name.value
      && r.value.accountNumber == req.recipient.value.accountNumber.value
      && r.value.bankCode == req.recipient.value.bankCode.value
      && r.value.bankName == req.recipient.value.bankName.value
    ensures !(Given(req.quoteId) && req.payer.Some? && req.recipient.Some?)
      ==> r == BadRequest("QuoteId, payer and recipient are required")
    ensures Given(req.quoteId) && req.payer.Some? && req.recipient.Some? && !PayerComplete(req.payer.value)
      ==> r == BadRequest("Payer must include id, name and reason")
    ensures Given(req.quoteId) && req.payer.Some? && req.recipient.Some? && PayerComplete(req.payer.value)
      && !RecipientComplete(req.recipient.value)
      ==> r == BadRequest("Recipient must include name, accountNumber, bankCode and bankName")
  {
    if !Given(req.quoteId) || req.payer.None? || req.recipient.None? then
      BadRequest("QuoteId, payer and recipient are required")
    else if !PayerComplete(req.payer.value) then
      BadRequest("Payer must include id, name and reason")
    else if !RecipientComplete(req.recipient.value) then
      BadRequest("Recipient must include name, accountNumber, bankCode and bankName")
    else
      var p, r := req.payer.value, req.recipient.value;
      Ok(TransferInput(req.quoteId.value, p.id.value, p.name.value, p.transferReason.value,
                       r.name.value, r.accountNumber.value, r.bankCode.value, r.bankName.value))
  }

  /** The rows a transfer request resolves to. */
  datatype Resolved = Resolved(quote: Quote, payer: Payer, recipient: Recipient)

  /**
   * The three lookups of `createTransfer`, each failing on an EMPTY result: the
   * quote by id, the payer by id, and the first recipient with the request's
   * account number, bank code and bank name (the recipient's name is not used).
   */
  function ResolveTransfer(quotes: map<string, Quote>, payers: map<string, Payer>,
                           recipients: seq<Recipient>, input: TransferInput): (r: Response<Resolved>)
    ensures r.Ok? || r.NotFound?
    ensures r.Ok? <==>
      input.quoteId in quotes && input.payerId in payers
      && exists rec :: rec in recipients && HasAccount(rec, input.accountNumber, input.bankCode, input.bankName)
    ensures r.Ok? ==>
      && r.value.quote == quotes[input.quoteId]
      && r.value.payer == payers[input.payerId]
      && FirstWith(recipients, r.value.recipient, input.accountNumber, input.bankCode, input.bankName)
    ensures input.quoteId !in quotes ==> r == NotFound("Quote not found")
    ensures input.quoteId in quotes && input.payerId !in payers ==> r == NotFound("Payer not found")
    ensures input.quoteId in quotes && input.payerId in payers && !r.Ok? ==> r == NotFound("Receipt not found")
  {
    var quoteData := SelectByKey(quotes, input.quoteId);
    if quoteData == [] then NotFound("Quote not found")
    else
      var payerData := SelectByKey(payers, input.payerId);
      if payerData == [] then NotFound("Payer not found")
      else
        var recipientData := SelectRecipients(recipients, input.accountNumber, input.bankCode, input.bankName);
        if recipientData == [] then NotFound("Receipt not found")
        else Ok(Resolved(quoteData[0], payerData[0], recipientData[0]))
  }

  /** The row `createTransfer` inserts: status left to its default, delivery a day after `now`. */
  function TransferRow(transferId: string, input: TransferInput, resolved: Resolved, now: int): (ins: TransferInsert)
    ensures ins.status.None?
    ensures WithDefaults(ins).status == Created
    ensures ins.transferId == transferId && ins.quoteId == input.quoteId
    ensures ins.payerId == resolved.payer.payerId && ins.recipientId == resolved.recipient.recipientId
    ensures ins.estimatedDeliveryDate == now + 86400000
  {
    TransferInsert(transferId, input.quoteId, resolved.payer.payerId, resolved.recipient.recipientId,
                   None, now + DELIVERY_DELAY)
  }

  /** The response body: the transfer row, with payer and recipient details from their stored rows. */
  function TransferResponse(t: Transfer, p: Payer, r: Recipient): (v: TransferView)
    ensures v.transferId == t.transferId && v.status == t.status
    ensures v.estimatedDeliveryDate == t.estimatedDeliveryDate && v.transferDetails.quoteId == t.quoteId
    ensures v.transferDetails.payer == PayerView(p.payerId, p.name, p.transferReason)
    ensures v.transferDetails.recipient == RecipientView(r.name, r.accountNumber, r.bankCode, r.bankName)
  {
    TransferView(
      t.transferId, t.status,
      TransferDetails(t.quoteId,
                      PayerView(p.payerId, p.name, p.transferReason),
                      RecipientView(r.name, r.accountNumber, r.bankCode, r.bankName)),
      t.estimatedDeliveryDate)
  }

  /**
   * `retrieveTransfer`: the transfer joined to its payer and recipient by id.
   * The joins are left joins, so a transfer whose payer or recipient row is
   * missing yields null columns, and reading them throws.
   */
  function RetrieveTransfer(transfers: map<string, Transfer>, payers: map<string, Payer>,
                            recipients: seq<Recipient>, transferId: string): (res: Response<TransferView>)
    ensures transferId == "" ==> res == NotFound("TransferId is required")
    ensures transferId != "" && transferId !in transfers ==> res == NotFound("Transfer not found")
    ensures res.Ok? ==>
      && transferId in transfers
      && transfers[transferId].payerId in payers
      && var t := transfers[transferId];
         exists r :: r in recipients && r.recipientId == t.recipientId
                     && res.value == TransferResponse(t, payers[t.payerId], r)
    ensures (transferId != "" && transferId in transfers && transfers[transferId].payerId in payers
             && transfers[transferId].recipientId in RecipientIds(recipients)) ==> res.Ok?
    ensures (transferId != "" && transferId in transfers
             && (transfers[transferId].payerId !in payers
                 || transfers[transferId].recipientId !in RecipientIds(recipients))) ==> res == InternalError
  {
    if transferId == "" then NotFound("TransferId is required")
    else if transferId !in transfers then NotFound("Transfer not found")
    else
      var t := transfers[transferId];
      if t.payerId !in payers then InternalError
      else
        match RecipientById(recipients, t.recipientId)
        case None => InternalError
        case Some(r) => Ok(TransferResponse(t, payers[t.payerId], r))
  }

  /**
   * `createTransfer`: validate the fields, resolve quote, payer and recipient,
   * then store one transfer row in status `Created`, due a day after `now`, and
   * answer with details read from the stored rows.
   */
  method CreateTransfer(db: Store, req: TransferRequest, now: int, freshId: string)
    returns (res: Response<TransferView>)
    requires db.Valid()
    modifies db
    ensures db.Valid()
    ensures db.quotes == old(db.quotes) && db.payers == old(db.payers) && db.recipients == old(db.recipients)
    ensures old(db.Consistent()) ==> db.Consistent()
    ensures ValidateTransferRequest(req).BadRequest? ==>
      res == BadRequest(ValidateTransferRequest(req).message) && db.transfers == old(db.transfers)
    ensures ValidateTransferRequest(req).Ok? ==>
      var input := ValidateTransferRequest(req).value;
      var resolved := ResolveTransfer(db.quotes, db.payers, db.recipients, input);
      && (resolved.NotFound? ==> res == NotFound(resolved.message) && db.transfers == old(db.transfers))
      && (resolved.Ok? && freshId in old(db.transfers) ==> res == InternalError && db.transfers == old(db.transfers))
      && (resolved.Ok? && freshId !in old(db.transfers) ==>
            var row := WithDefaults(TransferRow(freshId, input, resolved.value, now));
            && db.transfers == old(db.transfers)[freshId := row]
            && res == Ok(TransferResponse(row, resolved.value.payer, resolved.value.recipient)))
    ensures res.Ok? ==>
      && res.value.transferId == freshId && freshId !in old(db.transfers)
      && res.value.status == Created
      && res.value.estimatedDeliveryDate == now + DELIVERY_DELAY
      && (freshId != "" ==> RetrieveTransfer(db.transfers, db.payers, db.recipients, freshId) == res)
  {
    var input := ValidateTransferRequest(req);
    if !input.Ok? {
      return BadRequest(input.message);
    }
    var resolved := ResolveTransfer(db.quotes, db.payers, db.recipients, input.value);
    if !resolved.Ok? {
      return NotFound(resolved.message);
    }
    var payer, recipient := resolved.value.payer, resolved.value.recipient;
    var transfer := db.InsertTransfer(TransferRow(freshId, input.value, resolved.value, now));
    if transfer.None? {
      return InternalError;
    }
    res := Ok(TransferResponse(transfer.value, payer, recipient));
    if freshId != "" {
      RetrieveAfterCreate(old(db.transfers), db.quotes, db.payers, db.recipients, input.value, resolved.value, now, freshId);
    }
  }

  /**
   * Reading back a transfer that was just created gives the same body the
   * creation answered with.
   */
  lemma {:induction false} RetrieveAfterCreate(transfers: map<string, Transfer>, quotes: map<string, Quote>,
                                               payers: map<string, Payer>, recipients: seq<Recipient>,
                                               input: TransferInput, resolved: Resolved, now: int, freshId: string)
    requires PayerKeys(payers) && RecipientKeys(recipients)
    requires ResolveTransfer(quotes, payers, recipients, input) == Ok(resolved)
    requires freshId != ""
    ensures var row := WithDefaults(TransferRow(freshId, input, resolved, now));
      RetrieveTransfer(transfers[freshId := row], payers, recipients, freshId)
        == Ok(TransferResponse(row, resolved.payer, resolved.recipient))
  {
    var i :| 0 <= i < |recipients| && recipients[i] == resolved.recipient;
    RecipientByOwnId(recipients, resolved.recipient);
  }
  // ===========================================================================
  // The lookups as the handler is written

  /** What the transfer insert takes from the lookups: the quote id and the payer and recipient rows. */
  datatype References = References(quoteId: string, payer: Payer, recipient: Recipient)

  /**
   * The lookups of `createTransfer` as written. Each guard tests `!rows` on the
   * array a select returns; an array is truthy even when empty, so none of the
   * three "not found" answers is ever given. The quote id goes into the insert
   * as the request gave it, whether or not a quote has it; an empty payer or
   * recipient result makes `rows[0].payerId` / `rows[0].recipientId` throw.
   */
  function ResolveTransferAsWritten(quotes: map<string, Quote>, payers: map<string, Payer>,
                                    recipients: seq<Recipient>, input: TransferInput): (r: Response<References>)
    ensures r.Ok? || r == InternalError
    ensures r.Ok? <==>
      input.payerId in payers
      && exists rec :: rec in recipients && HasAccount(rec, input.accountNumber, input.bankCode, input.bankName)
    ensures r.Ok? ==> r.value.quoteId == input.quoteId && r.value.payer == payers[input.payerId]
  {
    var payerData := SelectByKey(payers, input.payerId);
    var recipientData := SelectRecipients(recipients, input.accountNumber, input.bankCode, input.bankName);
    if payerData == [] || recipientData == [] then InternalError
    else Ok(References(input.quoteId, payerData[0], recipientData[0]))
  }

  /**
   * As written, a request naming a quote that does not exist gets no 404: it
   * passes the lookups, and the row the handler then inserts refers to no quote
   * (stored if the connection does not enforce foreign keys, otherwise the
   * insert throws); with the emptiness checks the request is answered
   * "Quote not found" and nothing is stored.
   */
  lemma AsWrittenBooksUnknownQuote(quotes: map<string, Quote>, payers: map<string, Payer>,
                                   recipients: seq<Recipient>, transfers: map<string, Transfer>,
                                   input: TransferInput, now: int, freshId: string)
    requires input.quoteId !in quotes && input.payerId in payers
    requires exists rec :: rec in recipients && HasAccount(rec, input.accountNumber, input.bankCode, input.bankName)
    ensures ResolveTransferAsWritten(quotes, payers, recipients, input).Ok?
    ensures var refs := ResolveTransferAsWritten(quotes, payers, recipients, input).value;
      var row := WithDefaults(TransferInsert(freshId, refs.quoteId, refs.payer.payerId, refs.recipient.recipientId,
                                             None, now + DELIVERY_DELAY));
      !ReferencesHold(quotes, payers, recipients, transfers[freshId := row])
    ensures ResolveTransfer(quotes, payers, recipients, input) == NotFound("Quote not found")
  {
    var refs := ResolveTransferAsWritten(quotes, payers, recipients, input).value;
    var row := WithDefaults(TransferInsert(freshId, refs.quoteId, refs.payer.payerId, refs.recipient.recipientId,
                                           None, now + DELIVERY_DELAY));
    var after := transfers[freshId := row];
    assert freshId in after && after[freshId].quoteId !in quotes;
  }

  /** The same request, concretely: an empty quotes table, one payer, one recipient. */
  lemma AsWrittenBooksUnknownQuoteExample()
    ensures var payer := Payer("p1", "Test Payer", "Test");
      var recipient := Recipient("r1", "Test Recipient", "123456", "TESTBANK", "Test Bank");
      var input := TransferInput("q-missing", "p1", "Test Payer", "Test",
                                 "Test Recipient", "123456", "TESTBANK", "Test Bank");
      && ResolveTransferAsWritten(map[], map["p1" := payer], [recipient], input)
         == Ok(References("q-missing", payer, recipient))
      && ResolveTransfer(map[], map["p1" := payer], [recipient], input) == NotFound("Quote not found")
  {
  }

  /**
   * As written, an unknown payer or an unmatched recipient makes the handler
   * throw where the emptiness checks answer "Payer not found" or
   * "Receipt not found" (or "Quote not found" first, if the quote is missing too).
   */
  lemma AsWrittenThrowsOnMissingParty(quotes: map<string, Quote>, payers: map<string, Payer>,
                                      recipients: seq<Recipient>, input: TransferInput)
    requires input.payerId !in payers
      || !exists rec :: rec in recipients && HasAccount(rec, input.accountNumber, input.bankCode, input.bankName)
    ensures ResolveTransferAsWritten(quotes, payers, recipients, input) == InternalError
    ensures ResolveTransfer(quotes, payers, recipients, input).NotFound?
  {
  }

  /** Where both versions find every row, they book the same references. */
  lemma AsWrittenAgreesWhenAllFound(quotes: map<string, Quote>, payers: map<string, Payer>,
                                    recipients: seq<Recipient>, input: TransferInput)
    requires QuoteKeys(quotes)
    requires ResolveTransfer(quotes, payers, recipients, input).Ok?
    ensures var resolved := ResolveTransfer(quotes, payers, recipients, input).value;
      ResolveTransferAsWritten(quotes, payers, recipients, input)
        == Ok(References(resolved.quote.quoteId, resolved.payer, resolved.recipient))
  {
  }

  /** Only the recipient's account number, bank code and bank name pick the row; the names given play no part. */
  lemma ResolutionIgnoresNames(quotes: map<string, Quote>, payers: map<string, Payer>,
                               recipients: seq<Recipient>, input: TransferInput,
                               payerName: string, transferReason: string, recipientName: string)
    ensures ResolveTransfer(quotes, payers, recipients, input)
         == ResolveTransfer(quotes, payers, recipients,
                            input.(payerName := payerName, transferReason := transferReason,
                                   recipientName := recipientName))
  {
  }
  // ===========================================================================
  // A client

  /** The pure steps of the booking scenario below. */
  lemma BookingScenarioSteps(now: int)
    ensures ValidateQuoteRequest(QuoteRequest(Some("AUD"), Some("INR"), Some(1000.0))) == Ok(QuoteInput("AUD", "INR", 1000.0))
    ensures GetRatesResult(INITIAL_CACHE, RateKey("AUD", "INR"), Some(ExchangeRateResponse("AUD", "INR", 55.5)), now) == 55.5
    ensures ValidateTransferRequest(ScenarioTransferRequest()) == Ok(ScenarioTransferInput())
    ensures ResolveTransfer(map["q1" := PriceQuote("q1", QuoteInput("AUD", "INR", 1000.0), 55.5)],
                            map["p1" := ScenarioPayer()], [ScenarioRecipient()], ScenarioTransferInput())
         == Ok(Resolved(PriceQuote("q1", QuoteInput("AUD", "INR", 1000.0), 55.5), ScenarioPayer(), ScenarioRecipient()))
  {
    ScenarioQuoteSteps(now);
    ScenarioResolveStep();
  }

  lemma ScenarioQuoteSteps(now: int)
    ensures ValidateQuoteRequest(QuoteRequest(Some("AUD"), Some("INR"), Some(1000.0))) == Ok(QuoteInput("AUD", "INR", 1000.0))
    ensures GetRatesResult(INITIAL_CACHE, RateKey("AUD", "INR"), Some(ExchangeRateResponse("AUD", "INR", 55.5)), now) == 55.5
  {
    MissResult(INITIAL_CACHE, RateKey("AUD", "INR"), Some(ExchangeRateResponse("AUD", "INR", 55.5)), now);
  }

  lemma ScenarioResolveStep()
    ensures ResolveTransfer(map["q1" := PriceQuote("q1", QuoteInput("AUD", "INR", 1000.0), 55.5)],
                            map["p1" := ScenarioPayer()], [ScenarioRecipient()], ScenarioTransferInput())
         == Ok(Resolved(PriceQuote("q1", QuoteInput("AUD", "INR", 1000.0), 55.5), ScenarioPayer(), ScenarioRecipient()))
  {
    assert SelectRecipients([ScenarioRecipient()], "123456", "TESTBANK", "Test Bank") == [ScenarioRecipient()];
  }

  function ScenarioPayer(): Payer { Payer("p1", "Test Payer", "Test") }

  function ScenarioRecipient(): Recipient { Recipient("r1", "Test Recipient", "123456", "TESTBANK", "Test Bank") }

  function ScenarioTransferRequest(): TransferRequest
  {
    TransferRequest(Some("q1"),
                    Some(PayerInput(Some("p1"), Some("Test Payer"), Some("Test"))),
                    Some(RecipientInput(Some("Test Recipient"), Some("123456"), Some("TESTBANK"), Some("Test Bank"))))
  }

  function ScenarioTransferInput(): TransferInput
  {
    TransferInput("q1", "p1", "Test Payer", "Test", "Test Recipient", "123456", "TESTBANK", "Test Bank")
  }

  /**
   * The booking scenario end to end, on a fresh store and a fresh rate service:
   * quote 1000 AUD to INR while the provider answers 55.5, register a payer and
   * a recipient, book a transfer against the quote, and read it back.
   */
  method BookingScenario(now: int)
    returns (quote: Response<QuoteView>, transfer: Response<TransferView>, retrieved: Response<TransferView>)
    ensures quote == Ok(QuoteView("q1", 55.2225, 0.01811, 55222.5))
    ensures transfer.Ok? && transfer.value.transferId == "t1" && transfer.value.status == Created
    ensures transfer.value.transferDetails == TransferDetails(
      "q1", PayerView("p1", "Test Payer", "Test"),
      RecipientView("Test Recipient", "123456", "TESTBANK", "Test Bank"))
    ensures transfer.value.estimatedDeliveryDate == now + DELIVERY_DELAY
    ensures retrieved == transfer
  {
    var db := new Store();
    var service := new ExchangeRateService();
    BookingScenarioSteps(now);
    WorkedExampleAudInr("q1");
    quote := CreateQuote(db, service, QuoteRequest(Some("AUD"), Some("INR"), Some(1000.0)),
                         Some(ExchangeRateResponse("AUD", "INR", 55.5)), now, "q1");
    var _ := db.InsertPayer(ScenarioPayer());
    var _ := db.InsertRecipient(ScenarioRecipient());
    transfer := CreateTransfer(db, ScenarioTransferRequest(), now, "t1");
    retrieved := RetrieveTransfer(db.transfers, db.payers, db.recipients, "t1");
  }
}
