/**
 * The four tables of the service: row shapes, the transfer status enum and its
 * default, primary keys, references, and the queries the handlers run on them.
 * Timestamps are milliseconds since the epoch; the stored ISO-8601 text of
 * `estimatedDeliveryDate` is represented by the instant it denotes.
 */
module Schema {
  import opened Wrappers

  /** A priced conversion offer; every column is NOT NULL. */
  datatype Quote = Quote(
    quoteId: string,
    sellCurrency: string,
    buyCurrency: string,
    amount: real,
    ofxRate: real,
    inverseOfxRate: real,
    convertedAmount: real)

  datatype Payer = Payer(payerId: string, name: string, transferReason: string)

  datatype Recipient = Recipient(
    recipientId: string,
    name: string,
    accountNumber: string,
    bankCode: string,
    bankName: string)

  /** The `status` column's enum. */
  datatype Status = Created | Processing | Processed | Failed

  /** The value the `status` column takes when an insert leaves it out. */
  const DEFAULT_STATUS: Status := Created

  datatype Transfer = Transfer(
    transferId: string,
    quoteId: string,
    payerId: string,
    recipientId: string,
    status: Status,
    estimatedDeliveryDate: int)

  /** The values an insert into the transfers table supplies; `status` may be omitted. */
  datatype TransferInsert = TransferInsert(
    transferId: string,
    quoteId: string,
    payerId: string,
    recipientId: string,
    status: Option<Status>,
    estimatedDeliveryDate: int)

  /** The row the database stores for an insert: the supplied values, column defaults filled in. */
  function WithDefaults(ins: TransferInsert): (t: Transfer)
    ensures t.transferId == ins.transferId && t.quoteId == ins.quoteId
    ensures t.payerId == ins.payerId && t.recipientId == ins.recipientId
    ensures t.estimatedDeliveryDate == ins.estimatedDeliveryDate
    ensures ins.status.None? ==> t.status == Created
    ensures ins.status.Some? ==> t.status == ins.status.value
  {
    Transfer(ins.transferId, ins.quoteId, ins.payerId, ins.recipientId,
             match ins.status case Some(s) => s case None => DEFAULT_STATUS,
             ins.estimatedDeliveryDate)
  }

  // ---------------------------------------------------------------------------
  // Primary keys. Tables that are only ever reached by primary key are maps from
  // key to row; the recipient table is also searched by another column set and
  // the handler takes the first hit, so it keeps its row order as a sequence.

  ghost predicate QuoteKeys(quotes: map<string, Quote>)
  {
    forall id :: id in quotes ==> quotes[id].quoteId == id
  }

  ghost predicate PayerKeys(payers: map<string, Payer>)
  {
    forall id :: id in payers ==> payers[id].payerId == id
  }

  ghost predicate TransferKeys(transfers: map<string, Transfer>)
  {
    forall id :: id in transfers ==> transfers[id].transferId == id
  }

  /** `recipientId` is unique within the recipient table. */
  ghost predicate RecipientKeys(recipients: seq<Recipient>)
  {
    forall i, j :: 0 <= i < j < |recipients| ==> recipients[i].recipientId != recipients[j].recipientId
  }

  function RecipientIds(recipients: seq<Recipient>): (ids: set<string>)
    ensures forall r :: r in recipients ==> r.recipientId in ids
    ensures forall id :: id in ids ==> exists r :: r in recipients && r.recipientId == id
  {
    set r | r in recipients :: r.recipientId
  }

  /** Every transfer refers to an existing quote, payer and recipient. */
  ghost predicate ReferencesHold(
    quotes: map<string, Quote>, payers: map<string, Payer>,
    recipients: seq<Recipient>, transfers: map<string, Transfer>)
  {
    forall id :: id in transfers ==>
      && transfers[id].quoteId in quotes
      && transfers[id].payerId in payers
      && transfers[id].recipientId in RecipientIds(recipients)
  }

  // ---------------------------------------------------------------------------
  // Queries. Each returns the rows a SELECT yields, in table order.

  /**
   * `select * from <table> where <primary key> = id`, for a table kept as a map
   * from primary key to row (quotes by quote_id, payer by payer_id).
   */
  function SelectByKey<R>(table: map<string, R>, id: string): (rows: seq<R>)
    ensures |rows| <= 1
    ensures rows != [] <==> id in table
    ensures rows != [] ==> rows[0] == table[id]
  {
    if id in table then [table[id]] else []
  }

  /** The composite key a recipient is looked up by; `name` is not part of it. */
  predicate HasAccount(r: Recipient, accountNumber: string, bankCode: string, bankName: string)
  {
    r.accountNumber == accountNumber && r.bankCode == bankCode && r.bankName == bankName
  }

  /**
   * `select * from recipient where account_number = .. and bank_code = .. and bank_name = ..`:
   * the matching rows in table order. The three columns are not declared unique,
   * so several rows may match.
   */
  function SelectRecipients(recipients: seq<Recipient>, accountNumber: string, bankCode: string, bankName: string)
    : (rows: seq<Recipient>)
    ensures |rows| <= |recipients|
    ensures forall r :: r in rows <==> r in recipients && HasAccount(r, accountNumber, bankCode, bankName)
    ensures rows != [] ==> FirstWith(recipients, rows[0], accountNumber, bankCode, bankName)
  {
    if recipients == [] then []
    else
      var rest := SelectRecipients(recipients[1..], accountNumber, bankCode, bankName);
      if HasAccount(recipients[0], accountNumber, bankCode, bankName) then [recipients[0]] + rest
      else
        assert rest != [] ==> FirstWith(recipients[1..], rest[0], accountNumber, bankCode, bankName);
        rest
  }

  /** r is the earliest row of the table with the given composite key. */
  ghost predicate FirstWith(recipients: seq<Recipient>, r: Recipient, accountNumber: string, bankCode: string, bankName: string)
  {
    exists i :: 0 <= i < |recipients| && recipients[i] == r && HasAccount(r, accountNumber, bankCode, bankName)
      && forall j :: 0 <= j < i ==> !HasAccount(recipients[j], accountNumber, bankCode, bankName)
  }

  /** The recipient row with primary key `id`, as a left join on `recipient_id` finds it. */
  function RecipientById(recipients: seq<Recipient>, id: string): (r: Option<Recipient>)
    ensures r.Some? <==> id in RecipientIds(recipients)
    ensures r.Some? ==> r.value in recipients && r.value.recipientId == id
  {
    if recipients == [] then None
    else if recipients[0].recipientId == id then Some(recipients[0])
    else RecipientById(recipients[1..], id)
  }

  /** With unique keys, looking a stored recipient up by its key gives that very row back. */
  lemma {:induction false} RecipientByOwnId(recipients: seq<Recipient>, r: Recipient)
    requires RecipientKeys(recipients)
    requires r in recipients
    ensures RecipientById(recipients, r.recipientId) == Some(r)
  {
    if recipients[0] != r {
      assert recipients[0].recipientId != r.recipientId by {
        var i :| 0 <= i < |recipients| && recipients[i] == r;
        assert i > 0;
      }
      assert RecipientKeys(recipients[1..]) by {
        forall i, j | 0 <= i < j < |recipients[1..]|
          ensures recipients[1..][i].recipientId != recipients[1..][j].recipientId
        {
          assert recipients[1..][i] == recipients[i + 1] && recipients[1..][j] == recipients[j + 1];
        }
      }
      RecipientByOwnId(recipients[1..], r);
    }
  }
}
