/**
 * The database the handlers talk to, as an object whose four tables are fields.
 * Each insert is one atomic row write that returns the stored row; a primary-key
 * violation makes the insert throw, which the model reports as `None`.
 * Foreign keys are declared in the schema but not enforced on insert.
 */
module Db {
  import opened Wrappers
  import opened Schema

  class Store {
    var quotes: map<string, Quote>
    var payers: map<string, Payer>
    var recipients: seq<Recipient>
    var transfers: map<string, Transfer>

    /** The primary keys of all four tables are unique. */
    ghost predicate Valid()
      reads this
    {
      QuoteKeys(quotes) && PayerKeys(payers) && RecipientKeys(recipients) && TransferKeys(transfers)
    }

    /** The references the transfers table declares are all satisfied. */
    ghost predicate Consistent()
      reads this
    {
      ReferencesHold(quotes, payers, recipients, transfers)
    }

    constructor ()
      ensures Valid() && Consistent()
      ensures quotes == map[] && payers == map[] && recipients == [] && transfers == map[]
    {
      quotes, payers, recipients, transfers := map[], map[], [], map[];
    }

    /** `insert into quotes values (q) returning *`. */
    method InsertQuote(q: Quote) returns (stored: Option<Quote>)
      requires Valid()
      modifies this
      ensures Valid()
      ensures stored.Some? <==> q.quoteId !in old(quotes)
      ensures stored.Some? ==> stored.value == q && quotes == old(quotes)[q.quoteId := q]
      ensures stored.None? ==> quotes == old(quotes)
      ensures payers == old(payers) && recipients == old(recipients) && transfers == old(transfers)
      ensures old(Consistent()) ==> Consistent()
    {
      if q.quoteId in quotes {
        stored := None;
      } else {
        quotes := quotes[q.quoteId := q];
        stored := Some(q);
      }
    }

    /** `insert into payer values (p) returning *`. */
    method InsertPayer(p: Payer) returns (stored: Option<Payer>)
      requires Valid()
      modifies this
      ensures Valid()
      ensures stored.Some? <==> p.payerId !in old(payers)
      ensures stored.Some? ==> stored.value == p && payers == old(payers)[p.payerId := p]
      ensures stored.None? ==> payers == old(payers)
      ensures quotes == old(quotes) && recipients == old(recipients) && transfers == old(transfers)
      ensures old(Consistent()) ==> Consistent()
    {
      if p.payerId in payers {
        stored := None;
      } else {
        payers := payers[p.payerId := p];
        stored := Some(p);
      }
    }

    /** `insert into recipient values (r) returning *`: the new row goes last. */
    method InsertRecipient(r: Recipient) returns (stored: Option<Recipient>)
      requires Valid()
      modifies this
      ensures Valid()
      ensures stored.Some? <==> r.recipientId !in RecipientIds(old(recipients))
      ensures stored.Some? ==> stored.value == r && recipients == old(recipients) + [r]
      ensures stored.None? ==> recipients == old(recipients)
      ensures quotes == old(quotes) && payers == old(payers) && transfers == old(transfers)
      ensures old(Consistent()) ==> Consistent()
    {
      if r.recipientId in RecipientIds(recipients) {
        stored := None;
      } else {
        recipients := recipients + [r];
        stored := Some(r);
      }
    }

    /** `insert into transfers values (ins) returning *`: column defaults are applied. */
    method InsertTransfer(ins: TransferInsert) returns (stored: Option<Transfer>)
      requires Valid()
      modifies this
      ensures Valid()
      ensures stored.Some? <==> ins.transferId !in old(transfers)
      ensures stored.Some? ==> stored.value == WithDefaults(ins) && transfers == old(transfers)[ins.transferId := stored.value]
      ensures stored.None? ==> transfers == old(transfers)
      ensures quotes == old(quotes) && payers == old(payers) && recipients == old(recipients)
    {
      if ins.transferId in transfers {
        stored := None;
      } else {
        var row := WithDefaults(ins);
        transfers := transfers[ins.transferId := row];
        stored := Some(row);
      }
    }
  }
}
