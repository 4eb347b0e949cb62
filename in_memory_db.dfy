/** The InMemoryDB of src/db/inMemoryDB.ts: a list of webhooks appended to in place. */
module InMemoryDb {
  import opened Webhooks

  class InMemoryDB {
    /** The stored webhooks, in the order they were added. */
    var webhooks: seq<Webhook>

    constructor ()
      ensures webhooks == []
    {
      webhooks := [];
    }

    /** Appends one webhook at the end and returns it; nothing is deduplicated. */
    method AddWebhook(webhook: Webhook) returns (stored: Webhook)
      modifies this
      ensures webhooks == old(webhooks) + [webhook]
      ensures |webhooks| == |old(webhooks)| + 1 && old(webhooks) <= webhooks
      ensures stored == webhook
    {
      webhooks := webhooks + [webhook];
      stored := webhook;
    }

    /** Returns the current list and changes nothing. */
    method GetWebhooks() returns (ws: seq<Webhook>)
      ensures ws == webhooks
    {
      ws := webhooks;
    }

    /** Empties the list (used between tests). */
    method Reset()
      modifies this
      ensures webhooks == []
    {
      webhooks := [];
    }

    /** Appends the given webhooks one by one, in order, and returns them. */
    method AddWebhooks(ws: seq<Webhook>) returns (added: seq<Webhook>)
      modifies this
      ensures webhooks == old(webhooks) + ws
      ensures old(webhooks) <= webhooks
      ensures added == ws
    {
      for i := 0 to |ws|
        invariant webhooks == old(webhooks) + ws[..i]
      {
        webhooks := webhooks + [ws[i]];
      }
      added := ws;
    }
  }

  /** Adding the same webhook twice stores it twice, after everything already stored. */
  method AddTwice(db: InMemoryDB, w: Webhook)
    modifies db
    ensures db.webhooks == old(db.webhooks) + [w, w]
  {
    var first := db.AddWebhook(w);
    var second := db.AddWebhook(w);
  }

  /** A webhook added to an emptied store is exactly what a later listing returns. */
  method ResetAddList(db: InMemoryDB, w: Webhook) returns (listed: seq<Webhook>)
    modifies db
    ensures listed == [w]
  {
    db.Reset();
    var stored := db.AddWebhook(w);
    listed := db.GetWebhooks();
  }
}
