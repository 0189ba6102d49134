/**
 * `MailWebhookController` (app/controllers/mail_webhook.py): forward each
 * mail-server event once to every admin chat, remembering the message ids
 * already seen for the life of the process.
 */
module MailWebhook {
  import opened Dtos

  /** One `send_message` call to an admin chat, and whether it went through. */
  datatype Attempt = Attempt(chatId: int, text: string, delivered: bool)

  /** The HTML text sent for an event: a fixed header, then the recipient, status and output, the output last. */
  function MailText(ev: MailWebhookEvent): (text: string)
    ensures var head := "Mail webhook event:\n\n<b>To:</b> ";
      && |text| > |head| + |ev.to| && text[..|head|] == head && text[|head|..|head| + |ev.to|] == ev.to
      && |text| >= |ev.output| && text[|text| - |ev.output|..] == ev.output
  {
    "Mail webhook event:\n\n<b>To:</b> " + ev.to + "\n<b>Status:</b> " + ev.status + "\n<b>Output:</b> " + ev.output
  }

  /** One attempt per admin chat, in list order; chat number `i` fails iff `i` is in `failing`. */
  function Fanout(adminChatIds: seq<int>, text: string, failing: set<nat>): (r: seq<Attempt>)
    ensures |r| == |adminChatIds|
    ensures forall i :: 0 <= i < |r| ==> r[i] == Attempt(adminChatIds[i], text, i !in failing)
  {
    seq(|adminChatIds|, i requires 0 <= i < |adminChatIds| => Attempt(adminChatIds[i], text, i !in failing))
  }

  /** The message ids acted upon, in order, when `ids` arrive with `seen` already processed. */
  function Acted(seen: set<int>, ids: seq<int>): seq<int>
    decreases |ids|
  {
    if |ids| == 0 then []
    else if ids[0] in seen then Acted(seen, ids[1..])
    else [ids[0]] + Acted(seen + {ids[0]}, ids[1..])
  }

  /**
   * However often a message id is delivered, it is acted upon at most
   * once, and never when it was already processed.
   */
  lemma {:induction false} ActedOnce(seen: set<int>, ids: seq<int>)
    ensures forall i, j :: 0 <= i < j < |Acted(seen, ids)| ==> Acted(seen, ids)[i] != Acted(seen, ids)[j]
    ensures forall i :: 0 <= i < |Acted(seen, ids)| ==> Acted(seen, ids)[i] !in seen && Acted(seen, ids)[i] in ids
    decreases |ids|
  {
    if |ids| > 0 {
      assert forall x :: x in ids[1..] ==> x in ids;
      if ids[0] in seen {
        ActedOnce(seen, ids[1..]);
        assert Acted(seen, ids) == Acted(seen, ids[1..]);
      } else {
        ActedOnce(seen + {ids[0]}, ids[1..]);
        var rest := Acted(seen + {ids[0]}, ids[1..]);
        assert forall i :: 0 <= i < |rest| ==> rest[i] !in seen + {ids[0]};
        var r := Acted(seen, ids);
        assert r == [ids[0]] + rest;
        assert forall i :: 0 < i < |r| ==> r[i] == rest[i - 1];
      }
    }
  }

  /** Every id delivered is acted upon, unless it was already processed. */
  lemma {:induction false} ActedCovers(seen: set<int>, ids: seq<int>, k: int)
    requires 0 <= k < |ids| && ids[k] !in seen
    ensures ids[k] in Acted(seen, ids)
    decreases |ids|
  {
    if k > 0 {
      if ids[0] in seen {
        ActedCovers(seen, ids[1..], k - 1);
      } else if ids[k] != ids[0] {
        ActedCovers(seen + {ids[0]}, ids[1..], k - 1);
      }
    }
  }

  class MailWebhookController {
    const adminChatIds: seq<int>
    /** `processed_mail_webhook_ids`, the module-level set. */
    var processed: set<int>
    /** Every `send_message` attempted, oldest first. */
    var attempts: seq<Attempt>

    constructor (adminChatIds: seq<int>)
      ensures this.adminChatIds == adminChatIds && processed == {} && attempts == []
    {
      this.adminChatIds := adminChatIds;
      processed := {};
      attempts := [];
    }

    /**
     * `handle_webhook`: a seen id is dropped; otherwise the id is recorded
     * first, then one send per admin chat is attempted, a failing one
     * (its index in `failing`) being logged and skipped.
     */
    method HandleWebhook(ev: MailWebhookEvent, failing: set<nat>)
      modifies this`processed, this`attempts
      ensures old(processed) <= processed
      ensures ev.messageId in old(processed) ==> processed == old(processed) && attempts == old(attempts)
      ensures ev.messageId !in old(processed) ==>
        && processed == old(processed) + {ev.messageId}
        && attempts == old(attempts) + Fanout(adminChatIds, MailText(ev), failing)
    {
      if ev.messageId in processed {
        return;
      }
      processed := processed + {ev.messageId};
      var text := MailText(ev);
      for i := 0 to |adminChatIds|
        invariant processed == old(processed) + {ev.messageId}
        invariant attempts == old(attempts) + Fanout(adminChatIds[..i], text, failing)
      {
        assert adminChatIds[..i + 1] == adminChatIds[..i] + [adminChatIds[i]];
        attempts := attempts + [Attempt(adminChatIds[i], text, i !in failing)];
      }
      assert adminChatIds[..|adminChatIds|] == adminChatIds;
    }
  }
}
