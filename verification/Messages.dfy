/** The message table: what each transaction on it does, as functions on its contents. */
module Messages {
  import opened Options

  datatype Channel = WhatsApp | Web

  /** The unique identity of a conversation row; it also scopes the conversation's Redis keys. */
  datatype Scope = Scope(channel: Channel, account: string, conversation: string)

  datatype ProcessingStatus = Pending | Processing | Completed | Failed

  datatype MessageRow =
    | Inbound(scope: Scope, text: string, createdAt: nat,
              status: ProcessingStatus, attempts: nat,
              availableAt: Option<nat>, claimedAt: Option<nat>, errorCode: Option<string>)
    | Outbound(scope: Scope, text: string)

  /** Keyed by the external message id, which the table keeps unique. */
  type MessageTable = map<string, MessageRow>

  const REPLY_PREFIX := "piki-reply:"

  predicate IsReplyId(id: string) {
    REPLY_PREFIX <= id
  }

  /** The external id under which the reply to message `id` is stored. */
  function ReplyId(id: string): (r: string)
    ensures IsReplyId(r) && r[|REPLY_PREFIX|..] == id
  {
    REPLY_PREFIX + id
  }

  /** `record_inbound` with `enqueue_processing`: insert unless the external id exists. */
  function InsertInbound(table: MessageTable, id: string, scope: Scope, text: string, now: nat)
    : (result: (MessageTable, bool))
  {
    if id in table then (table, false)
    else (table[id := Inbound(scope, text, now, Pending, 0, Some(now), None, None)], true)
  }

  /** `record_outbound`: insert unless the external id exists; the flag says whether it inserted. */
  function InsertOutbound(table: MessageTable, id: string, scope: Scope, text: string)
    : (result: (MessageTable, bool))
  {
    if id in table then (table, false)
    else (table[id := Outbound(scope, text)], true)
  }

  /** A row `claim_next` may take: due pending work, or a claim that has gone stale. */
  predicate Claimable(row: MessageRow, now: nat, claimTimeout: nat) {
    && row.Inbound?
    && match row.status
       case Pending => row.availableAt.Some? && row.availableAt.value <= now
       case Processing => row.claimedAt.Some? && row.claimedAt.value + claimTimeout <= now
       case Completed => false
       case Failed => false
  }

  /** The claimed row: one more attempt, claimed now, whatever its attempts already are. */
  function Claim(row: MessageRow, now: nat): MessageRow
    requires row.Inbound?
  {
    row.(status := Processing, attempts := row.attempts + 1, claimedAt := Some(now), errorCode := None)
  }

  predicate InProgress(messages: MessageTable, id: string) {
    id in messages && messages[id].Inbound? && messages[id].status == Processing
  }

  /** `_transition`: guarded by the status alone, not by who claimed the row. None is the raised error. */
  function Transition(table: MessageTable, id: string, status: ProcessingStatus,
                      errorCode: Option<string>, availableAt: Option<nat>)
    : (result: Option<MessageTable>)
  {
    if InProgress(table, id) then
      Some(table[id := table[id].(status := status, availableAt := availableAt,
                                  claimedAt := None, errorCode := errorCode)])
    else None
  }
}
