/** What composing a reply works from. */
module Contracts {
  import opened Options

  datatype EvidenceSource = BuenPickInternalApi | Conversation | Policy

  datatype EvidenceItem = EvidenceItem(caption: string, value: string, source: EvidenceSource,
      reference: Option<string>)

  datatype ActionOutcome = Succeeded | Failed | Skipped

  datatype PerformedAction = PerformedAction(name: string, outcome: ActionOutcome, reference: Option<string>)

  datatype ResponseMode = Deterministic | Jinja | JinjaLlm | NonCommercialLlm

  datatype ContextPacket = ContextPacket(
    task: string, query: string,
    confirmed: seq<EvidenceItem>, unavailable: seq<string>,
    actions: seq<PerformedAction>, rules: seq<string>,
    mode: ResponseMode, activePickId: Option<string>, traceId: string)
}
