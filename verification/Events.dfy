/** The nine events of the agent that the operator's side of the wire protocol speaks of. */
module Events {
  import opened Text
  import opened Json
  import opened Priorities

  type NumberToken = t: string | IsNumber(t) witness "0"

  /** An `f32` by its `Display` text: a decimal token when finite. */
  datatype Float = Finite(token: NumberToken) | NaN | Infinity | NegInfinity

  function Display(f: Float): string {
    match f
    case Finite(t) => t
    case NaN => "NaN"
    case Infinity => "inf"
    case NegInfinity => "-inf"
  }

  type U32 = n: nat | n < U32_LIMIT
  type U64 = n: nat | n < U64_LIMIT

  datatype Event =
    | Vitals(thermalLoad: Float, computePressure: Float, memoryPressure: Float, powerBudget: Float,
             financialBudget: Float, attentionDemand: Float, aggregateStress: Float)
    | State(lifecycle: string, sleepPhase: Option<string>, agendaDepth: U32)
    | Accepted(acceptedId: string, priority: Priority, forced: bool, forceReason: Option<string>,
               replyTo: Option<string>, text: string)
    | AgentQuestion(taskId: U64, questionId: string, text: string, options: seq<string>, reason: string)
    | Gate(messageId: Option<string>, invoke: bool, costClass: Option<string>, valueScore: Float,
           threshold: Float, overrideActive: bool, reasoning: string)
    | Audit(auditKind: string, detail: string, messageId: Option<string>)
    | TaskStarted(taskId: U64, messageId: Option<string>, prompt: string)
    | AgentMessage(taskId: U64, messageId: Option<string>, tokens: U32, text: string)
    | Heartbeat(uptimeSecs: U64)

  predicate AllFinite(e: Event) {
    match e
    case Vitals(a, b, c, d, f, g, h) =>
      a.Finite? && b.Finite? && c.Finite? && d.Finite? && f.Finite? && g.Finite? && h.Finite?
    case Gate(_, _, _, v, t, _, _) => v.Finite? && t.Finite?
    case _ => true
  }
}
