/**
  Top-level dispatch of the FMC flows: the RT-alias layer runs first, then
  the latched reset reason selects exactly one of the cold, warm, update or
  unknown reset flows, whose outcome is the outcome of the stage.
 */
module Flow {
  import opened Types
  import opened FmcEnv
  import RtAlias

  datatype FlowKind = ColdResetFlow | WarmResetFlow | UpdateResetFlow | UnknownResetFlow

  /** A flow body acts on the machine with the hand-off record. */
  type FlowBody = (Machine, HandOff) -> Outcome

  /** The four flows, whose bodies are outside this model. */
  datatype Flows = Flows(cold: FlowBody, warm: FlowBody, update: FlowBody, unknown: FlowBody) {
    function Body(k: FlowKind): FlowBody
    {
      match k
      case ColdResetFlow => cold
      case WarmResetFlow => warm
      case UpdateResetFlow => update
      case UnknownResetFlow => unknown
    }
  }

  /** Routing: the three recognised reasons each have their own flow and
      every other reason goes to the unknown-reset flow. */
  function SelectFlow(reason: ResetReason): (k: FlowKind)
    ensures k == ColdResetFlow <==> reason == ColdReset
    ensures k == WarmResetFlow <==> reason == WarmReset
    ensures k == UpdateResetFlow <==> reason == UpdateReset
    ensures k == UnknownResetFlow <==> !(reason.ColdReset? || reason.WarmReset? || reason.UpdateReset?)
  {
    match reason
    case ColdReset => ColdResetFlow
    case WarmReset => WarmResetFlow
    case UpdateReset => UpdateResetFlow
    case _ => UnknownResetFlow
  }

  /** The stage: the RT-alias layer first, its returned result discarded;
      then the reset reason, read from the machine as the layer left it,
      picks the flow. If the layer halts, no flow runs. */
  function Run(e: Engines, flows: Flows, m: Machine, h: HandOff): (o: Outcome)
    ensures RtAlias.Run(e, m, h).Halted? ==> o == Halted(RtAlias.DeriveFailedCode)
    ensures RtAlias.Run(e, m, h).Returned? ==>
              o == flows.Body(SelectFlow(m.resetReason))(RtAlias.Run(e, m, h).machine, h)
  {
    match RtAlias.Run(e, m, h)
    case Halted(code) => Halted(code)
    case Returned(_, afterLayer) =>
      var reason := afterLayer.resetReason;
      flows.Body(SelectFlow(reason))(afterLayer, h)
  }

  /** Exactly one flow runs: replacing the bodies of the flows the reset
      reason does not select leaves the outcome unchanged. */
  lemma OnlySelectedFlowRuns(e: Engines, f1: Flows, f2: Flows, m: Machine, h: HandOff)
    requires forall m': Machine, h': HandOff ::
               f1.Body(SelectFlow(m.resetReason))(m', h') == f2.Body(SelectFlow(m.resetReason))(m', h')
    ensures Run(e, f1, m, h) == Run(e, f2, m, h)
  {
  }

  /** The RT-alias result is ignored: two machines on which the layer
      returns the same state, whatever the returned results, give the same
      outcome. */
  lemma LayerResultIgnored(e: Engines, flows: Flows, m1: Machine, m2: Machine, h: HandOff)
    requires RtAlias.Run(e, m1, h).Returned? && RtAlias.Run(e, m2, h).Returned?
    requires RtAlias.Run(e, m1, h).machine == RtAlias.Run(e, m2, h).machine
    ensures Run(e, flows, m1, h) == Run(e, flows, m2, h)
  {
  }
}
