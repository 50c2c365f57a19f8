/** The classification gate and the control flow of one provider call. */
module ModelProvider {
  import opened Wrappers
  import opened Entities

  /** The gate never trusts a label alone: every weak or contradictory decision becomes uncertain. */
  function GateDecision(raw: Classification): Classification {
    if raw.scope.Supported? && raw.confidence >= 0.70 && raw.documentType != "unknown" then raw
    else if raw.scope.Unrelated? && raw.confidence >= 0.85 then raw
    else raw.(scope := Uncertain)
  }

  // What a model graph may do; the models themselves are not part of this model.
  datatype GraphEvent<+T> = Returned(value: T) | Throttled | CancelSignalled | Broke

  // How a provider call leaves `extract_document`.
  datatype Outcome =
    | Extraction(classification: Classification)
    | ScopeBlocked(decision: Classification)
    | RateLimited
    | ProviderCancelled
    | ProviderFailed

  function GraphOutcome(event: GraphEvent<()>, classification: Classification): Outcome {
    match event
    case Returned(_) => Extraction(classification)
    case Throttled => RateLimited
    case CancelSignalled => ProviderCancelled
    case Broke => ProviderFailed
  }

  /** The classifier's word passes the gate: supported, typed, and at least 0.70 confident. */
  predicate Passes(raw: Classification) {
    raw.scope == Supported && raw.confidence >= 0.70 && raw.documentType != "unknown"
  }

  /** The extraction graph runs: for an override, or behind a classification that passes. */
  predicate GraphReached(override: Option<Classification>, classifier: GraphEvent<Classification>) {
    override.Some? || (classifier.Returned? && Passes(classifier.value))
  }

  /**
   Each outcome exactly, in terms of what the two graphs do. The classifier is consulted without an override only; a
   word that does not pass blocks the call, for good only when it is at least 0.85 confident irrelevance; an override
   is handed through unchanged.
   */
  function ExtractDocument(
    override: Option<Classification>, classifier: GraphEvent<Classification>, graph: GraphEvent<()>): (outcome: Outcome)
    ensures outcome.Extraction? <==> GraphReached(override, classifier) && graph.Returned?
    ensures outcome.Extraction? ==> outcome.classification == if override.Some? then override.value else classifier.value
    ensures outcome.ScopeBlocked? <==> override.None? && classifier.Returned? && !Passes(classifier.value)
    ensures outcome.ScopeBlocked? ==>
              var confident := classifier.value.scope == Unrelated && classifier.value.confidence >= 0.85;
              outcome.decision == classifier.value.(scope := if confident then Unrelated else Uncertain)
    ensures outcome.RateLimited? <==>
              (override.None? && classifier.Throttled?) || (GraphReached(override, classifier) && graph.Throttled?)
    ensures outcome.ProviderCancelled? <==>
              || (override.None? && classifier.CancelSignalled?)
              || (GraphReached(override, classifier) && graph.CancelSignalled?)
    ensures outcome.ProviderFailed? <==>
              (override.None? && classifier.Broke?) || (GraphReached(override, classifier) && graph.Broke?)
  {
    match override
    case Some(classification) => GraphOutcome(graph, classification)
    case None =>
      match classifier
      case Throttled => RateLimited
      case CancelSignalled => ProviderCancelled
      case Broke => ProviderFailed
      case Returned(raw) =>
        var decision := GateDecision(raw);
        if decision.scope != Supported then ScopeBlocked(decision) else GraphOutcome(graph, decision)
  }
}
