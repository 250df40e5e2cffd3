/** Reconcile errors and how wrapping affects their class (pkg/controller/common/errors.go). */
module ReconcileErrors {
  import opened Outcomes

  datatype Reason = Irrecoverable | RetryRequired | MultipleInstance

  datatype ApiStatus = Unauthorized | Forbidden | Invalid | BadRequest | ServiceUnavailable | NotFound | Conflict | OtherStatus

  /** `Aggregate` is the Kubernetes error aggregate, which `errors.As` does not look into. */
  datatype Error =
    | Plain(text: string)
    | Api(status: ApiStatus)
    | Wrapped(inner: Error)
    | Reconcile(reason: Reason, inner: Error)
    | Aggregate(errors: seq<Error>)

  /** `errors.As` for a ReconcileError: the outermost one of the chain. */
  function Class(e: Error): Option<Reason> {
    match e
    case Reconcile(reason, _) => Some(reason)
    case Wrapped(inner) => Class(inner)
    case Plain(_) | Api(_) | Aggregate(_) => None
  }

  /** `errors.As` for an API status. */
  function StatusOf(e: Error): Option<ApiStatus> {
    match e
    case Api(status) => Some(status)
    case Wrapped(inner) => StatusOf(inner)
    case Reconcile(_, inner) => StatusOf(inner)
    case Plain(_) | Aggregate(_) => None
  }

  predicate IsIrrecoverable(e: Error) {
    Class(e) == Some(Irrecoverable)
  }

  predicate IsMultipleInstance(e: Error) {
    Class(e) == Some(MultipleInstance)
  }

  predicate Permanent(status: Option<ApiStatus>) {
    status.Some? && status.value in {Unauthorized, Forbidden, Invalid, BadRequest, ServiceUnavailable}
  }

  function FromClientError(e: Error): Error {
    Reconcile(if Permanent(StatusOf(e)) then Irrecoverable else RetryRequired, e)
  }

  function FromError(e: Error): Error {
    Reconcile(if IsIrrecoverable(e) then Irrecoverable else RetryRequired, e)
  }

  // ----- Chains of layers -----

  datatype Layer = Wrap | ByError | ByClientError | Mark(reason: Reason)

  function AddLayer(layer: Layer, e: Error): Error {
    match layer
    case Wrap => Wrapped(e)
    case ByError => FromError(e)
    case ByClientError => FromClientError(e)
    case Mark(reason) => Reconcile(reason, e)
  }

  /** The layers are applied from the first to the last; the last one ends up outermost. */
  function Layered(e: Error, layers: seq<Layer>): Error {
    if layers == [] then e else AddLayer(layers[|layers| - 1], Layered(e, layers[..|layers| - 1]))
  }

  /** No layer hides or invents an API status. */
  lemma {:induction false} LayersKeepStatus(e: Error, layers: seq<Layer>)
    ensures StatusOf(Layered(e, layers)) == StatusOf(e)
  {
    if layers != [] {
      LayersKeepStatus(e, layers[..|layers| - 1]);
    }
  }

  /** Where the class of a chain comes from: the last layer that is not a plain wrap. */
  ghost predicate OutermostMark(layers: seq<Layer>, i: nat) {
    i < |layers| && !layers[i].Wrap? && forall j :: i < j < |layers| ==> layers[j].Wrap?
  }

  lemma {:induction false} ClassIsOutermost(e: Error, layers: seq<Layer>, i: nat)
    requires OutermostMark(layers, i)
    ensures Class(Layered(e, layers)) == Some(
                                           if layers[i].Mark? then layers[i].reason
                                           else if (if layers[i].ByClientError? then Permanent(StatusOf(e)) else IsIrrecoverable(Layered(e, layers[..i])))
                                           then Irrecoverable
                                           else RetryRequired)
    ensures forall k :: i < k <= |layers| ==> Class(Layered(e, layers[..k])) == Class(Layered(e, layers))
  {
    var init := layers[..|layers| - 1];
    assert layers[..|layers|] == layers;
    if i == |layers| - 1 {
      LayersKeepStatus(e, init);
    } else {
      ClassIsOutermost(e, init, i);
      assert init[..i] == layers[..i];
      forall k | i < k < |layers|
        ensures Class(Layered(e, layers[..k])) == Class(Layered(e, layers))
      {
        assert init[..k] == layers[..k];
      }
    }
  }

  /** Plain wraps and FromError never lose irrecoverability, and plain wraps and FromError never invent it. */
  lemma {:induction false} IrrecoverabilityKept(e: Error, layers: seq<Layer>)
    requires forall i :: 0 <= i < |layers| ==> layers[i].Wrap? || layers[i].ByError?
    ensures IsIrrecoverable(Layered(e, layers)) <==> IsIrrecoverable(e)
  {
    if layers != [] {
      IrrecoverabilityKept(e, layers[..|layers| - 1]);
    }
  }

  /** A client-error layer decides afresh: it loses irrecoverability exactly when the API status is not permanent. */
  lemma {:induction false} ClientErrorDecidesAfresh(e: Error, layers: seq<Layer>)
    ensures IsIrrecoverable(FromClientError(Layered(e, layers))) <==>
            && StatusOf(e).Some?
            && (StatusOf(e).value.Unauthorized? || StatusOf(e).value.Forbidden? || StatusOf(e).value.Invalid?
                || StatusOf(e).value.BadRequest? || StatusOf(e).value.ServiceUnavailable?)
  {
    LayersKeepStatus(e, layers);
  }

  /** An API error of the client is irrecoverable for these five statuses, whatever layers came in between, and retryable otherwise. */
  lemma ApiErrorsByStatus(status: ApiStatus, layers: seq<Layer>)
    ensures Class(FromClientError(Layered(Api(status), layers))) ==
            match status
            case Unauthorized | Forbidden | Invalid | BadRequest | ServiceUnavailable => Some(Irrecoverable)
            case NotFound | Conflict | OtherStatus => Some(RetryRequired)
  {
    LayersKeepStatus(Api(status), layers);
  }

  lemma ClientErrorCanLoseIrrecoverability()
    ensures IsIrrecoverable(Reconcile(Irrecoverable, Plain("invalid configuration")))
    ensures !IsIrrecoverable(FromClientError(Reconcile(Irrecoverable, Plain("invalid configuration"))))
  {
  }

  // ----- The user-provided CA certificate -----

  /** What `handleUserProvidedCA` meets; the errors are those of the client calls. */
  datatype CaOutcome =
    | SourceUnavailable(error: Error)
    | WatchLabelFailed(error: Error)
    | KeyMissing
    | PemInvalid(error: Error)
    | CopyFailed(error: Error)
    | CaMounted

  /** The source ConfigMap is missing, lacks the key, or holds no usable CA certificate. */
  predicate CaInvalid(outcome: CaOutcome) {
    outcome.SourceUnavailable? || outcome.KeyMissing? || outcome.PemInvalid?
  }

  function HandleUserProvidedCa(outcome: CaOutcome): Option<Error> {
    match outcome
    case SourceUnavailable(error) => Some(Reconcile(Irrecoverable, error))
    case WatchLabelFailed(error) => Some(FromClientError(Wrapped(error)))
    case KeyMissing => Some(Reconcile(Irrecoverable, Plain("key not found in ConfigMap")))
    case PemInvalid(error) => Some(Reconcile(Irrecoverable, error))
    case CopyFailed(error) => Some(FromClientError(error))
    case CaMounted => None
  }

  /** The error on its way up: updateVolumes, getDeploymentObject, createOrApplyDeployments. */
  function CaReconcileError(outcome: CaOutcome): Option<Error> {
    match HandleUserProvidedCa(outcome)
    case None => None
    case Some(error) => Some(Layered(error, [ByError, Wrap, Wrap]))
  }

  lemma InvalidCaIsIrrecoverable(outcome: CaOutcome)
    requires CaInvalid(outcome)
    ensures CaReconcileError(outcome).Some? && IsIrrecoverable(CaReconcileError(outcome).value)
  {
    IrrecoverabilityKept(HandleUserProvidedCa(outcome).value, [ByError, Wrap, Wrap]);
  }
}
