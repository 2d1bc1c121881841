/** The trusted definition of a workflow's steps, shared by cancellation and the execution gate. */
module Contracts {
  import opened Common

  /** The closed registry of principals; `OtherIdentity` holds a text outside it. */
  datatype ExecutionIdentity =
    | Human | Operator | Provisioner | Destructive | VM | Reconciler | Transfer | Restore
    | Recovery | TestOperator | TestDestructive | Host | OtherIdentity(text: string)
  {
    predicate Known() { !OtherIdentity? }

    function Text(): string {
      match this
      case Human => "human" case Operator => "operator" case Provisioner => "provisioner"
      case Destructive => "destructive" case VM => "vm" case Reconciler => "reconciler" case Transfer => "transfer"
      case Restore => "restore" case Recovery => "recovery" case TestOperator => "test-operator"
      case TestDestructive => "test-destructive" case Host => "host" case OtherIdentity(text) => text
    }
  }

  datatype Trigger = StepStart | MutationObserved | StepComplete

  /** What a plan step must copy from its contract. */
  datatype StepShape = StepShape(
    executor: string, identity: ExecutionIdentity, command: string, idempotent: bool, retry: string, cancelSafe: bool,
    timeoutSeconds: int, success: string, failure: string)

  datatype ExposureRequirement = ExposureRequirement(
    delta: string, profile: string, internetWide: bool, simulation: string)

  datatype StepContract = StepContract(
    id: string, shape: StepShape, mutation: bool, minimumApproval: nat, targetKinds: seq<string>,
    requiredPermissions: seq<string>, requiresStepUp: bool, requiresRecovery: bool,
    exposure: Option<ExposureRequirement>)

  /** `trigger` is None where the source holds a value outside its closed set. */
  datatype ExecutionContract = ExecutionContract(
    workflowID: string, rollbackBoundary: string, pointOfNoReturn: string, trigger: Option<Trigger>,
    steps: seq<StepContract>, digest: string)

  /** No registered name contains the separator, and no two are the same. */
  lemma KnownTexts(a: ExecutionIdentity, b: ExecutionIdentity)
    requires a.Known() && b.Known()
    ensures forall i :: 0 <= i < |a.Text()| ==> a.Text()[i] != '\0'
    ensures a.Text() == b.Text() ==> a == b
  {
    TextCodes(a);
    TextCodes(b);
  }

  /** Length and a letter or two tell the registered names apart. */
  lemma TextCodes(a: ExecutionIdentity)
    requires a.Known()
    ensures var t := a.Text();
            && |t| >= 2
            && (a.Human? <==> |t| == 5) && (a.VM? <==> |t| == 2) && (a.Host? <==> |t| == 4)
            && (a.Provisioner? <==> |t| == 11 && t[0] == 'p') && (a.Destructive? <==> |t| == 11 && t[0] == 'd')
            && (a.Reconciler? <==> |t| == 10) && (a.Restore? <==> |t| == 7)
            && (a.Operator? <==> |t| == 8 && t[0] == 'o') && (a.Transfer? <==> |t| == 8 && t[0] == 't')
            && (a.Recovery? <==> |t| == 8 && t[0] == 'r')
            && (a.TestOperator? <==> |t| == 13) && (a.TestDestructive? <==> |t| == 16)
    ensures forall i :: 0 <= i < |a.Text()| ==> a.Text()[i] != '\0'
  {
  }
}
