/** The manager's public vocabulary shared by several components. */
module Domain {
  import opened Results

  datatype ResourceKind = ManagerResource | DeviceResource | ConfigurationResource | OperationResource
    | DiagnosticResource

  datatype Resource = Resource(kind: ResourceKind, id: string)

  datatype OperationState = Queued | Running | Waiting | Cancelling | Succeeded | Rejected | Failed | RolledBack
    | Cancelled

  datatype OperationKind = Identify | Probe | Validate | Apply | Rollback | Adopt | Lifecycle

  datatype Operation = Operation(id: string, kind: OperationKind, state: OperationState, resource: Resource,
                                 startedAt: int,
                                 updatedAt: int, reasonCode: string, reason: string, validation: Option<string>,
                                 configurationRevision: nat)

  const NO_RESOURCE := Resource(ManagerResource, "")
}
