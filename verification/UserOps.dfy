/** User operations as the bundle proposer sees them, together with what the second
    simulation said about them (user_operation/mod.rs, entity.rs, bundle_proposer.rs). */
module UserOps {
  import opened Primitives
  import opened Storage

  datatype EntityKind = Account | Paymaster | Aggregator | Factory
  datatype Entity = Entity(kind: EntityKind, address: Address)
  datatype EntityInfo = EntityInfo(entity: Entity, isStaked: bool)
  datatype EntityInfos = EntityInfos(
    factory: Option<EntityInfo>, sender: EntityInfo, paymaster: Option<EntityInfo>, aggregator: Option<EntityInfo>)

  datatype UpdateKind = UnstakedInvalidation | StakedInvalidation | PaymasterOpsSeenDecrement
  datatype EntityUpdate = EntityUpdate(entity: Entity, kind: UpdateKind, value: Option<nat>)

  /** The gas figures do not depend on the size of the bundle: the shared part is
      charged once per bundle. `daGas` is the part of the pre-verification gas that pays
      for data availability inside the gas limit. */
  datatype Op = Op(
    hash: Hash, sender: Address, paymaster: Option<Address>, factory: Option<Address>, aggregator: Option<Address>,
    computationGas: nat, daGas: nat, sponsoredDaGas: nat, calldataFloorGas: nat,
    encodedSize: nat, hasAuthorization: bool, maxGasCost: nat,
    infos: EntityInfos, storage: ExpectedStorage, accessed: set<Address>)

  /** The group an operation is bundled in; the zero address stands for "not aggregated". */
  function KeyOf(op: Op): Address {
    if op.aggregator.Some? then op.aggregator.value else ZERO
  }

  /** The four ways an entity selects the operations it is responsible for. */
  predicate Selects(entity: Entity, op: Op) {
    match entity.kind
    case Paymaster => op.paymaster == Some(entity.address)
    case Factory => op.factory == Some(entity.address)
    case Account => op.sender == entity.address
    case Aggregator => op.aggregator == Some(entity.address)
  }

  /** The operations an entity is responsible for, in order, and the others. */
  function Selected(ops: seq<Op>, entity: Entity): (r: seq<Op>) {
    if ops == [] then []
    else (if Selects(entity, ops[0]) then [ops[0]] else []) + Selected(ops[1..], entity)
  }

  function Unselected(ops: seq<Op>, entity: Entity): (r: seq<Op>) {
    if ops == [] then []
    else (if Selects(entity, ops[0]) then [] else [ops[0]]) + Unselected(ops[1..], entity)
  }
}
