/** Storage, ownership and states of HPy handles, and the rules for declaring them. */
module HandleModel {
  import opened Wrappers

  datatype Error = ModelError | InvalidStorage | InvalidTransition

  datatype Result<+T> = Ok(value: T) | Err(error: Error)

  datatype StorageKind = Local | Field | Global | ContextConstant

  datatype Ownership = Owned | BorrowedArgument | Immortal

  datatype HandleState = Live | Moved | Closed

  datatype Transfer = Move | Duplicate

  datatype ExitKind = NormalExit | ReturnExit | BreakExit | ContinueExit | GotoExit | ExceptionExit

  datatype HandleStorage = HandleStorage(kind: StorageKind, cTypeCname: string, longLived: bool, directlyUsable: bool,
                                         loadReturnsOwnedLocal: bool, requiresOwnerObject: bool,
                                         requiresModuleRegistration: bool)

  datatype HandleValue = HandleValue(storage: HandleStorage, ownership: Ownership, state: HandleState)

  datatype CleanupPlan = CleanupPlan(exitKind: ExitKind, closeNames: seq<string>)

  function StorageContract(kind: StorageKind): HandleStorage {
    match kind
    case Local => HandleStorage(Local, "HPy", false, true, false, false, false)
    case Field => HandleStorage(Field, "HPyField", true, false, true, true, false)
    case Global => HandleStorage(Global, "HPyGlobal", true, false, true, false, true)
    case ContextConstant => HandleStorage(ContextConstant, "HPy", false, true, false, false, false)
  }

  /** The kinds of storage that handles are put away in beyond a call, to be loaded again. */
  predicate KeepsHandles(kind: StorageKind) {
    kind == Field || kind == Global
  }

  /** Only what keeps handles can be loaded from; it outlives the call, has a C type of its
      own, and cannot be used as a handle itself. */
  lemma StorageByKind(kind: StorageKind)
    ensures var contract := StorageContract(kind);
      && contract.kind == kind
      && (contract.loadReturnsOwnedLocal <==> KeepsHandles(kind))
      && (contract.longLived <==> KeepsHandles(kind))
      && (contract.cTypeCname != "HPy" <==> KeepsHandles(kind))
      && (contract.directlyUsable <==> !KeepsHandles(kind))
  {
    assert |"HPyField"| != |"HPy"| && |"HPyGlobal"| != |"HPy"|;
  }

  function ValidateStorageDeclaration(kind: StorageKind, cTypeCname: string, isFunctionLocal: bool, isLongLived: bool)
    : Result<HandleStorage>
  {
    var contract := StorageContract(kind);
    if cTypeCname != contract.cTypeCname then Err(InvalidStorage)
    else if isFunctionLocal && (kind == Field || kind == Global) then Err(InvalidStorage)
    else if isLongLived && cTypeCname == "HPy" then Err(InvalidStorage)
    else if isLongLived != contract.longLived then Err(InvalidStorage)
    else Ok(contract)
  }

  /** The C type asked for, or else (also for an empty name) that of the contract. */
  function TypeOr(cTypeCname: Option<string>, contract: HandleStorage): string {
    if cTypeCname.Some? && cTypeCname.value != "" then cTypeCname.value else contract.cTypeCname
  }

  /** What a new value is, if it may be declared at all. */
  function NewValue(kind: StorageKind, ownership: Ownership, cTypeCname: Option<string>): Result<HandleValue> {
    var contract := StorageContract(kind);
    var valid := ValidateStorageDeclaration(kind, TypeOr(cTypeCname, contract), true, false);
    if valid.Err? then Err(valid.error)
    else if kind == Local && ownership == Immortal then Err(InvalidStorage)
    else if kind == ContextConstant && ownership != Immortal then Err(InvalidStorage)
    else Ok(HandleValue(contract, ownership, Live))
  }

  /** Values are plain handles of one call: either local ones that are owned or borrowed,
      or immortal context constants. */
  predicate ValueAllowed(v: HandleValue) {
    || (v.storage == StorageContract(Local) && v.ownership != Immortal)
    || (v.storage == StorageContract(ContextConstant) && v.ownership == Immortal)
  }

  /** A value can be declared exactly if it is of these kinds and has the C type `HPy`, so
      in particular never with a long-lived storage. */
  lemma DeclarableValues(kind: StorageKind, ownership: Ownership, cTypeCname: Option<string>)
    ensures NewValue(kind, ownership, cTypeCname).Ok? <==>
      && ValueAllowed(HandleValue(StorageContract(kind), ownership, Live))
      && (cTypeCname.Some? ==> cTypeCname.value in {"", "HPy"})
    ensures NewValue(kind, ownership, cTypeCname).Ok? ==>
      !StorageContract(kind).longLived && ValueAllowed(NewValue(kind, ownership, cTypeCname).value)
  {
    assert "HPyField" != "HPy" && "HPyGlobal" != "HPy" by {
      assert |"HPyField"| != |"HPy"| && |"HPyGlobal"| != |"HPy"|;
    }
  }

  // -------------------------------------------------------------------- operations

  datatype Operation =
    | DuplicateHandle | CloseHandle | Call | CallMethod
    | SequenceBuilderNew | SequenceBuilderSet | SequenceBuilderBuild | SequenceBuilderCancel
    | SequenceFromArray | SequencePack | DictNew | DictSetItem | DictSetItemString | DictCopy
    | ToPython | FromPython | ErrorSetObject | ErrorSetNone | ErrorFormat | ExceptionMatches
    | NameLookup | GlobalLoad | GlobalStore | FieldLoad | FieldStore
    | ImportModule | ModuleSetAttr | ModuleSetAttrString

  /** The operations whose result is an owned local handle. */
  predicate ReturnsOwned(op: Operation) {
    || op.DuplicateHandle? || op.Call? || op.CallMethod? || op.SequenceBuilderBuild? || op.SequenceFromArray?
    || op.SequencePack? || op.DictNew? || op.DictCopy? || op.ToPython? || op.NameLookup? || op.GlobalLoad?
    || op.FieldLoad? || op.ImportModule?
  }
}
