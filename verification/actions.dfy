/**
 * The three server actions: create an operation, update its status, and
 * create a seed operation for a user who has none.
 */
module Actions {
  import opened Wrappers
  import opened Model

  /**
   * The `type` persisted for a requested `type`: kept when it is one of the
   * two allowed values, replaced by "Actes de Gestion" otherwise.
   */
  function CoerceKind(kind: string): (k: string)
    ensures IsAllowedKind(k)
    ensures k == kind <==> IsAllowedKind(kind)
    ensures k != kind ==> k == ActesDeGestion
  {
    if kind == Souscription || kind == ActesDeGestion then kind else ActesDeGestion
  }

  /** The row a successful create persists for `caller`, under id `id`. */
  function NewRecord(caller: Caller, input: CreateInput, id: OpId, now: nat): Operation {
    Operation(
      id := id,
      userId := caller.id,
      name := input.name,
      clientName := input.clientName,
      kind := CoerceKind(input.kind),
      operationType := input.operationType,
      status := EnAttente,
      formData := input.formData.GetOr(map[]),
      notes := input.notes,
      createdAt := now)
  }

  /**
   * Files `op` under a fresh id; it is the store's single insert. The store
   * keeps its invariant, holds exactly one more row, and every row already
   * there is unchanged.
   */
  function Insert(store: Store, op: Operation): (s: Store)
    requires Valid(store) && op.id == store.nextId
    ensures Valid(s)
    ensures op.id !in store.records
    ensures s.records.Keys == store.records.Keys + {op.id}
    ensures s.records[op.id] == op
    ensures forall k :: k in store.records ==> s.records[k] == store.records[k]
  {
    Store(store.records[op.id := op], store.nextId + 1)
  }

  /**
   * `createDelegationOperation`: `now` is the store's clock and `fault` the
   * failure its insert raises, if any.
   */
  function Create(ctx: Context, input: CreateInput, now: nat, fault: Option<StoreFailure>, store: Store): (o: Outcome<Operation>)
    requires Valid(store)
    ensures Valid(o.store)
    ensures ctx.None? ==> o.result == Failure(Unauthorized) && o.store == store
    ensures ctx.Some? && fault.Some? ==> o.result == Failure(StoreError(fault.value)) && o.store == store
    ensures o.result.Success? <==> ctx.Some? && fault.None?
    ensures o.result.Success? ==>
      var op := o.result.value;
      && op.id !in store.records
      && o.store.records.Keys == store.records.Keys + {op.id}
      && o.store.records[op.id] == op
      && (forall k :: k in store.records ==> o.store.records[k] == store.records[k])
      && op.userId == ctx.value.id
      && op.status == EnAttente
      && IsAllowedKind(op.kind)
      && (op.kind == input.kind <==> IsAllowedKind(input.kind))
      && (!IsAllowedKind(input.kind) ==> op.kind == ActesDeGestion)
      && op.name == input.name
      && op.clientName == input.clientName
      && op.operationType == input.operationType
      && op.notes == input.notes
      && (input.formData.Some? ==> op.formData == input.formData.value)
      && (input.formData.None? ==> op.formData == map[])
      && op.createdAt == now
  {
    match ctx
    case None => Outcome(Failure(Unauthorized), store)
    case Some(caller) =>
      match fault
      case Some(f) => Outcome(Failure(StoreError(f)), store)
      case None =>
        var op := NewRecord(caller, input, store.nextId, now);
        Outcome(Success(op), Insert(store, op))
  }

  /** The authorisation rule of a status update: the owner, or an administrator. */
  predicate MayUpdate(caller: Caller, op: Operation) {
    op.userId == caller.id || caller.isAdmin
  }

  /**
   * `updateDelegationOperationStatus`: `findFault` is the failure of the
   * lookup and `updateFault` the failure of the write, if any. Checks run in
   * order: authentication, lookup, existence, permission, write.
   */
  function UpdateStatus(ctx: Context, opId: OpId, status: Status,
                        findFault: Option<StoreFailure>, updateFault: Option<StoreFailure>,
                        store: Store): (o: Outcome<Operation>)
    ensures Valid(store) ==> Valid(o.store)
    ensures o.result.Failure? ==> o.store == store
    ensures ctx.None? ==> o.result == Failure(Unauthorized)
    ensures ctx.Some? && findFault.Some? ==> o.result == Failure(StoreError(findFault.value))
    ensures ctx.Some? && findFault.None? && opId !in store.records ==> o.result == Failure(NotFound)
    ensures (ctx.Some? && findFault.None? && opId in store.records
             && !MayUpdate(ctx.value, store.records[opId]))
            ==> o.result == Failure(Forbidden)
    ensures (ctx.Some? && findFault.None? && opId in store.records
             && MayUpdate(ctx.value, store.records[opId]) && updateFault.Some?)
            ==> o.result == Failure(StoreError(updateFault.value))
    ensures o.result.Success? <==>
            (ctx.Some? && findFault.None? && updateFault.None? && opId in store.records
             && MayUpdate(ctx.value, store.records[opId]))
    ensures o.result.Success? ==>
      && opId in store.records
      && o.result.value == store.records[opId].(status := status)
      && o.store == store.(records := store.records[opId := o.result.value])
  {
    match ctx
    case None => Outcome(Failure(Unauthorized), store)
    case Some(caller) =>
      if findFault.Some? then Outcome(Failure(StoreError(findFault.value)), store)
      else if opId !in store.records then Outcome(Failure(NotFound), store)
      else if !MayUpdate(caller, store.records[opId]) then Outcome(Failure(Forbidden), store)
      else if updateFault.Some? then Outcome(Failure(StoreError(updateFault.value)), store)
      else
        var updated := store.records[opId].(status := status);
        Outcome(Success(updated), store.(records := store.records[opId := updated]))
  }

  /** The fixed request the seed action persists. */
  const SeedInput: CreateInput := CreateInput(
    name := "Souscription Assurance Vie - Client Seed",
    clientName := "Client Seed",
    kind := Souscription,
    operationType := "Assurance Vie",
    formData := Some(map["seed" := Bool(true)]),
    notes := Some("Opération de test créée automatiquement"))

  /**
   * `createSeedOperation`: `findFault` is the failure of the ownership probe
   * and `createFault` the failure of the insert. Only the missing caller is
   * an error; a store failure yields no record (`null`).
   */
  function CreateSeed(ctx: Context, now: nat, findFault: Option<StoreFailure>,
                      createFault: Option<StoreFailure>, store: Store): (o: Outcome<Option<Operation>>)
    requires Valid(store)
    ensures Valid(o.store)
    ensures o.result.Failure? <==> ctx.None?
    ensures ctx.None? ==> o.result == Failure(Unauthorized) && o.store == store
    ensures ctx.Some? && (findFault.Some? || OwnsAny(store, ctx.value.id) || createFault.Some?)
            ==> o.result == Success(None) && o.store == store
    ensures (o.result.Success? && o.result.value.Some?) <==>
            (ctx.Some? && findFault.None? && createFault.None? && !OwnsAny(store, ctx.value.id))
    ensures o.result.Success? && o.result.value.Some? ==>
      var op := o.result.value.value;
      && op.id !in store.records
      && o.store.records.Keys == store.records.Keys + {op.id}
      && o.store.records[op.id] == op
      && (forall k :: k in store.records ==> o.store.records[k] == store.records[k])
      && op.userId == ctx.value.id
      && op.kind == Souscription
      && op.status == EnAttente
      && op.name == SeedInput.name
      && op.clientName == SeedInput.clientName
      && op.operationType == SeedInput.operationType
      && op.formData == map["seed" := Bool(true)]
      && op.notes == SeedInput.notes
      && op.createdAt == now
  {
    match ctx
    case None => Outcome(Failure(Unauthorized), store)
    case Some(caller) =>
      if findFault.Some? then Outcome(Success(None), store)
      else if OwnsAny(store, caller.id) then Outcome(Success(None), store)
      else
        var created := Create(ctx, SeedInput, now, createFault, store);
        match created.result
        case Success(op) => Outcome(Success(Some(op)), created.store)
        case Failure(_) => Outcome(Success(None), store)
  }

  /**
   * `createSeedOperation` as declared, with one parameter. The framework
   * calls an action with the client's arguments first and the request
   * context second, so that parameter receives the arguments object. Its
   * `user` member is whatever the client sent: when it is missing or falsy the
   * action throws 401; otherwise the lookup through the missing `entities`
   * member throws inside the `try` and the action returns `null`. The store
   * is never touched.
   */
  function CreateSeedAsWritten(args: FormData, store: Store): (o: Outcome<Option<Operation>>)
    ensures o.store == store
    ensures o.result == Failure(Unauthorized) <==> ("user" !in args || !JsTruthy(args["user"]))
    ensures o.result.Success? ==> o.result.value.None?
    ensures o.result.Failure? ==> o.result.error == Unauthorized
  {
    if "user" !in args || !JsTruthy(args["user"]) then Outcome(Failure(Unauthorized), store)
    else Outcome(Success(None), store)
  }

  /**
   * The page calls the seed action with no arguments. As declared, the action
   * rejects that call with 401, even for a signed-in user who owns nothing.
   * Reading the second parameter as the context, as the other actions do,
   * creates the seed row.
   */
  lemma SeedAsWrittenRejectsPageCall(caller: Caller, now: nat, store: Store)
    requires Valid(store) && !OwnsAny(store, caller.id)
    ensures CreateSeedAsWritten(map[], store).result == Failure(Unauthorized)
    ensures CreateSeed(Some(caller), now, None, None, store).result.Success?
    ensures CreateSeed(Some(caller), now, None, None, store).result.value.Some?
  {
  }
}
