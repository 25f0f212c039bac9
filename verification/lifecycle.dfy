/**
 * Properties that relate several operations: what a status update leaves
 * alone, repeating an update, and what the listing shows after a create, a
 * seed or a form submission.
 */
module Lifecycle {
  import opened Wrappers
  import opened Model
  import opened Actions
  import opened Queries
  import FormBridge

  /**
   * A successful status update rewrites the target's status and nothing
   * else: no other row, no other field, no id.
   */
  lemma UpdateChangesOnlyStatus(ctx: Context, opId: OpId, status: Status,
                                findFault: Option<StoreFailure>, updateFault: Option<StoreFailure>, store: Store)
    requires UpdateStatus(ctx, opId, status, findFault, updateFault, store).result.Success?
    ensures var after := UpdateStatus(ctx, opId, status, findFault, updateFault, store).store;
      && after.nextId == store.nextId
      && after.records.Keys == store.records.Keys
      && (forall k :: k in store.records && k != opId ==> after.records[k] == store.records[k])
      && after.records[opId].status == status
      && after.records[opId].(status := store.records[opId].status) == store.records[opId]
  {
  }

  /** Repeating a successful status update succeeds again and changes nothing more. */
  lemma UpdateStatusIdempotent(ctx: Context, opId: OpId, status: Status, store: Store)
    requires UpdateStatus(ctx, opId, status, None, None, store).result.Success?
    ensures var once := UpdateStatus(ctx, opId, status, None, None, store);
            var twice := UpdateStatus(ctx, opId, status, None, None, once.store);
            && twice.result == once.result
            && twice.store == once.store
  {
  }

  /** The creator of an operation may then update its status. */
  lemma CreatorMayUpdate(caller: Caller, input: CreateInput, now: nat, store: Store, status: Status)
    requires Valid(store)
    ensures var created := Create(Some(caller), input, now, None, store);
            && created.result.Success?
            && UpdateStatus(Some(caller), created.result.value.id, status, None, None, created.store).result.Success?
  {
  }

  /**
   * A caller who is neither the owner nor an administrator cannot update an
   * operation someone else created: Forbidden, and it stays "En attente".
   */
  lemma OthersForbidden(owner: Caller, other: Caller, input: CreateInput, now: nat, store: Store,
                        status: Status, updateFault: Option<StoreFailure>)
    requires Valid(store)
    requires other.id != owner.id && !other.isAdmin
    ensures var created := Create(Some(owner), input, now, None, store);
            var attempt := UpdateStatus(Some(other), created.result.value.id, status, None, updateFault, created.store);
            && attempt.result == Failure(Forbidden)
            && attempt.store == created.store
            && attempt.store.records[created.result.value.id].status == EnAttente
  {
  }

  /** The rows a caller owns after a create: the ones before, plus the new one. */
  lemma CreateAddsOwnedRecord(caller: Caller, input: CreateInput, now: nat, store: Store)
    requires Valid(store)
    ensures var created := Create(Some(caller), input, now, None, store);
            var op := created.result.value;
            && op !in OwnedRecords(store, caller.id)
            && OwnedRecords(created.store, caller.id) == OwnedRecords(store, caller.id) + {op}
  {
  }

  /**
   * After a create, the creator's listing holds the new row once more than
   * before, and every other row as often as before.
   */
  lemma CreateThenList(caller: Caller, input: CreateInput, now: nat, store: Store)
    requires Valid(store)
    ensures var created := Create(Some(caller), input, now, None, store);
            var before := List(Some(caller), None, store).result.value;
            var after := List(Some(caller), None, created.store).result.value;
            && multiset(after) == multiset(before) + multiset{created.result.value}
            && |after| == |before| + 1
  {
    CreateAddsOwnedRecord(caller, input, now, store);
  }

  /** Other users' listings do not change when a caller creates an operation. */
  lemma CreateInvisibleToOthers(caller: Caller, other: Caller, input: CreateInput, now: nat, store: Store)
    requires Valid(store)
    requires other.id != caller.id
    ensures var created := Create(Some(caller), input, now, None, store);
            multiset(List(Some(other), None, created.store).result.value)
            == multiset(List(Some(other), None, store).result.value)
  {
  }

  /** A caller who owns nothing gets an empty listing. */
  lemma NewUserListsNothing(caller: Caller, store: Store)
    requires Valid(store)
    requires !OwnsAny(store, caller.id)
    ensures List(Some(caller), None, store).result == Success([])
  {
  }

  /** After a seed record is created, it is the only row its owner lists. */
  lemma SeedThenList(caller: Caller, now: nat, store: Store)
    requires Valid(store)
    ensures var seeded := CreateSeed(Some(caller), now, None, None, store);
            seeded.result.value.Some? ==>
              List(Some(caller), None, seeded.store).result == Success([seeded.result.value.value])
  {
    var seeded := CreateSeed(Some(caller), now, None, None, store);
    if seeded.result.value.Some? {
      var op := seeded.result.value.value;
      assert !OwnsAny(store, caller.id);
      assert OwnedRecords(store, caller.id) == {};
      CreateAddsOwnedRecord(caller, SeedInput, now, store);
      assert seeded.store == Create(Some(caller), SeedInput, now, None, store).store;
      assert OwnedRecords(seeded.store, caller.id) == {op};
      assert multiset({op}) == multiset{op};
      var rows := List(Some(caller), None, seeded.store).result.value;
      assert multiset(rows) == multiset{op};
      assert |rows| == 1;
      assert rows[0] in multiset(rows);
      assert rows == [op];
    }
  }

  /** Two seed calls in sequence create at most one record: the second call finds the first. */
  lemma SeedOnce(caller: Caller, now: nat, later: nat, store: Store)
    requires Valid(store)
    ensures var first := CreateSeed(Some(caller), now, None, None, store);
            var second := CreateSeed(Some(caller), later, None, None, first.store);
            first.result.value.Some? ==> second.result == Success(None) && second.store == first.store
  {
  }

  /**
   * A form submission accepted by the page persists the form's own type,
   * the extracted client name and notes, and the whole payload as formData.
   */
  lemma SubmissionPersistsExtractedFields(caller: Caller, path: string, msg: FormBridge.Message,
                                          now: nat, store: Store)
    requires Valid(store)
    requires FormBridge.HandleMessage(msg, FormBridge.ConfigFor(path)).Some?
    ensures var req := FormBridge.HandleMessage(msg, FormBridge.ConfigFor(path)).value;
            var payload := msg.parsed.value.payload.value;
            var op := Create(Some(caller), req, now, None, store).result.value;
            && op.kind == FormBridge.FormConfigs[path].kind
            && op.operationType == FormBridge.FormConfigs[path].operationType
            && op.clientName == FormBridge.Extract(payload.fields, FormBridge.ClientNameRole)
            && op.notes == Some(FormBridge.Extract(payload.fields, FormBridge.NotesRole))
            && op.formData == payload.raw
            && op.status == EnAttente
            && op.userId == caller.id
  {
  }

  /** Creating a Souscription with no formData yields a pending Souscription with empty formData. */
  lemma CreateExample(caller: Caller, now: nat, store: Store)
    requires Valid(store)
    ensures var input := CreateInput("X", "C1", Souscription, "PER", None, None);
            var op := Create(Some(caller), input, now, None, store).result.value;
            && op.status == EnAttente
            && op.kind == Souscription
            && op.formData == map[]
  {
  }
}
