/**
 * The data model of the delegation portal: the DelegationOperation record,
 * the caller context, the error tags the server operations throw, and the
 * entity store the operations read and write.
 */
module Model {
  import opened Wrappers

  /** A user identifier (the `id` of the authenticated user). */
  type UserId = string

  /** An operation identifier, assigned by the store at creation. */
  type OpId = nat

  /** The authenticated user attached to a request: `context.user`. */
  datatype Caller = Caller(id: UserId, isAdmin: bool)

  /** `context.user`, or None when the request is unauthenticated. */
  type Context = Option<Caller>

  /** The three statuses an operation can carry: "En attente", "En cours" and "Terminé". */
  datatype Status = EnAttente | EnCours | Termine

  /** The two allowed values of an operation's `type`. */
  const Souscription: string := "Souscription"
  const ActesDeGestion: string := "Actes de Gestion"

  predicate IsAllowedKind(kind: string) {
    kind == Souscription || kind == ActesDeGestion
  }

  /** A JSON value, as held in an operation's `formData`. */
  datatype Value =
    | Null
    | Bool(b: bool)
    | Num(n: int)
    | Str(s: string)
    | Array(items: seq<Value>)
    | Object(entries: map<string, Value>)

  /** JavaScript truthiness of a JSON value. */
  predicate JsTruthy(v: Value) {
    match v
    case Null => false
    case Bool(b) => b
    case Num(n) => n != 0
    case Str(t) => t != ""
    case _ => true
  }

  /** The `formData` object: `Record<string, any>`. */
  type FormData = map<string, Value>

  /**
   * One DelegationOperation row. The source's `type` field is named `kind`
   * here because `type` is a Dafny keyword.
   */
  datatype Operation = Operation(
    id: OpId,
    userId: UserId,
    name: string,
    clientName: string,
    kind: string,
    operationType: string,
    status: Status,
    formData: FormData,
    notes: Option<string>,
    createdAt: nat
  )

  /** The arguments of `createDelegationOperation`. */
  datatype CreateInput = CreateInput(
    name: string,
    clientName: string,
    kind: string,
    operationType: string,
    formData: Option<FormData>,
    notes: Option<string>
  )

  /**
   * The entity store: the rows by id, and the next id its generator hands
   * out.
   */
  datatype Store = Store(records: map<OpId, Operation>, nextId: OpId)

  /**
   * The store's invariant: each row is filed under its own id, and every id
   * in use lies below the generator's next id, so that id is fresh.
   */
  ghost predicate Valid(store: Store) {
    forall k :: k in store.records ==> k < store.nextId && store.records[k].id == k
  }

  /** What the store raises when a round trip fails (constraint, connectivity). */
  datatype StoreFailure = StoreFailure(reason: string)

  /** The errors a server operation throws. */
  datatype Error =
    | Unauthorized               // HttpError 401
    | NotFound                   // HttpError 404
    | Forbidden                  // HttpError 403
    | StoreError(failure: StoreFailure)

  /** What a server operation returns or throws, with the store after it. */
  datatype Outcome<+T> = Outcome(result: Result<T, Error>, store: Store)

  /** The caller owns at least one row of the store. */
  predicate OwnsAny(store: Store, uid: UserId) {
    exists k :: k in store.records && store.records[k].userId == uid
  }
}
