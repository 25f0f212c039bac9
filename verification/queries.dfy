/** The one query: the caller's operations, newest first. */
module Queries {
  import opened Wrappers
  import opened Model

  /** Non-increasing by `createdAt`: the order `orderBy: { createdAt: "desc" }` asks for. */
  ghost predicate NewestFirst(s: seq<Operation>) {
    forall i, j :: 0 <= i < j < |s| ==> s[i].createdAt >= s[j].createdAt
  }

  /** The rows owned by `uid`: the filter the query's `where` clause selects. */
  ghost function OwnedRecords(store: Store, uid: UserId): set<Operation> {
    set k | k in store.records && store.records[k].userId == uid :: store.records[k]
  }

  /** The rows owned by `uid` whose id lies in `[lo, hi)`. */
  ghost function OwnedBetween(records: map<OpId, Operation>, uid: UserId, lo: nat, hi: nat): set<Operation> {
    set k | k in records && lo <= k < hi && records[k].userId == uid :: records[k]
  }

  /** Inserts `x` into a newest-first sequence, before the first row not newer than it. */
  function InsertByDate(x: Operation, s: seq<Operation>): (r: seq<Operation>)
    ensures multiset(r) == multiset(s) + multiset{x}
    ensures NewestFirst(s) ==> NewestFirst(r)
  {
    if s == [] || x.createdAt >= s[0].createdAt then
      [x] + s
    else
      var t := InsertByDate(x, s[1..]);
      InsertKeepsOrder(x, s, t);
      [s[0]] + t
  }

  /** The step of `InsertByDate` that passes over `s[0]` keeps the order. */
  lemma InsertKeepsOrder(x: Operation, s: seq<Operation>, t: seq<Operation>)
    requires s != [] && x.createdAt < s[0].createdAt
    requires multiset(t) == multiset(s[1..]) + multiset{x}
    requires NewestFirst(s[1..]) ==> NewestFirst(t)
    ensures multiset([s[0]] + t) == multiset(s) + multiset{x}
    ensures NewestFirst(s) ==> NewestFirst([s[0]] + t)
  {
    assert s == [s[0]] + s[1..];
    if NewestFirst(s) {
      forall j | 0 <= j < |t|
        ensures t[j].createdAt <= s[0].createdAt
      {
        assert t[j] in multiset(t);
        if t[j] != x {
          assert t[j] in multiset(s[1..]);
          var k :| 0 <= k < |s[1..]| && s[1..][k] == t[j];
          assert s[k + 1] == t[j];
        }
      }
    }
  }

  /** Orders rows newest first; the result is a permutation of the input. */
  function SortNewestFirst(s: seq<Operation>): (r: seq<Operation>)
    ensures multiset(r) == multiset(s)
    ensures NewestFirst(r)
  {
    if s == [] then []
    else
      assert s == [s[0]] + s[1..];
      InsertByDate(s[0], SortNewestFirst(s[1..]))
  }

  /**
   * The rows of `uid` with ids in `[lo, hi)`: each of them
   * exactly once, and nothing else.
   */
  function Collect(records: map<OpId, Operation>, uid: UserId, lo: nat, hi: nat): (r: seq<Operation>)
    requires forall k :: k in records ==> records[k].id == k
    ensures forall i :: 0 <= i < |r| ==> lo <= r[i].id < hi
    ensures multiset(r) == multiset(OwnedBetween(records, uid, lo, hi))
    decreases hi - lo
  {
    if lo >= hi then
      assert OwnedBetween(records, uid, lo, hi) == {};
      []
    else
      var rest := Collect(records, uid, lo + 1, hi);
      OwnedBetweenStep(records, uid, lo, hi);
      if lo in records && records[lo].userId == uid then [records[lo]] + rest else rest
  }

  /** Peels the lowest id off `OwnedBetween`; the peeled row is not in the remainder. */
  lemma OwnedBetweenStep(records: map<OpId, Operation>, uid: UserId, lo: nat, hi: nat)
    requires forall k :: k in records ==> records[k].id == k
    requires lo < hi
    ensures lo in records && records[lo].userId == uid ==>
              records[lo] !in OwnedBetween(records, uid, lo + 1, hi)
              && multiset(OwnedBetween(records, uid, lo, hi))
                 == multiset{records[lo]} + multiset(OwnedBetween(records, uid, lo + 1, hi))
    ensures !(lo in records && records[lo].userId == uid) ==>
              OwnedBetween(records, uid, lo, hi) == OwnedBetween(records, uid, lo + 1, hi)
  {
  }

  /**
   * `getUserDelegationOperations`: `fault` is the failure of the store's
   * `findMany`, if any. The store is only read.
   */
  function List(ctx: Context, fault: Option<StoreFailure>, store: Store): (o: Outcome<seq<Operation>>)
    requires Valid(store)
    ensures o.store == store
    ensures ctx.None? ==> o.result == Failure(Unauthorized)
    ensures ctx.Some? && fault.Some? ==> o.result == Failure(StoreError(fault.value))
    ensures o.result.Success? <==> ctx.Some? && fault.None?
    ensures o.result.Success? ==>
      && (forall i :: 0 <= i < |o.result.value| ==> o.result.value[i].userId == ctx.value.id)
      && multiset(o.result.value) == multiset(OwnedRecords(store, ctx.value.id))
      && NewestFirst(o.result.value)
  {
    match ctx
    case None => Outcome(Failure(Unauthorized), store)
    case Some(caller) =>
      match fault
      case Some(f) => Outcome(Failure(StoreError(f)), store)
      case None =>
        var rows := SortNewestFirst(Collect(store.records, caller.id, 0, store.nextId));
        assert OwnedBetween(store.records, caller.id, 0, store.nextId) == OwnedRecords(store, caller.id);
        assert forall i :: 0 <= i < |rows| ==> rows[i] in multiset(OwnedRecords(store, caller.id));
        Outcome(Success(rows), store)
  }
}
