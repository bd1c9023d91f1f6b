/// The live collection behind `useRealtimeData` (src/hooks/useRealtimeData.ts):
/// a bulk fetch seeds `data`/`loading`/`error`, after which every change
/// notification of the table's channel is folded into `data`.  `useExpenses`
/// and `useIncome` put a user lookup in front of it.
module RealtimeData {
  import opened Basics

  /** A row of the mirrored table: its primary key and the columns the hook never inspects. */
  datatype Row<T> = Row(id: string, columns: T)

  /** A change notification, told apart by its `eventType`. */
  datatype ChangeEvent<T> =
    | Insert(newRow: Row<T>)
    | Update(newRow: Row<T>)
    | Delete(oldId: string)
    | Unrecognised(eventType: string)

  /** Number of rows carrying primary key `id`. */
  function CountId<T>(s: seq<Row<T>>, id: string): nat
  {
    if s == [] then 0 else CountId(s[..|s| - 1], id) + (if s[|s| - 1].id == id then 1 else 0)
  }

  /** `prev.map(item => item.id === row.id ? row : item)` */
  function ReplaceById<T>(s: seq<Row<T>>, row: Row<T>): (r: seq<Row<T>>)
    ensures |r| == |s|
    ensures forall i :: 0 <= i < |s| ==> r[i] == if s[i].id == row.id then row else s[i]
  {
    if s == [] then []
    else
      var last := s[|s| - 1];
      ReplaceById(s[..|s| - 1], row) + [if last.id == row.id then row else last]
  }

  /** `prev.filter(item => item.id !== id)` */
  function RemoveById<T>(s: seq<Row<T>>, id: string): (r: seq<Row<T>>)
    ensures IsSubsequence(r, s)
    ensures forall x :: x in r ==> x in s && x.id != id
    ensures forall x :: x in s && x.id != id ==> x in r
  {
    if s == [] then []
    else
      var last := s[|s| - 1];
      var rest := RemoveById(s[..|s| - 1], id);
      assert forall x :: x in s ==> x in s[..|s| - 1] || x == last;
      if last.id == id then rest else rest + [last]
  }

  /** DELETE removes every row carrying the key, and only those. */
  lemma {:induction false} RemoveCount<T>(s: seq<Row<T>>, id: string)
    ensures |RemoveById(s, id)| == |s| - CountId(s, id)
    ensures CountId(s, id) == 0 ==> RemoveById(s, id) == s
    decreases |s|
  {
    if s != [] {
      var init := s[..|s| - 1];
      RemoveCount(init, id);
      RemoveStep(s, id);
    }
  }

  /** One row more: it is dropped and counted when it carries the key, kept otherwise. */
  lemma RemoveStep<T>(s: seq<Row<T>>, id: string)
    requires s != []
    ensures var init, last := s[..|s| - 1], s[|s| - 1];
      s == init + [last] &&
      RemoveById(s, id) == RemoveById(init, id) + (if last.id == id then [] else [last]) &&
      CountId(s, id) == CountId(init, id) + (if last.id == id then 1 else 0)
  {
    var init, last := s[..|s| - 1], s[|s| - 1];
    if last.id == id {
      assert RemoveById(init, id) + [] == RemoveById(init, id);
    }
  }

  /** The reducer passed to `setData` for one notification. */
  function ApplyEvent<T>(prev: seq<Row<T>>, e: ChangeEvent<T>): seq<Row<T>>
  {
    match e
    case Insert(row) => prev + [row]
    case Update(row) => ReplaceById(prev, row)
    case Delete(id) => RemoveById(prev, id)
    case Unrecognised(_) => prev
  }

  /** INSERT appends at the end and de-duplicates nothing. */
  lemma InsertAppends<T>(prev: seq<Row<T>>, row: Row<T>)
    ensures |ApplyEvent(prev, Insert(row))| == |prev| + 1
    ensures ApplyEvent(prev, Insert(row))[..|prev|] == prev
    ensures ApplyEvent(prev, Insert(row))[|prev|] == row
    ensures CountId(ApplyEvent(prev, Insert(row)), row.id) == CountId(prev, row.id) + 1
  {
    assert (prev + [row])[..|prev|] == prev;
  }

  /** The same INSERT delivered twice leaves two copies of the row. */
  lemma InsertTwiceKeepsBoth<T>(prev: seq<Row<T>>, row: Row<T>)
    ensures CountId(ApplyEvent(ApplyEvent(prev, Insert(row)), Insert(row)), row.id) == CountId(prev, row.id) + 2
  {
    InsertAppends(prev, row);
    InsertAppends(prev + [row], row);
  }

  /** A DELETE for a key no row carries changes nothing. */
  lemma DeleteAbsentIsNoOp<T>(prev: seq<Row<T>>, id: string)
    requires forall x :: x in prev ==> x.id != id
    ensures ApplyEvent(prev, Delete(id)) == prev
  {
    CountIdZero(prev, id);
    RemoveCount(prev, id);
  }

  lemma {:induction false} CountIdZero<T>(s: seq<Row<T>>, id: string)
    requires forall x :: x in s ==> x.id != id
    ensures CountId(s, id) == 0
    decreases |s|
  {
    if s != [] {
      assert forall x :: x in s[..|s| - 1] ==> x in s;
      CountIdZero(s[..|s| - 1], id);
    }
  }

  // ---------------------------------------------------------------------
  // Reference semantics: the remote table as a map from primary key to row.
  // ---------------------------------------------------------------------

  /** The table a list mirrors: one entry per key, a later row winning over an earlier one. */
  function AsTable<T>(s: seq<Row<T>>): map<string, Row<T>>
  {
    if s == [] then map[] else AsTable(s[..|s| - 1])[s[|s| - 1].id := s[|s| - 1]]
  }

  /** What each notification does to a table keyed by primary key. */
  function TableApply<T>(t: map<string, Row<T>>, e: ChangeEvent<T>): map<string, Row<T>>
  {
    match e
    case Insert(row) => t[row.id := row]
    case Update(row) => if row.id in t then t[row.id := row] else t
    case Delete(id) => t - {id}
    case Unrecognised(_) => t
  }

  ghost predicate UniqueIds<T>(s: seq<Row<T>>)
  {
    forall i, j :: 0 <= i < j < |s| ==> s[i].id != s[j].id
  }

  /** Every row's key is a key of the table, and no other key is. */
  lemma {:induction false} AsTableKeys<T>(s: seq<Row<T>>)
    ensures forall x :: x in s ==> x.id in AsTable(s)
    ensures forall k :: k in AsTable(s) ==> exists x :: x in s && x.id == k
    decreases |s|
  {
    if s != [] {
      var init := s[..|s| - 1];
      AsTableKeys(init);
      assert forall x :: x in s ==> x in init || x == s[|s| - 1];
      assert forall x :: x in init ==> x in s;
    }
  }

  lemma {:induction false} ReplaceMirrorsTable<T>(s: seq<Row<T>>, row: Row<T>)
    ensures AsTable(ReplaceById(s, row)) == TableApply(AsTable(s), Update(row))
    decreases |s|
  {
    if s != [] {
      var init, last := s[..|s| - 1], s[|s| - 1];
      ReplaceMirrorsTable(init, row);
      var r := ReplaceById(s, row);
      var front := ReplaceById(init, row);
      var last' := if last.id == row.id then row else last;
      assert r == front + [last'];
      assert r[..|r| - 1] == front;
      UpdateStep(AsTable(init), last, row);
    }
  }

  /** An UPDATE commutes with putting one more row into the table. */
  lemma UpdateStep<T>(t: map<string, Row<T>>, last: Row<T>, row: Row<T>)
    ensures TableApply(t, Update(row))[last.id := if last.id == row.id then row else last]
         == TableApply(t[last.id := last], Update(row))
  {
    if last.id != row.id && row.id in t {
      assert t[row.id := row][last.id := last] == t[last.id := last][row.id := row];
    }
  }

  /** Removing a key after setting a different one is setting it after the removal. */
  lemma RemoveAfterSet<K, V>(m: map<K, V>, k: K, v: V, id: K)
    ensures k == id ==> m[k := v] - {id} == m - {id}
    ensures k != id ==> m[k := v] - {id} == (m - {id})[k := v]
  {
  }

  lemma {:induction false} RemoveMirrorsTable<T>(s: seq<Row<T>>, id: string)
    ensures AsTable(RemoveById(s, id)) == TableApply(AsTable(s), Delete(id))
    decreases |s|
  {
    if s != [] {
      var init, last := s[..|s| - 1], s[|s| - 1];
      RemoveMirrorsTable(init, id);
      var rest := RemoveById(init, id);
      assert AsTable(s) == AsTable(init)[last.id := last];
      RemoveAfterSet(AsTable(init), last.id, last, id);
      if last.id == id {
        assert RemoveById(s, id) == rest;
      } else {
        assert RemoveById(s, id) == rest + [last];
        assert (rest + [last])[..|rest|] == rest;
      }
    }
  }

  lemma {:induction false} RemoveKeepsUnique<T>(s: seq<Row<T>>, id: string)
    requires UniqueIds(s)
    ensures UniqueIds(RemoveById(s, id))
    decreases |s|
  {
    if s != [] {
      var init, last := s[..|s| - 1], s[|s| - 1];
      RemoveKeepsUnique(init, id);
      var rest := RemoveById(init, id);
      if last.id != id {
        assert forall x :: x in init ==> x.id != last.id;
        assert forall i :: 0 <= i < |rest| ==> rest[i] in init;
      }
    }
  }

  /** An INSERT with a new key keeps keys unique and adds that key to the table. */
  lemma InsertMirrorsTable<T>(s: seq<Row<T>>, row: Row<T>)
    requires UniqueIds(s)
    requires row.id !in AsTable(s)
    ensures UniqueIds(s + [row])
    ensures AsTable(s + [row]) == AsTable(s)[row.id := row]
  {
    assert (s + [row])[..|s|] == s;
    AsTableKeys(s);
    AppendUnique(s, row);
  }

  lemma AppendUnique<T>(s: seq<Row<T>>, row: Row<T>)
    requires UniqueIds(s)
    requires forall x :: x in s ==> x.id != row.id
    ensures UniqueIds(s + [row])
  {
    var r := s + [row];
    forall i, j | 0 <= i < j < |r|
      ensures r[i].id != r[j].id
    {
      assert r[i] == s[i];
      if j == |s| {
        assert s[i] in s;
      } else {
        assert r[j] == s[j];
      }
    }
  }

  /**
   * One notification changes the list exactly as it changes the table keyed
   * by primary key, for every list: a re-delivered INSERT leaves two rows with
   * one key, and the later of them is the table's entry.
   */
  lemma ApplyEventMirrorsTable<T>(s: seq<Row<T>>, e: ChangeEvent<T>)
    ensures AsTable(ApplyEvent(s, e)) == TableApply(AsTable(s), e)
  {
    match e
    case Insert(row) =>
      assert (s + [row])[..|s|] == s;
    case Update(row) =>
      ReplaceMirrorsTable(s, row);
    case Delete(id) =>
      RemoveMirrorsTable(s, id);
    case Unrecognised(_) =>
  }

  /** While keys are unique, only an INSERT of a key already present can duplicate one. */
  lemma ApplyEventKeepsUnique<T>(s: seq<Row<T>>, e: ChangeEvent<T>)
    requires UniqueIds(s)
    requires e.Insert? ==> e.newRow.id !in AsTable(s)
    ensures UniqueIds(ApplyEvent(s, e))
  {
    match e
    case Insert(row) =>
      InsertMirrorsTable(s, row);
    case Update(row) =>
    case Delete(id) =>
      RemoveKeepsUnique(s, id);
    case Unrecognised(_) =>
  }

  /** Notifications applied in arrival order, starting from a fetched snapshot. */
  function ApplyAll<T>(s: seq<Row<T>>, es: seq<ChangeEvent<T>>): seq<Row<T>>
  {
    if es == [] then s else ApplyEvent(ApplyAll(s, es[..|es| - 1]), es[|es| - 1])
  }

  function TableApplyAll<T>(t: map<string, Row<T>>, es: seq<ChangeEvent<T>>): map<string, Row<T>>
  {
    if es == [] then t else TableApply(TableApplyAll(t, es[..|es| - 1]), es[|es| - 1])
  }

  /** Every INSERT in `es` carries a key absent from the list at the moment it arrives. */
  ghost predicate FreshInserts<T>(s: seq<Row<T>>, es: seq<ChangeEvent<T>>)
  {
    es == [] ||
    (FreshInserts(s, es[..|es| - 1]) &&
     (es[|es| - 1].Insert? ==> es[|es| - 1].newRow.id !in AsTable(ApplyAll(s, es[..|es| - 1]))))
  }

  /** Replaying any notification stream on the list agrees with replaying it on the keyed table. */
  lemma {:induction false} ReplayMirrorsTable<T>(s: seq<Row<T>>, es: seq<ChangeEvent<T>>)
    ensures AsTable(ApplyAll(s, es)) == TableApplyAll(AsTable(s), es)
    decreases |es|
  {
    if es != [] {
      ReplayMirrorsTable(s, es[..|es| - 1]);
      ApplyEventMirrorsTable(ApplyAll(s, es[..|es| - 1]), es[|es| - 1]);
    }
  }

  /** Keys stay unique through a stream whose every INSERT brings a new key. */
  lemma {:induction false} ReplayKeepsUnique<T>(s: seq<Row<T>>, es: seq<ChangeEvent<T>>)
    requires UniqueIds(s)
    requires FreshInserts(s, es)
    ensures UniqueIds(ApplyAll(s, es))
    decreases |es|
  {
    if es != [] {
      ReplayKeepsUnique(s, es[..|es| - 1]);
      ApplyEventKeepsUnique(ApplyAll(s, es[..|es| - 1]), es[|es| - 1]);
    }
  }

  // ---------------------------------------------------------------------
  // The hook's state slots.
  // ---------------------------------------------------------------------

  /** How the initial `await query` ended. */
  datatype FetchOutcome<T> =
    | Fetched(rows: Option<seq<Row<T>>>)   // no error; `data` may still be null
    | QueryFailed(message: string)          // the query answered with an error
    | Threw(errorMessage: Option<string>)   // the await threw; Some(m) when it threw an Error

  /** `err instanceof Error ? err.message : "Unknown error"` */
  function ThrownMessage(m: Option<string>): string
  {
    match m
    case Some(s) => s
    case None => "Unknown error"
  }

  /** `data` once the fetch settles: the rows (`[]` for null) on success, untouched otherwise. */
  function SettledData<T>(prev: seq<Row<T>>, outcome: FetchOutcome<T>): seq<Row<T>>
  {
    match outcome
    case Fetched(rows) => if rows.Some? then rows.value else []
    case _ => prev
  }

  /** `error` once the fetch settles: a success leaves the previous error in place. */
  function SettledError<T>(prev: Option<string>, outcome: FetchOutcome<T>): Option<string>
  {
    match outcome
    case Fetched(_) => prev
    case QueryFailed(m) => Some(m)
    case Threw(m) => Some(ThrownMessage(m))
  }

  /** The `data`/`loading`/`error` state of one `useRealtimeData` call and its channel. */
  class LiveCollection<T> {
    var data: seq<Row<T>>
    var loading: bool
    var error: Option<string>
    /** The `${table}_changes` channel is subscribed. */
    var subscribed: bool
    /** `fetchData` has passed `setLoading(true)` and its query has not settled. */
    var fetchPending: bool

    constructor ()
      ensures data == [] && loading && error == None
      ensures !subscribed && !fetchPending
    {
      data, loading, error := [], true, None;
      subscribed, fetchPending := false, false;
    }

    /** The effect body: nothing when disabled; otherwise start the fetch and subscribe. */
    method Activate(enabled: bool)
      modifies this
      ensures !enabled ==> unchanged(this)
      ensures enabled ==> loading && fetchPending && subscribed
      ensures enabled ==> data == old(data) && error == old(error)
    {
      if !enabled {
        return;
      }
      loading := true;
      fetchPending := true;
      subscribed := true;
    }

    /** The continuation of `await query`, its `catch` and its `finally`. */
    method Settle(outcome: FetchOutcome<T>)
      requires fetchPending
      modifies this
      ensures !loading && !fetchPending && subscribed == old(subscribed)
      ensures data == SettledData(old(data), outcome)
      ensures error == SettledError(old(error), outcome)
    {
      match outcome {
        case Fetched(rows) =>
          data := if rows.Some? then rows.value else [];
        case QueryFailed(m) =>
          error := Some(m);
        case Threw(m) =>
          error := Some(ThrownMessage(m));
      }
      loading := false;
      fetchPending := false;
    }

    /** A notification delivered on the channel; none arrive once it is removed. */
    method Receive(e: ChangeEvent<T>)
      modifies this`data
      ensures data == if subscribed then ApplyEvent(old(data), e) else old(data)
    {
      if subscribed {
        data := ApplyEvent(data, e);
      }
    }

    /** The effect's cleanup, `supabase.removeChannel(channel)`. */
    method Deactivate()
      modifies this`subscribed
      ensures !subscribed
    {
      subscribed := false;
    }
  }

  /** `useExpenses` / `useIncome`: a user lookup gating one live collection. */
  class OwnedCollection<T> {
    var user: Option<string>
    var userLoading: bool
    const feed: LiveCollection<T>

    constructor ()
      ensures user == None && userLoading
      ensures fresh(feed) && feed.data == [] && feed.loading && feed.error == None
      ensures !feed.subscribed && !feed.fetchPending
    {
      user := None;
      userLoading := true;
      feed := new LiveCollection<T>();
    }

    /** `enabled: !!user && !loading` */
    predicate Enabled()
      reads this
    {
      user.Some? && !userLoading
    }

    /** `loading: result.loading || loading` */
    predicate Loading()
      reads this, feed
    {
      feed.loading || userLoading
    }

    /**
     * `getUser` settles, once, after mount (a thrown lookup leaves the user
     * null).  `enabled` was false until now, so the live collection's effect
     * runs again exactly when the lookup found a user.
     */
    method ResolveUser(found: Option<string>)
      requires userLoading
      requires !feed.subscribed && !feed.fetchPending && feed.loading
      modifies this, feed
      ensures user == found && !userLoading
      ensures Enabled() <==> found.Some?
      ensures feed.data == old(feed.data) && feed.error == old(feed.error)
      ensures found.Some? ==> feed.fetchPending && feed.subscribed
      ensures found.None? ==> unchanged(feed)
      ensures Loading()
    {
      user := found;
      userLoading := false;
      if Enabled() {
        feed.Activate(true);
      }
    }

    /** The collection's fetch settles; what is reported as loading is the user lookup alone. */
    method FetchSettled(outcome: FetchOutcome<T>)
      requires feed.fetchPending
      modifies feed
      ensures feed.data == SettledData(old(feed.data), outcome)
      ensures feed.error == SettledError(old(feed.error), outcome)
      ensures !feed.loading && !feed.fetchPending && feed.subscribed == old(feed.subscribed)
      ensures Loading() == userLoading
    {
      feed.Settle(outcome);
    }
  }
}
