/**
 * A database table as a finite map from auto-incremented primary keys to rows, and
 * the two ORM lookups the views use: `filter(...).first()` (the matching row with the
 * smallest primary key) and `get(...)` (exactly one match, or DoesNotExist, or
 * MultipleObjectsReturned).
 */
module Tables {
  import opened Web

  /** `next` is the value the primary-key sequence hands out next. */
  datatype Table<V> = Table(rows: map<nat, V>, next: nat)

  /** Every key in use was handed out by the sequence. */
  ghost predicate Wf<V>(t: Table<V>)
  {
    forall k :: k in t.rows ==> k < t.next
  }

  /** `Model.objects.create(...)`: the new row gets key `t.next`. */
  function Insert<V>(t: Table<V>, v: V): (r: Table<V>)
    requires Wf(t)
    ensures Wf(r)
    ensures t.next !in t.rows && r.rows == t.rows[t.next := v] && r.next == t.next + 1
  {
    Table(t.rows[t.next := v], t.next + 1)
  }

  /** Replaces the row stored under `k` (a `save()` of a fetched row). */
  function Put<V>(t: Table<V>, k: nat, v: V): (r: Table<V>)
    requires Wf(t) && k in t.rows
    ensures Wf(r) && r.next == t.next && r.rows.Keys == t.rows.Keys
    ensures r.rows[k] == v && forall j :: j in t.rows && j != k ==> r.rows[j] == t.rows[j]
  {
    Table(t.rows[k := v], t.next)
  }

  /** A second update of the same key overrides the first. */
  lemma UpdateTwice<K, V>(m: map<K, V>, k: K, a: V, b: V)
    ensures m[k := a][k := b] == m[k := b]
  {
  }

  /** Removes the row stored under `k` (a `delete()`). */
  function Remove<V>(t: Table<V>, k: nat): (r: Table<V>)
    requires Wf(t)
    ensures Wf(r) && r.next == t.next && r.rows.Keys == t.rows.Keys - {k}
    ensures forall j :: j in r.rows ==> r.rows[j] == t.rows[j]
  {
    Table(t.rows - {k}, t.next)
  }

  /** The smallest key below `n` whose row satisfies `p`. */
  function FirstBelow<V>(m: map<nat, V>, p: V -> bool, n: nat): (r: Option<nat>)
    ensures r.Some? ==> r.value < n && r.value in m && p(m[r.value])
    ensures r.Some? ==> forall k :: k < r.value && k in m ==> !p(m[k])
    ensures r.None? ==> forall k :: k < n && k in m ==> !p(m[k])
    decreases n
  {
    if n == 0 then None
    else
      match FirstBelow(m, p, n - 1)
      case Some(k) => Some(k)
      case None => if n - 1 in m && p(m[n - 1]) then Some(n - 1) else None
  }

  /** `filter(p).first()`: the matching row with the smallest primary key. */
  function First<V>(t: Table<V>, p: V -> bool): (r: Option<nat>)
    requires Wf(t)
    ensures r.Some? ==> r.value in t.rows && p(t.rows[r.value])
    ensures r.Some? ==> forall k :: k in t.rows && k < r.value ==> !p(t.rows[k])
    ensures r.None? <==> forall k :: k in t.rows ==> !p(t.rows[k])
  {
    FirstBelow(t.rows, p, t.next)
  }

  /** At most one row satisfies `p`. */
  ghost predicate AtMostOne<V>(m: map<nat, V>, p: V -> bool)
  {
    forall a, b :: a in m && b in m && p(m[a]) && p(m[b]) ==> a == b
  }

  /** When at most one row matches, `first()` finds exactly the row that matches. */
  lemma FirstOfUnique<V>(t: Table<V>, p: V -> bool, k: nat)
    requires Wf(t) && AtMostOne(t.rows, p)
    ensures First(t, p) == Some(k) <==> k in t.rows && p(t.rows[k])
  {
  }

  /** Outcome of `Model.objects.get(...)`. */
  datatype Lookup = DoesNotExist | Found(key: nat) | MultipleObjectsReturned

  /** `get(p)` over the keys below `n`. */
  function GetBelow<V>(m: map<nat, V>, p: V -> bool, n: nat): (r: Lookup)
    ensures r.DoesNotExist? <==> forall k :: k < n && k in m ==> !p(m[k])
    ensures r.Found? ==> r.key < n && r.key in m && p(m[r.key])
    ensures r.Found? ==> forall k :: k < n && k in m && p(m[k]) ==> k == r.key
    ensures r.MultipleObjectsReturned? ==>
      exists a, b :: a < n && b < n && a in m && b in m && a != b && p(m[a]) && p(m[b])
    decreases n
  {
    if n == 0 then DoesNotExist
    else
      var below := GetBelow(m, p, n - 1);
      if n - 1 in m && p(m[n - 1]) then
        match below
        case DoesNotExist => Found(n - 1)
        case Found(k) =>
          assert k < n && n - 1 < n && k in m && n - 1 in m && k != n - 1 && p(m[k]) && p(m[n - 1]);
          MultipleObjectsReturned
        case MultipleObjectsReturned => MultipleObjectsReturned
      else below
  }

  /** `Model.objects.get(p)` over the whole table. */
  function Get<V>(t: Table<V>, p: V -> bool): (r: Lookup)
    requires Wf(t)
    ensures r.DoesNotExist? <==> forall k :: k in t.rows ==> !p(t.rows[k])
    ensures r.Found? <==> exists k :: k in t.rows && p(t.rows[k]) &&
                                     forall j :: j in t.rows && p(t.rows[j]) ==> j == k
    ensures r.Found? ==> r.key in t.rows && p(t.rows[r.key])
  {
    GetBelow(t.rows, p, t.next)
  }
}
