/** What a list of writes leaves at a key, said without replaying them: the last value put,
    followed by the values appended since. */
module Writes {

  datatype Write<K, T> = Nothing | Put(key: K, value: seq<T>) | Append(key: K, value: seq<T>)

  predicate Puts<K(==), T(==)>(w: Write<K, T>, k: K) {
    w.Put? && w.key == k
  }

  predicate Appends<K(==), T(==)>(w: Write<K, T>, k: K) {
    w.Append? && w.key == k
  }

  /** The first `n` writes touch `k`. */
  predicate Written<K(==), T(==)>(ws: seq<Write<K, T>>, k: K, n: nat)
    requires n <= |ws|
  {
    exists j :: 0 <= j < n && (Puts(ws[j], k) || Appends(ws[j], k))
  }

  /** The position of the last value put at `k` by the first `n` writes, or -1. */
  function LastPut<K(==), T(==)>(ws: seq<Write<K, T>>, k: K, n: nat): (p: int)
    requires n <= |ws|
    ensures -1 <= p < n && (p >= 0 ==> Puts(ws[p], k))
    ensures forall j :: p < j < n ==> !Puts(ws[j], k)
  {
    if n == 0 then -1 else if Puts(ws[n - 1], k) then n - 1 else LastPut(ws, k, n - 1)
  }

  /** The values appended at `k` by writes `from` up to `n`, in order. */
  function Appended<K(==), T(==)>(ws: seq<Write<K, T>>, k: K, from: nat, n: nat): seq<T>
    requires n <= |ws|
  {
    if n <= from then []
    else Appended(ws, k, from, n - 1) + if Appends(ws[n - 1], k) then ws[n - 1].value else []
  }

  /** What the first `n` writes leave at `k`. */
  function Value<K(==), T(==)>(ws: seq<Write<K, T>>, k: K, n: nat): seq<T>
    requires n <= |ws|
  {
    var p := LastPut(ws, k, n);
    (if p >= 0 then ws[p].value else []) + Appended(ws, k, p + 1, n)
  }

  lemma WrittenNext<K, T>(ws: seq<Write<K, T>>, k: K, n: nat)
    requires n < |ws|
    ensures Written(ws, k, n + 1) <==> Written(ws, k, n) || Puts(ws[n], k) || Appends(ws[n], k)
  {
    if Written(ws, k, n) {
      var j :| 0 <= j < n && (Puts(ws[j], k) || Appends(ws[j], k));
      assert 0 <= j < n + 1;
    }
  }

  lemma ValueNext<K, T>(ws: seq<Write<K, T>>, k: K, n: nat)
    requires n < |ws|
    ensures Value(ws, k, n + 1) ==
      if Puts(ws[n], k) then ws[n].value
      else if Appends(ws[n], k) then Value(ws, k, n) + ws[n].value
      else Value(ws, k, n)
  {
    if Puts(ws[n], k) {
      assert Appended(ws, k, n + 1, n + 1) == [];
    } else {
      var p := LastPut(ws, k, n);
      assert LastPut(ws, k, n + 1) == p;
      assert Appended(ws, k, p + 1, n + 1) == Appended(ws, k, p + 1, n) + if Appends(ws[n], k) then ws[n].value else [];
    }
  }

  lemma {:induction false} ValueUnwritten<K, T>(ws: seq<Write<K, T>>, k: K, n: nat)
    requires n <= |ws| && !Written(ws, k, n)
    ensures Value(ws, k, n) == []
  {
    if n > 0 {
      WrittenNext(ws, k, n - 1);
      ValueNext(ws, k, n - 1);
      ValueUnwritten(ws, k, n - 1);
    }
  }
}
