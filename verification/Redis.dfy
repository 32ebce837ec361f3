/** The Redis commands the budget and the limiter use, on one key and in a store:
    an absent or expired key counts from nothing, a live one keeps its expiry. */
module Redis {
  import opened Wrappers

  datatype Entry = Entry(value: int, expiresAt: Option<int>)

  predicate Live(cell: Option<Entry>, now: int) {
    cell.Some? && (cell.value.expiresAt.Some? ==> now < cell.value.expiresAt.value)
  }

  function Value(cell: Option<Entry>, now: int): int {
    if Live(cell, now) then cell.value.value else 0
  }

  function Incremented(cell: Option<Entry>, n: int, now: int): Entry {
    if Live(cell, now) then cell.value.(value := cell.value.value + n) else Entry(n, None)
  }

  function Cell<K>(store: map<K, Entry>, key: K): Option<Entry> {
    if key in store then Some(store[key]) else None
  }

  class Server<K(==)> {
    var store: map<K, Entry>

    constructor ()
      ensures store == map[]
    {
      store := map[];
    }

    method Get(key: K, now: int) returns (value: int)
      ensures value == Value(Cell(store, key), now)
    {
      value := Value(Cell(store, key), now);
    }

    method IncrBy(key: K, n: int, now: int) returns (value: int)
      modifies this
      ensures store == old(store)[key := Incremented(Cell(old(store), key), n, now)]
      ensures store[key].expiresAt == if Live(Cell(old(store), key), now) then old(store)[key].expiresAt else None
      ensures value == store[key].value == Value(Cell(old(store), key), now) + n
    {
      store := store[key := Incremented(Cell(store, key), n, now)];
      value := store[key].value;
    }

    method Expire(key: K, seconds: int, now: int)
      requires key in store
      modifies this
      ensures store == old(store)[key := old(store)[key].(expiresAt := Some(now + seconds))]
    {
      store := store[key := store[key].(expiresAt := Some(now + seconds))];
    }
  }
}
