/** The normalised state the list queries produce: an `ids` array and an
    `entities` dictionary from id to entity. */
module Entities {
  import opened Values
  import ApiSlice

  /** A dictionary entry; a key whose value is `undefined` maps to `None`. */
  datatype Entry<T> = Entry(key: Id, value: Option<T>)

  /** `EntityState<T>`. The dictionary's entries are kept in the order in
      which `Object.values` enumerates them. */
  datatype EntityState<T> = EntityState(ids: seq<Id>, entities: seq<Entry<T>>)

  /** `entities[key]`: the value of the first entry for `key`, `undefined`
      when there is none. */
  function Lookup<T>(entries: seq<Entry<T>>, key: Id): Option<T> {
    if entries == [] then None
    else if entries[0].key == key then entries[0].value
    else Lookup(entries[1..], key)
  }

  /** A found value sits under its key; with distinct keys, every entry's
      value is what its key looks up. */
  lemma {:induction false} LookupDistinct<T>(entries: seq<Entry<T>>, i: int)
    requires 0 <= i < |entries|
    requires forall a, b :: 0 <= a < b < |entries| ==> entries[a].key != entries[b].key
    ensures Lookup(entries, entries[i].key) == entries[i].value
  {
    if i > 0 {
      assert entries[0].key != entries[i].key;
      LookupDistinct(entries[1..], i - 1);
    }
  }

  /** A key that no entry has looks up nothing. */
  lemma {:induction false} LookupMissing<T>(entries: seq<Entry<T>>, key: Id)
    requires forall i :: 0 <= i < |entries| ==> entries[i].key != key
    ensures Lookup(entries, key) == None
  {
    if entries != [] {
      LookupMissing(entries[1..], key);
    }
  }

  /** `Object.values(entities)`. */
  function ObjectValues<T>(entries: seq<Entry<T>>): (r: seq<Option<T>>)
    ensures |r| == |entries|
    ensures forall i :: 0 <= i < |entries| ==> r[i] == entries[i].value
  {
    seq(|entries|, i requires 0 <= i < |entries| => entries[i].value)
  }

  /** `.filter(v => v != undefined)`: the defined values, in order. */
  function DefinedValues<T(!new)>(vs: seq<Option<T>>): (r: seq<T>)
    ensures |r| <= |vs|
    ensures forall x :: multiset(r)[x] == multiset(vs)[Some(x)]
    ensures forall x :: x in r <==> Some(x) in vs
  {
    if vs == [] then []
    else
      var rest := DefinedValues(vs[1..]);
      assert vs == [vs[0]] + vs[1..];
      if vs[0].Some? then [vs[0].value] + rest else rest
  }

  /** The flags and payloads of a list query hook. */
  datatype ListQuery<T> = ListQuery(
    isLoading: bool, isError: bool, isSuccess: bool,
    data: EntityState<T>, error: ApiSlice.ApiError)

  /** What a list screen shows below its title. */
  datatype Content<R> = Blank | Spinner | Message(text: Json) | Rows(rows: seq<R>)

  /** The list screens' `let content` chain: the spinner, then the error
      text, then the table, each later check overriding an earlier one. */
  function ListContent<T, R>(q: ListQuery<T>, rows: seq<R>): (c: Content<R>)
    ensures c.Rows? <==> q.isSuccess
    ensures c.Rows? ==> c.rows == rows
    ensures c.Message? <==> q.isError && !q.isSuccess
    ensures c.Message? ==> c.text == ApiSlice.ErrorText(q.error)
    ensures c.Spinner? <==> q.isLoading && !q.isError && !q.isSuccess
  {
    var content := Blank;
    var content := if q.isLoading then Spinner else content;
    var content := if q.isError then Message(ApiSlice.ErrorText(q.error)) else content;
    if q.isSuccess then Rows(rows) else content
  }
}
